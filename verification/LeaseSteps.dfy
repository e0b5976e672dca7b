/** Every step of the system keeps the invariant, so every state of every run has it. */
module LeaseSteps {
  import opened Basics
  import opened LeaseRecords
  import opened LeaseClient
  import opened LeaseSystem
  import opened LeaseLog
  import opened LeaseInvariant
  import opened LeasePreservation

  lemma FinishReadingKeeps(fleet: Fleet, w: World, i: nat, p: Process, r: nat, readAt: Time, p': Process)
    requires FleetOk(fleet) && i < |fleet.configs| && WorldOk(fleet, w) && ProcessOk(fleet, w, i, p)
    requires FinishReadingStep(fleet, i, Clock(fleet, i, w.now), p, r, readAt, p')
    ensures ProcessOk(fleet, w, i, p')
  {
    assert ReadOk(w, p.client, p.readOps[r]);
    FinishReadKeeps(fleet, w, i, p.client, p.readOps[r], readAt);
    FinishPhaseKeeps(fleet, w, i, p, r, readAt, p'.client);
    ReadsSurvive(w, p.client, p'.client, p'.readOps);
  }

  lemma FireTimerKeeps(fleet: Fleet, w: World, i: nat, p: Process, l: nat, p': Process)
    requires FleetOk(fleet) && i < |fleet.configs| && WorldOk(fleet, w) && ProcessOk(fleet, w, i, p)
    requires l < |p.client.leases| && p' == p.(client := TimerFired(p.client, l, Clock(fleet, i, w.now)))
    ensures ProcessOk(fleet, w, i, p')
  {
    RetireKeeps(fleet, w, i, p.client, l, LeaseExpired);
    PhaseSurvives(fleet, w, i, p.client, p'.client, p.phase);
    ReadsSurvive(w, p.client, p'.client, p.readOps);
  }

  lemma CheckKeeps(fleet: Fleet, w: World, i: nat, p: Process, l: nat, p': Process)
    requires FleetOk(fleet) && i < |fleet.configs| && WorldOk(fleet, w) && ProcessOk(fleet, w, i, p)
    requires l < |p.client.leases| && p' == p.(client := Check(p.client, l, Clock(fleet, i, w.now)).0)
    ensures ProcessOk(fleet, w, i, p')
  {
    assert p'.client == p.client || p'.client == RetireLease(p.client, l, LeaseExpired);
    RetireKeeps(fleet, w, i, p.client, l, LeaseExpired);
    PhaseSurvives(fleet, w, i, p.client, p'.client, p.phase);
    ReadsSurvive(w, p.client, p'.client, p.readOps);
  }

  lemma ReadBeginsKeeps(fleet: Fleet, w: World, i: nat, p: Process, e: Event, p': Process)
    requires FleetOk(fleet) && i < |fleet.configs| && WorldOk(fleet, w) && ProcessOk(fleet, w, i, p)
    requires ObserveStep(p, p') || StartRequireReadStep(p, p')
             || (e.StartReconcileRead? && StartReconcileReadStep(Clock(fleet, i, w.now), p, e.checkedAt, p'))
    ensures ProcessOk(fleet, w, i, p')
  {
    ReadAppended(w, p.client, p.readOps);
  }

  lemma ReadAppended(w: World, c: Client, readOps: seq<Read>)
    requires ReadsOk(w, c, readOps)
    ensures ReadsOk(w, c, readOps + [Read(c.generation, None, false)])
  {
  }

  lemma FetchKeeps(fleet: Fleet, w: World, i: nat, p: Process, r: nat, fetch: Fetch, p': Process)
    requires FleetOk(fleet) && i < |fleet.configs| && WorldOk(fleet, w) && ProcessOk(fleet, w, i, p)
    requires fetch.at == w.now
    requires fetch.reply == Get(w.log) || (fetch.reply.Failed? && fetch.reply.error != NotFound)
    requires FetchStep(p, r, fetch, p')
    ensures ProcessOk(fleet, w, i, p')
  {
    assert ReadOk(w, p.client, p.readOps[r]);
    assert w.log != [] ==> CommitOk(w, |w.log| - 1);
    FetchedIsNewest(fleet, w, i, p.client, p.readOps[r], fetch);
  }

  /** A fetched object is the newest commit, so it is no older than anything observed before the fetch. */
  lemma FetchedIsNewest(fleet: Fleet, w: World, i: nat, c: Client, r: Read, fetch: Fetch)
    requires FleetOk(fleet) && i < |fleet.configs|
    requires w.log != [] ==> w.log[|w.log| - 1].at <= w.now
    requires c.observed.Some? ==> ObservedOk(fleet, w.log, i, c.observed.value)
    requires ReadOk(w, c, r) && fetch.at == w.now
    requires fetch.reply == Get(w.log) || (fetch.reply.Failed? && fetch.reply.error != NotFound)
    ensures ReadOk(w, c, r.(fetched := Some(fetch)))
  {
  }

  lemma FinishPhaseKeeps(fleet: Fleet, w: World, i: nat, p: Process, r: nat, readAt: Time, c': Client)
    requires FleetOk(fleet) && i < |fleet.configs| && ProcessOk(fleet, w, i, p)
    requires r < |p.readOps| && p.readOps[r].fetched.Some? && p.readOps[r].startGen <= p.client.generation
    requires c' == FinishRead(p.client, p.readOps[r].startGen, p.readOps[r].fetched.value.reply, readAt).0
    requires ClientOk(fleet, w, i, c') && Interferes(p.client, c')
    requires var result := FinishRead(p.client, p.readOps[r].startGen, p.readOps[r].fetched.value.reply, readAt).1;
             && (result.Ok? ==> c'.observed == Some(result.value))
             && (result == Err(NotFound) ==> c'.observed.None?)
    ensures var result := FinishRead(p.client, p.readOps[r].startGen, p.readOps[r].fetched.value.reply, readAt).1;
            PhaseOk(fleet, w, i, c', AfterRead(p.phase, r, result))
  {
    PhaseSurvives(fleet, w, i, p.client, c', p.phase);
    assert c'.observed.Some? ==> EpochsUpTo(c', c'.observed.value.record.epochID);
  }

  lemma RequireKeeps(fleet: Fleet, w: World, i: nat, p: Process, p': Process)
    requires FleetOk(fleet) && i < |fleet.configs| && WorldOk(fleet, w) && ProcessOk(fleet, w, i, p)
    requires RequireStep(Clock(fleet, i, w.now), p, p')
    ensures ProcessOk(fleet, w, i, p')
  {
    PrepareKeeps(fleet, w, i, p.client, Clock(fleet, i, w.now));
    PrepareLeavesObserved(p.client, Clock(fleet, i, w.now));
    ReadsSurvive(w, p.client, p'.client, p.readOps);
  }

  lemma PrepareLeavesObserved(c: Client, now: Time)
    requires WellFormed(c)
    ensures PrepareRequire(c, now).0.observed == c.observed && PrepareRequire(c, now).0.generation == c.generation
  {
  }

  lemma AcquisitionReplyKeeps(fleet: Fleet, w: World, i: nat, p: Process, reply: WriteReply, p': Process)
    requires FleetOk(fleet) && i < |fleet.configs| && WorldOk(fleet, w) && ProcessOk(fleet, w, i, p)
    requires AcquisitionReplyStep(w.log, i, p, reply, p')
    ensures ProcessOk(fleet, w, i, p')
  {
  }

  lemma ConfirmAcquiredKeeps(fleet: Fleet, w: World, i: nat, p: Process, canceled: bool, p': Process)
    requires FleetOk(fleet) && i < |fleet.configs| && WorldOk(fleet, w) && ProcessOk(fleet, w, i, p)
    requires ConfirmAcquiredStep(Clock(fleet, i, w.now), p, canceled, p')
    ensures ProcessOk(fleet, w, i, p')
  {
    ConfirmAcquisitionKeeps(fleet, w, i, p.client, p.phase.proposal, p.phase.version, Clock(fleet, i, w.now), canceled);
    ReadsSurvive(w, p.client, p'.client, p.readOps);
  }

  /** What Require freezes is a permitted write: eligibility makes a takeover wait out the advertised duration. */
  lemma FreezeAcquisitionKeeps(fleet: Fleet, w: World, i: nat, p: Process, eligibleAt: Time, wall: Time, uid: string, p': Process)
    requires FleetOk(fleet) && i < |fleet.configs| && WorldOk(fleet, w) && ProcessOk(fleet, w, i, p)
    requires FreezeAcquisitionStep(Clock(fleet, i, w.now), p, eligibleAt, wall, uid, p')
    ensures ProcessOk(fleet, w, i, p')
  {
    if p.phase.found.Some? { assert CommitOk(w, p.phase.found.value.version); }
  }

  lemma AdmitKeeps(fleet: Fleet, w: World, i: nat, p: Process, e: Event, p': Process)
    requires FleetOk(fleet) && i < |fleet.configs| && WorldOk(fleet, w) && ProcessOk(fleet, w, i, p)
    requires (e.Renew? && RenewStep(p, e.lease, p')) || (e.Release? && ReleaseStep(p, e.lease, p'))
    ensures ProcessOk(fleet, w, i, p')
  {
  }

  lemma ValidateRenewalKeeps(fleet: Fleet, w: World, i: nat, p: Process, p': Process)
    requires FleetOk(fleet) && i < |fleet.configs| && WorldOk(fleet, w) && ProcessOk(fleet, w, i, p)
    requires ValidateRenewalStep(Clock(fleet, i, w.now), p, p')
    ensures ProcessOk(fleet, w, i, p')
  {
    BeginRenewKeeps(fleet, w, i, p.client, p.phase.lease, Clock(fleet, i, w.now));
    ReadsSurvive(w, p.client, p'.client, p.readOps);
  }

  /** A validated snapshot is the commit that backs the lease. */
  lemma BeginRenewKeeps(fleet: Fleet, w: World, i: nat, c: Client, l: nat, now: Time)
    requires FleetOk(fleet) && i < |fleet.configs| && WorldOk(fleet, w) && ClientOk(fleet, w, i, c)
    requires l < |c.leases| && c.pending.None?
    ensures var (c', r) := BeginRenew(c, l, now);
            && ClientOk(fleet, w, i, c') && c'.generation == c.generation && c'.observed == c.observed
            && (r.Ok? ==> SnapshotOk(fleet, w, i, c', l, r.value))
  {
    ValidateKeeps(fleet, w, i, c, l, now);
  }

  lemma BuildRenewalKeeps(fleet: Fleet, w: World, i: nat, p: Process, wall: Time, p': Process)
    requires FleetOk(fleet) && i < |fleet.configs| && WorldOk(fleet, w) && ProcessOk(fleet, w, i, p)
    requires BuildRenewalStep(Clock(fleet, i, w.now), w.sent, i, p, wall, p')
    ensures ProcessOk(fleet, w, i, p')
  {
    if p'.phase.RenewBuilt? {
      BuiltIsPermitted(fleet, w, i, p.client, p.phase.lease, p.phase.snapshot, p'.phase.proposal);
      assert Sole(w.sent, i, p'.phase.proposal);
    }
  }

  lemma FreezeRenewalKeeps(fleet: Fleet, w: World, i: nat, p: Process, p': Process)
    requires FleetOk(fleet) && i < |fleet.configs| && WorldOk(fleet, w) && ProcessOk(fleet, w, i, p)
    requires FreezeRenewalStep(Clock(fleet, i, w.now), p, p')
    ensures ProcessOk(fleet, w, i, p')
  {
    InstallRenewalKeeps(fleet, w, i, p.client, p.phase.proposal, Clock(fleet, i, w.now));
    ReadsSurvive(w, p.client, p'.client, p.readOps);
  }

  lemma InstallRenewalKeeps(fleet: Fleet, w: World, i: nat, c: Client, q: Proposal, now: Time)
    requires FleetOk(fleet) && i < |fleet.configs| && WorldOk(fleet, w) && ClientOk(fleet, w, i, c)
    requires FrozenOk(fleet, w, i, c, q) && q.acquired < |c.leases|
    ensures var (c', err) := InstallRenewal(c, q, now);
            && ClientOk(fleet, w, i, c') && c'.generation == c.generation && c'.observed == c.observed
            && (err.None? ==> c'.pending == Some(q))
  {
    ValidateKeeps(fleet, w, i, c, q.acquired, now);
    PendingSetKeeps(fleet, w, i, c, q);
  }

  /** A renewal or release built from a snapshot is a permitted write that cannot outlast the authority it extends. */
  lemma BuiltIsPermitted(fleet: Fleet, w: World, i: nat, c: Client, l: nat, s: Snapshot, q: Proposal)
    requires FleetOk(fleet) && i < |fleet.configs| && WorldOk(fleet, w)
    requires SnapshotOk(fleet, w, i, c, l, s)
    requires q.record.renewTime != ZERO_TIME && q.firstSendAt == Clock(fleet, i, w.now)
    requires q.expected == Some(s.expected) && q.authorityEnds == s.authorityEnds && q.acquired == l
    requires
      || (q.kind == ProposalKind.Renew && RenewalRecord(s.record, q.record.renewTime) == Ok(q.record))
      || (q.kind == ProposalKind.Release && ReleaseRecord(s.record, q.record.renewTime) == Ok(q.record))
    ensures WriteOk(fleet, w.log, i, q)
    ensures q.record.epochID == c.leases[l].epochID && q.record.sequenceID == c.leases[l].sequenceID + 1
    ensures 0 < q.authorityEnds <= q.firstSendAt + fleet.configs[i].renewDeadline
  {
    var k := s.expected;
    assert EntryOk(fleet, w.log, k) && CommitOk(w, k);
    CommitTerms(fleet, w.log, k);
    AdvertisedExceedsDeadline(fleet.configs[i]);
  }

  lemma PendingSetKeeps(fleet: Fleet, w: World, i: nat, c: Client, q: Proposal)
    requires FleetOk(fleet) && i < |fleet.configs| && ClientOk(fleet, w, i, c)
    requires FrozenOk(fleet, w, i, c, q) && q.acquired < |c.leases|
    ensures ClientOk(fleet, w, i, c.(pending := Some(q)))
  {
    var c' := c.(pending := Some(q));
    assert LeasesOk(fleet, w.log, i, c');
    forall x | x in w.sent ensures MutationSentOk(i, c', x) {
      assert MutationSentOk(i, c, x);
    }
  }

  lemma ValidateReleaseKeeps(fleet: Fleet, w: World, i: nat, p: Process, p': Process)
    requires FleetOk(fleet) && i < |fleet.configs| && WorldOk(fleet, w) && ProcessOk(fleet, w, i, p)
    requires ValidateReleaseStep(Clock(fleet, i, w.now), p, p')
    ensures ProcessOk(fleet, w, i, p')
  {
    BeginReleaseKeeps(fleet, w, i, p.client, p.phase.lease, Clock(fleet, i, w.now));
    ReadsSurvive(w, p.client, p'.client, p.readOps);
  }

  lemma BuildReleaseKeeps(fleet: Fleet, w: World, i: nat, p: Process, wall: Time, p': Process)
    requires FleetOk(fleet) && i < |fleet.configs| && WorldOk(fleet, w) && ProcessOk(fleet, w, i, p)
    requires BuildReleaseStep(Clock(fleet, i, w.now), p, wall, p')
    ensures ProcessOk(fleet, w, i, p')
  {
    if p'.phase.ReleaseBuilt? {
      BuiltIsPermitted(fleet, w, i, p.client, p.phase.lease, p.phase.snapshot, p'.phase.proposal);
      assert Sole(w.sent, i, p'.phase.proposal);
    }
  }

  lemma FreezeReleaseKeeps(fleet: Fleet, w: World, i: nat, p: Process, p': Process)
    requires FleetOk(fleet) && i < |fleet.configs| && WorldOk(fleet, w) && ProcessOk(fleet, w, i, p)
    requires FreezeReleaseStep(p, p')
    ensures ProcessOk(fleet, w, i, p')
  {
    PendingSetKeeps(fleet, w, i, p.client, p.phase.proposal);
    ReadsSurvive(w, p.client, p'.client, p.readOps);
  }

  /** Release retires the lease first, and no release of its epoch has been sent yet. */
  lemma BeginReleaseKeeps(fleet: Fleet, w: World, i: nat, c: Client, l: nat, now: Time)
    requires FleetOk(fleet) && i < |fleet.configs| && WorldOk(fleet, w) && ClientOk(fleet, w, i, c)
    requires l < |c.leases| && c.pending.None?
    ensures var (c', r) := BeginRelease(c, l, now);
            && ClientOk(fleet, w, i, c') && c'.generation == c.generation && c'.observed == c.observed
            && (r.Ok? ==> && SnapshotOk(fleet, w, i, c', l, r.value)
                          && c'.leases[l].retired.Some?
                          && NoReleaseSent(w.sent, i, c'.leases[l].epochID))
  {
    ValidateKeeps(fleet, w, i, c, l, now);
    RetireKeeps(fleet, w, i, c, l, LeaseRetired);
    if BeginRelease(c, l, now).1.Ok? {
      assert NoReleaseSent(w.sent, i, c.leases[l].epochID) by {
        forall x | x in w.sent && x.owner == i && x.proposal.kind == ProposalKind.Release
          ensures x.proposal.record.epochID != c.leases[l].epochID
        {
          assert MutationSentOk(i, c, x);
        }
      }
    }
  }

  lemma RefusePendingKeeps(fleet: Fleet, w: World, i: nat, p: Process, checkedAt: Time, p': Process)
    requires FleetOk(fleet) && i < |fleet.configs| && WorldOk(fleet, w) && ProcessOk(fleet, w, i, p)
    requires RefusePendingStep(Clock(fleet, i, w.now), p, checkedAt, p')
    ensures ProcessOk(fleet, w, i, p')
  {
    AbandonKeeps(fleet, w, i, p.client, p.phase.proposal);
    ClearKeeps(fleet, w, i, p.client, p.phase.proposal);
    ReadsSurvive(w, p.client, p'.client, p.readOps);
  }

  lemma PendingReplyKeeps(fleet: Fleet, w: World, i: nat, p: Process, reply: WriteReply, p': Process)
    requires FleetOk(fleet) && i < |fleet.configs| && WorldOk(fleet, w) && ProcessOk(fleet, w, i, p)
    requires PendingReplyStep(w.log, i, p, reply, p')
    ensures ProcessOk(fleet, w, i, p')
  {
    ClearKeeps(fleet, w, i, p.client, p.phase.proposal);
    ReadsSurvive(w, p.client, p'.client, p.readOps);
  }

  lemma ReconcileExpiredKeeps(fleet: Fleet, w: World, i: nat, p: Process, p': Process)
    requires FleetOk(fleet) && i < |fleet.configs| && WorldOk(fleet, w) && ProcessOk(fleet, w, i, p)
    requires ReconcileExpiredStep(Clock(fleet, i, w.now), p, p')
    ensures ProcessOk(fleet, w, i, p')
  {
    AbandonKeeps(fleet, w, i, p.client, p.phase.proposal);
    ReadsSurvive(w, p.client, p'.client, p.readOps);
  }

  lemma ResolveLosesKeeps(fleet: Fleet, w: World, i: nat, p: Process, p': Process)
    requires FleetOk(fleet) && i < |fleet.configs| && WorldOk(fleet, w) && ProcessOk(fleet, w, i, p)
    requires p.phase.ReconcileRead? && Readback(p.phase.proposal, p.phase.current).Loses?
    requires ResolveStep(p, p')
    ensures ProcessOk(fleet, w, i, p')
  {
    AbandonKeeps(fleet, w, i, p.client, p.phase.proposal);
    ReadsSurvive(w, p.client, p'.client, p.readOps);
  }

  lemma ResolveConfirmsKeeps(fleet: Fleet, w: World, i: nat, p: Process, p': Process)
    requires FleetOk(fleet) && i < |fleet.configs| && WorldOk(fleet, w) && ProcessOk(fleet, w, i, p)
    requires p.phase.ReconcileRead? && Readback(p.phase.proposal, p.phase.current).Confirms?
    requires ResolveStep(p, p')
    ensures ProcessOk(fleet, w, i, p')
  {
    ReadbackIsOwn(fleet, w, i, p.phase.proposal, p.phase.current.version);
  }

  lemma ResolveKeeps(fleet: Fleet, w: World, i: nat, p: Process, p': Process)
    requires FleetOk(fleet) && i < |fleet.configs| && WorldOk(fleet, w) && ProcessOk(fleet, w, i, p)
    requires ResolveStep(p, p')
    ensures ProcessOk(fleet, w, i, p')
  {
    match Readback(p.phase.proposal, p.phase.current)
    case Confirms(_) => ResolveConfirmsKeeps(fleet, w, i, p, p');
    case Loses => ResolveLosesKeeps(fleet, w, i, p, p');
    case Unresolved =>
  }

  lemma AbortKeeps(fleet: Fleet, w: World, i: nat, p: Process, p': Process)
    requires FleetOk(fleet) && i < |fleet.configs| && WorldOk(fleet, w) && ProcessOk(fleet, w, i, p)
    requires AbortStep(p, p')
    ensures ProcessOk(fleet, w, i, p')
  {
  }

  lemma ConfirmKeeps(fleet: Fleet, w: World, i: nat, p: Process, p': Process)
    requires FleetOk(fleet) && i < |fleet.configs| && WorldOk(fleet, w) && ProcessOk(fleet, w, i, p)
    requires ConfirmPendingStep(Clock(fleet, i, w.now), p, p')
    ensures ProcessOk(fleet, w, i, p')
  {
    if p.phase.proposal.kind == ProposalKind.Renew {
      ConfirmRenewalKeeps(fleet, w, i, p.client, p.phase.proposal, p.phase.version, Clock(fleet, i, w.now));
    } else {
      ConfirmReleaseKeeps(fleet, w, i, p.client, p.phase.proposal, p.phase.version);
    }
    ReadsSurvive(w, p.client, p'.client, p.readOps);
  }

  /** Sending: the request on the wire is a permitted write, and the sender's memory still describes it. */
  lemma SendKeeps(fleet: Fleet, w: World, i: nat, p: Process, e: Event, p': Process)
    requires FleetOk(fleet) && i < |fleet.configs| && WorldOk(fleet, w) && ProcessOk(fleet, w, i, p)
    requires SendNext(p, e, p')
    ensures SentOk(fleet, w, Write(i, p.phase.proposal))
    ensures Emitted(i, p, e) == {Write(i, p.phase.proposal)}
    ensures ProcessOk(fleet, w.(sent := w.sent + Emitted(i, p, e)), i, p')
  {
    var x := Write(i, p.phase.proposal);
    var w' := w.(sent := w.sent + {x});
    SentClientOk(fleet, w, i, p.client, x);
    ReadsOfLog(w, w', p.client, p.readOps);
  }

  lemma SentClientOk(fleet: Fleet, w: World, i: nat, c: Client, x: Write)
    requires FleetOk(fleet) && i < |fleet.configs| && ClientOk(fleet, w, i, c)
    requires x.owner == i
    requires if x.proposal.kind == ProposalKind.Acquire then c.pending.None? else c.pending == Some(x.proposal)
    ensures ClientOk(fleet, w.(sent := w.sent + {x}), i, c)
  {
    forall y | y in w.sent + {x} ensures MutationSentOk(i, c, y) {
      if y != x { assert MutationSentOk(i, c, y); }
    }
  }

  lemma ReadsOfLog(w: World, w': World, c: Client, readOps: seq<Read>)
    requires ReadsOk(w, c, readOps) && w'.log == w.log && w'.now == w.now
    ensures ReadsOk(w', c, readOps)
  {
    forall r | 0 <= r < |readOps| ensures ReadOk(w', c, readOps[r]) {
      assert ReadOk(w, c, readOps[r]);
    }
  }

  lemma ReadingKeeps(fleet: Fleet, w: World, i: nat, p: Process, e: Event, p': Process)
    requires FleetOk(fleet) && i < |fleet.configs| && WorldOk(fleet, w) && ProcessOk(fleet, w, i, p)
    requires ObservationNext(fleet, w, i, p, e, p')
    ensures ProcessOk(fleet, w, i, p')
  {
    match e
    case Observe | StartRequireRead | StartReconcileRead(_) => ReadBeginsKeeps(fleet, w, i, p, e, p');
    case FetchObject(r) => FetchKeeps(fleet, w, i, p, r, Fetch(Get(w.log), w.now), p');
    case FetchFails(r, err) => FetchKeeps(fleet, w, i, p, r, Fetch(Failed(err), w.now), p');
    case FinishReading(r, readAt) => FinishReadingKeeps(fleet, w, i, p, r, readAt, p');
  }

  lemma AcquiringKeeps(fleet: Fleet, w: World, i: nat, p: Process, e: Event, p': Process)
    requires FleetOk(fleet) && i < |fleet.configs| && WorldOk(fleet, w) && ProcessOk(fleet, w, i, p)
    requires p.client.config.leaseDuration > 0 && AcquisitionNext(fleet, w, i, p, e, p')
    ensures ProcessOk(fleet, w, i, p')
  {
    match e
    case Require => RequireKeeps(fleet, w, i, p, p');
    case FreezeAcquisition(t, wall, uid) => FreezeAcquisitionKeeps(fleet, w, i, p, t, wall, uid, p');
    case AcquisitionReply(reply) => AcquisitionReplyKeeps(fleet, w, i, p, reply, p');
    case ConfirmAcquired(canceled) => ConfirmAcquiredKeeps(fleet, w, i, p, canceled, p');
    case Abort => AbortKeeps(fleet, w, i, p, p');
  }

  lemma FreezingKeeps(fleet: Fleet, w: World, i: nat, p: Process, e: Event, p': Process)
    requires FleetOk(fleet) && i < |fleet.configs| && WorldOk(fleet, w) && ProcessOk(fleet, w, i, p)
    requires FreezeNext(fleet, w, i, p, e, p')
    ensures ProcessOk(fleet, w, i, p')
  {
    match e
    case Renew(_) | Release(_) => AdmitKeeps(fleet, w, i, p, e, p');
    case ValidateRenewal => ValidateRenewalKeeps(fleet, w, i, p, p');
    case BuildRenewal(wall) => BuildRenewalKeeps(fleet, w, i, p, wall, p');
    case FreezeRenewal => FreezeRenewalKeeps(fleet, w, i, p, p');
    case ValidateRelease => ValidateReleaseKeeps(fleet, w, i, p, p');
    case BuildRelease(wall) => BuildReleaseKeeps(fleet, w, i, p, wall, p');
    case FreezeRelease => FreezeReleaseKeeps(fleet, w, i, p, p');
  }

  lemma ResolvingKeeps(fleet: Fleet, w: World, i: nat, p: Process, e: Event, p': Process)
    requires FleetOk(fleet) && i < |fleet.configs| && WorldOk(fleet, w) && ProcessOk(fleet, w, i, p)
    requires ResolutionNext(fleet, w, i, p, e, p')
    ensures ProcessOk(fleet, w, i, p')
  {
    match e
    case RefusePending(checkedAt) => RefusePendingKeeps(fleet, w, i, p, checkedAt, p');
    case PendingReply(reply) => PendingReplyKeeps(fleet, w, i, p, reply, p');
    case ConfirmPending => ConfirmKeeps(fleet, w, i, p, p');
    case ReconcileExpired => ReconcileExpiredKeeps(fleet, w, i, p, p');
    case ResolveReadback => ResolveKeeps(fleet, w, i, p, p');
  }

  lemma ExpiringKeeps(fleet: Fleet, w: World, i: nat, p: Process, e: Event, p': Process)
    requires FleetOk(fleet) && i < |fleet.configs| && WorldOk(fleet, w) && ProcessOk(fleet, w, i, p)
    requires ExpiryNext(Clock(fleet, i, w.now), p, e, p')
    ensures ProcessOk(fleet, w, i, p')
  {
    match e
    case FireTimer(l) => FireTimerKeeps(fleet, w, i, p, l, p');
    case CheckLease(l) => CheckKeeps(fleet, w, i, p, l, p');
  }

  lemma LocalKeeps(fleet: Fleet, w: World, i: nat, p: Process, e: Event, p': Process)
    requires FleetOk(fleet) && i < |fleet.configs| && WorldOk(fleet, w) && ProcessOk(fleet, w, i, p)
    requires LocalNext(fleet, w, i, p, e, p')
    ensures ProcessOk(fleet, w.(sent := w.sent + Emitted(i, p, e)), i, p')
    ensures forall x :: x in Emitted(i, p, e) ==> x.owner == i && SentOk(fleet, w, x)
  {
    if SendNext(p, e, p') {
      SendKeeps(fleet, w, i, p, e, p');
    } else {
      assert Emitted(i, p, e) == {} by { if e.SendAcquisition? || e.SendPending? { assert false; } }
      assert w.(sent := w.sent + Emitted(i, p, e)) == w;
      QuietKeeps(fleet, w, i, p, e, p');
    }
  }

  lemma QuietKeeps(fleet: Fleet, w: World, i: nat, p: Process, e: Event, p': Process)
    requires FleetOk(fleet) && i < |fleet.configs| && WorldOk(fleet, w) && ProcessOk(fleet, w, i, p)
    requires !SendNext(p, e, p') && LocalNext(fleet, w, i, p, e, p')
    ensures ProcessOk(fleet, w, i, p')
  {
    if ObservationNext(fleet, w, i, p, e, p') {
      ReadingKeeps(fleet, w, i, p, e, p');
    } else if AcquisitionNext(fleet, w, i, p, e, p') {
      AcquiringKeeps(fleet, w, i, p, e, p');
    } else if FreezeNext(fleet, w, i, p, e, p') {
      FreezingKeeps(fleet, w, i, p, e, p');
    } else if ResolutionNext(fleet, w, i, p, e, p') {
      ResolvingKeeps(fleet, w, i, p, e, p');
    } else {
      ExpiringKeeps(fleet, w, i, p, e, p');
    }
  }

  lemma OthersKeep(fleet: Fleet, s: System, w': World, j: nat)
    requires SystemOk(fleet, s) && j < |s.procs| && Grows(j, WorldOf(s), w')
    ensures ProcessOk(fleet, w', j, s.procs[j])
  {
    ProcessGrows(fleet, WorldOf(s), w', j, s.procs[j]);
  }

  lemma DeliverKeeps(fleet: Fleet, s: System, x: Write, s': System)
    requires SystemOk(fleet, s) && Next(fleet, s, Deliver(x), s')
    ensures SystemOk(fleet, s')
  {
    assert SentOk(fleet, WorldOf(s), x);
    LogExtends(fleet, s.log, x.owner, x.proposal, s.now);
    forall y | y in s'.sent ensures SentOk(fleet, WorldOf(s'), y) {
      assert SentOk(fleet, WorldOf(s), y);
      WriteStable(fleet, s.log, Commit(x.owner, x.proposal, s.now), y.owner, y.proposal);
    }
    forall k | 0 <= k < |s'.log| ensures CommitOk(WorldOf(s'), k) {
      if k < |s.log| { assert CommitOk(WorldOf(s), k); }
    }
    forall j | 0 <= j < |s'.procs| ensures ProcessOk(fleet, WorldOf(s'), j, s'.procs[j]) {
      OthersKeep(fleet, s, WorldOf(s'), j);
    }
  }

  lemma LocalStepKeeps(fleet: Fleet, s: System, i: nat, e: Event, s': System)
    requires SystemOk(fleet, s) && Next(fleet, s, Local(i, e), s')
    ensures SystemOk(fleet, s')
  {
    LocalKeeps(fleet, WorldOf(s), i, s.procs[i], e, s'.procs[i]);
    WorldGrows(fleet, WorldOf(s), WorldOf(s'), Emitted(i, s.procs[i], e));
    forall j | 0 <= j < |s'.procs| ensures ProcessOk(fleet, WorldOf(s'), j, s'.procs[j]) {
      if j != i {
        assert s'.procs[j] == s.procs[j];
        OthersKeep(fleet, s, WorldOf(s'), j);
      }
    }
  }

  lemma WorldGrows(fleet: Fleet, w: World, w': World, sent: set<Write>)
    requires FleetOk(fleet) && WorldOk(fleet, w)
    requires w'.log == w.log && w'.now >= w.now && w'.sent == w.sent + sent
    requires forall x :: x in sent ==> SentOk(fleet, w, x)
    ensures WorldOk(fleet, w')
  {
    forall x | x in w'.sent ensures SentOk(fleet, w', x) {
      assert SentOk(fleet, w, x);
    }
    forall k | 0 <= k < |w'.log| ensures CommitOk(w', k) {
      assert CommitOk(w, k);
    }
  }

  lemma NextKeeps(fleet: Fleet, s: System, step: Step, s': System)
    requires SystemOk(fleet, s) && Next(fleet, s, step, s')
    ensures SystemOk(fleet, s')
  {
    match step
    case Tick(_) =>
      WorldGrows(fleet, WorldOf(s), WorldOf(s'), {});
      forall j | 0 <= j < |s'.procs| ensures ProcessOk(fleet, WorldOf(s'), j, s'.procs[j]) {
        OthersKeep(fleet, s, WorldOf(s'), j);
      }
    case Deliver(x) => DeliverKeeps(fleet, s, x, s');
    case Local(i, e) => LocalStepKeeps(fleet, s, i, e, s');
  }

  /** The invariant holds in every state of every run of any number of processes. */
  lemma {:induction false} RunKeeps(fleet: Fleet, run: seq<System>, steps: seq<Step>, k: nat)
    requires IsRun(fleet, run, steps) && k < |run|
    ensures SystemOk(fleet, run[k])
  {
    if k > 0 {
      RunKeeps(fleet, run, steps, k - 1);
      assert StepAt(fleet, run, steps, k - 1);
      NextKeeps(fleet, run[k - 1], steps[k - 1], run[k]);
    }
  }
}
