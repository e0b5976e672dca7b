/** Every step keeps the invariant: first what time and other processes do, then each step of the process itself. */
module LeasePreservation {
  import opened Basics
  import opened LeaseRecords
  import opened LeaseClient
  import opened LeaseSystem
  import opened LeaseLog
  import opened LeaseInvariant

  // The world as it may change while process i does nothing.
  ghost predicate Grows(i: nat, w: World, w': World) {
    && w.now <= w'.now
    && w.log <= w'.log
    && w.sent <= w'.sent
    && (forall x :: x in w'.sent && x.owner == i ==> x in w.sent)
  }

  lemma WriteGrows(fleet: Fleet, log: seq<Commit>, log': seq<Commit>, i: nat, p: Proposal)
    requires FleetOk(fleet) && WriteOk(fleet, log, i, p) && log <= log'
    ensures WriteOk(fleet, log', i, p)
  {
  }

  lemma LeasesGrow(fleet: Fleet, log: seq<Commit>, log': seq<Commit>, i: nat, c: Client)
    requires FleetOk(fleet) && i < |fleet.configs| && log <= log' && LeasesOk(fleet, log, i, c)
    ensures LeasesOk(fleet, log', i, c)
  {
    forall l | 0 <= l < |c.leases| ensures LeaseOk(fleet, log', i, c.leases[l]) {
      assert LeaseOk(fleet, log, i, c.leases[l]);
      var k :| Backed(fleet, log, i, c.leases[l], k);
      assert Backed(fleet, log', i, c.leases[l], k);
    }
  }

  lemma ReadsGrow(i: nat, w: World, w': World, c: Client, readOps: seq<Read>)
    requires Grows(i, w, w') && ReadsOk(w, c, readOps)
    ensures ReadsOk(w', c, readOps)
  {
    forall r | 0 <= r < |readOps| ensures ReadOk(w', c, readOps[r]) {
      assert ReadOk(w, c, readOps[r]);
    }
  }

  lemma ClientGrows(fleet: Fleet, w: World, w': World, i: nat, c: Client)
    requires FleetOk(fleet) && i < |fleet.configs|
    requires Grows(i, w, w') && ClientOk(fleet, w, i, c)
    ensures ClientOk(fleet, w', i, c)
  {
    LeasesGrow(fleet, w.log, w'.log, i, c);
    assert MutationsOk(w'.sent, i, c) by {
      forall x | x in w'.sent ensures MutationSentOk(i, c, x) {
        if x.owner == i { assert MutationSentOk(i, c, x); }
      }
    }
    if c.pending.Some? {
      WriteGrows(fleet, w.log, w'.log, i, c.pending.value);
    }
  }

  lemma PhaseGrows(fleet: Fleet, w: World, w': World, i: nat, c: Client, phase: Phase)
    requires FleetOk(fleet) && i < |fleet.configs|
    requires Grows(i, w, w') && PhaseOk(fleet, w, i, c, phase)
    ensures PhaseOk(fleet, w', i, c, phase)
  {
    match phase
    case AcquireFrozen(p) => WriteGrows(fleet, w.log, w'.log, i, p);
    case AcquireSent(p) => WriteGrows(fleet, w.log, w'.log, i, p);
    case AcquireReplied(p, _) => WriteGrows(fleet, w.log, w'.log, i, p);
    case RenewBuilt(p) => WriteGrows(fleet, w.log, w'.log, i, p);
    case ReleaseBuilt(p) => WriteGrows(fleet, w.log, w'.log, i, p);
    case _ =>
  }

  lemma ProcessGrows(fleet: Fleet, w: World, w': World, i: nat, p: Process)
    requires FleetOk(fleet) && i < |fleet.configs|
    requires Grows(i, w, w') && ProcessOk(fleet, w, i, p)
    ensures ProcessOk(fleet, w', i, p)
  {
    ClientGrows(fleet, w, w', i, p.client);
    PhaseGrows(fleet, w, w', i, p.client, p.phase);
    ReadsGrow(i, w, w', p.client, p.readOps);
  }

  /** What an observation, a timer or a check may do to a client in the middle of a Require, Renew or Release. */
  ghost predicate Interferes(c: Client, c': Client) {
    && c'.config == c.config
    && c'.pending == c.pending
    && (c.active.None? ==> c'.active.None?)
    && |c'.leases| == |c.leases|
    && forall l :: 0 <= l < |c.leases| ==> SameGrant(c.leases[l], c'.leases[l])
  }

  ghost predicate SameGrant(a: LeaseState, b: LeaseState) {
    && b.leaseUID == a.leaseUID
    && b.clientID == a.clientID
    && b.epochID == a.epochID
    && b.sequenceID == a.sequenceID
    && b.validUntil == a.validUntil
    && (a.retired.Some? ==> b.retired.Some?)
  }

  lemma PhaseSurvives(fleet: Fleet, w: World, i: nat, c: Client, c': Client, phase: Phase)
    requires FleetOk(fleet) && i < |fleet.configs|
    requires PhaseOk(fleet, w, i, c, phase) && Interferes(c, c')
    ensures PhaseOk(fleet, w, i, c', phase)
  {
  }

  lemma ReadsSurvive(w: World, c: Client, c': Client, readOps: seq<Read>)
    requires ReadsOk(w, c, readOps)
    requires c'.generation > c.generation || (c'.generation == c.generation && c'.observed == c.observed)
    ensures ReadsOk(w, c', readOps)
  {
    forall r | 0 <= r < |readOps| ensures ReadOk(w, c', readOps[r]) {
      assert ReadOk(w, c, readOps[r]);
    }
  }

  lemma RetireKeeps(fleet: Fleet, w: World, i: nat, c: Client, l: nat, cause: Error)
    requires FleetOk(fleet) && i < |fleet.configs|
    requires ClientOk(fleet, w, i, c) && l < |c.leases|
    ensures ClientOk(fleet, w, i, RetireLease(c, l, cause)) && Interferes(c, RetireLease(c, l, cause))
  {
    var c' := RetireLease(c, l, cause);
    forall m | 0 <= m < |c'.leases| ensures LeaseOk(fleet, w.log, i, c'.leases[m]) {
      assert LeaseOk(fleet, w.log, i, c.leases[m]);
      var k :| Backed(fleet, w.log, i, c.leases[m], k);
      assert Backed(fleet, w.log, i, c'.leases[m], k);
    }
    forall x | x in w.sent ensures MutationSentOk(i, c', x) {
      assert MutationSentOk(i, c, x);
    }
  }

  lemma ClearKeeps(fleet: Fleet, w: World, i: nat, c: Client, p: Proposal)
    requires FleetOk(fleet) && i < |fleet.configs| && ClientOk(fleet, w, i, c)
    ensures ClientOk(fleet, w, i, ClearPending(c, p))
  {
    var c' := ClearPending(c, p);
    assert LeasesOk(fleet, w.log, i, c');
    forall x | x in w.sent ensures MutationSentOk(i, c', x) {
      assert MutationSentOk(i, c, x);
    }
  }

  lemma AbandonKeeps(fleet: Fleet, w: World, i: nat, c: Client, p: Proposal)
    requires FleetOk(fleet) && i < |fleet.configs| && ClientOk(fleet, w, i, c) && p.acquired < |c.leases|
    ensures ClientOk(fleet, w, i, AbandonExpired(c, p)) && ClientOk(fleet, w, i, LosePending(c, p))
  {
    ClearKeeps(fleet, w, i, c, p);
    RetireKeeps(fleet, w, i, ClearPending(c, p), p.acquired, LeaseExpired);
    RetireKeeps(fleet, w, i, ClearPending(c, p), p.acquired, OwnershipLost);
  }

  lemma PrepareKeeps(fleet: Fleet, w: World, i: nat, c: Client, now: Time)
    requires FleetOk(fleet) && i < |fleet.configs| && ClientOk(fleet, w, i, c)
    ensures ClientOk(fleet, w, i, PrepareRequire(c, now).0)
    ensures PrepareRequire(c, now).1.None? ==> Free(PrepareRequire(c, now).0)
  {
    if c.active.Some? { RetireKeeps(fleet, w, i, c, c.active.value, LeaseExpired); }
    if c.pending.Some? {
      var c1 := if c.active.Some? && now >= c.leases[c.active.value].validUntil
                then RetireLease(c, c.active.value, LeaseExpired) else c;
      AbandonKeeps(fleet, w, i, c1, c.pending.value);
    }
  }

  lemma ValidateKeeps(fleet: Fleet, w: World, i: nat, c: Client, l: nat, now: Time)
    requires FleetOk(fleet) && i < |fleet.configs| && WorldOk(fleet, w) && ClientOk(fleet, w, i, c) && l < |c.leases|
    ensures ClientOk(fleet, w, i, ValidateActive(c, l, now).0)
    ensures ValidateActive(c, l, now).1.None? ==>
              && ValidateActive(c, l, now).0 == c
              && c.active == Some(l)
              && l == |c.leases| - 1
              && Backed(fleet, w.log, i, c.leases[l], c.observed.value.version)
  {
    RetireKeeps(fleet, w, i, c, l, LeaseExpired);
    RetireKeeps(fleet, w, i, c, l, OwnershipLost);
    if ValidateActive(c, l, now).1.None? {
      assert LeaseOk(fleet, w.log, i, c.leases[l]);
      var k :| Backed(fleet, w.log, i, c.leases[l], k);
      CommitsUnique(fleet, w.log, k, c.observed.value.version);
    }
  }

  /** A read that finishes never makes the client terminal, and hands its caller a committed observation. */
  lemma FinishReadKeeps(fleet: Fleet, w: World, i: nat, c: Client, r: Read, readAt: Time)
    requires FleetOk(fleet) && i < |fleet.configs| && WorldOk(fleet, w) && ClientOk(fleet, w, i, c)
    requires ReadOk(w, c, r) && r.fetched.Some?
    requires Clock(fleet, i, r.fetched.value.at) <= readAt <= Clock(fleet, i, w.now)
    ensures var (c', result) := FinishRead(c, r.startGen, r.fetched.value.reply, readAt);
            && ClientOk(fleet, w, i, c') && Interferes(c, c')
            && (c'.generation > c.generation || (c'.generation == c.generation && c'.observed == c.observed))
            && (result.Ok? ==> c'.observed == Some(result.value))
            && (result == Err(NotFound) ==> c'.observed.None?)
  {
    var (c', result) := FinishRead(c, r.startGen, r.fetched.value.reply, readAt);
    if c.generation == r.startGen && r.fetched.value.reply.Object? {
      var Object(record, v) := r.fetched.value.reply;
      CommitIsAcceptable(fleet, w, i, c.observed, v);
      assert ObservedOk(fleet, w.log, i, result.value) by {
        assert EntryOk(fleet, w.log, v);
      }
      InstallReadKeeps(fleet, w, i, c, result.value);
    }
  }

  /** A commit no older than the observed one decodes, does not roll back and does not contradict it. */
  lemma CommitIsAcceptable(fleet: Fleet, w: World, i: nat, observed: Option<Observed>, v: Version)
    requires FleetOk(fleet) && i < |fleet.configs| && LogOk(fleet, w.log) && v < |w.log|
    requires observed.Some? ==> ObservedOk(fleet, w.log, i, observed.value) && observed.value.version <= v
    ensures Acceptable(observed, Rec(w.log, v), v)
  {
    CommitsAccepted(fleet, w.log, v);
    if observed.Some? && observed.value.version < v {
      CommitsOrdered(fleet, w.log, observed.value.version, v);
    }
  }

  lemma InstallReadKeeps(fleet: Fleet, w: World, i: nat, c: Client, o: Observed)
    requires FleetOk(fleet) && i < |fleet.configs| && ClientOk(fleet, w, i, c)
    requires ObservedOk(fleet, w.log, i, o)
    requires c.observed.Some? ==> RecordsCompatible(c.observed.value.record, o.record)
    ensures var c' := RetireIfObservationLost(Install(c, o), o.record);
            ClientOk(fleet, w, i, c') && Interferes(c, c')
  {
    var kept := RetireOrSustain(c, o);
    assert EpochsUpTo(c, o.record.epochID);
    if kept == c {
      InstallKeeps(fleet, w, i, c, o);
    } else {
      RetireKeeps(fleet, w, i, c, c.active.value, OwnershipLost);
      InstallKeeps(fleet, w, i, kept, o);
    }
  }

  // Retiring first and installing second reaches the same state; an active lease that stays is sustained.
  lemma RetireOrSustain(c: Client, o: Observed) returns (kept: Client)
    requires WellFormed(c) && ActiveOk(c)
    requires c.active.Some? && c.pending.Some? ==>
               c.pending.value.record.sequenceID == c.leases[c.pending.value.acquired].sequenceID + 1
    ensures RetireIfObservationLost(Install(c, o), o.record) == Install(kept, o)
    ensures kept == c || (c.active.Some? && kept == RetireLease(c, c.active.value, OwnershipLost))
    ensures kept.active.Some? ==> Sustains(o.record, kept.leases[kept.active.value])
    ensures kept.active.Some? ==> kept == c
  {
    kept := RetireIfObservationLost(Install(c, o), o.record).(observed := c.observed, generation := c.generation);
  }

  /** Installing a committed observation that does not roll back is safe when the active lease survives it. */
  lemma InstallKeeps(fleet: Fleet, w: World, i: nat, c: Client, o: Observed)
    requires FleetOk(fleet) && i < |fleet.configs| && ClientOk(fleet, w, i, c)
    requires ObservedOk(fleet, w.log, i, o)
    requires EpochsUpTo(c, o.record.epochID)
    requires c.active.Some? ==> Sustains(o.record, c.leases[c.active.value])
    ensures ClientOk(fleet, w, i, Install(c, o)) && Interferes(c, Install(c, o))
  {
    var c' := Install(c, o);
    forall m | 0 <= m < |c'.leases| ensures LeaseOk(fleet, w.log, i, c'.leases[m]) {
      assert LeaseOk(fleet, w.log, i, c.leases[m]);
    }
    forall x | x in w.sent ensures MutationSentOk(i, c', x) {
      assert MutationSentOk(i, c, x);
    }
  }

  lemma ConfirmAcquisitionKeeps(fleet: Fleet, w: World, i: nat, c: Client, p: Proposal, v: Version, now: Time,
                                canceled: bool)
    requires FleetOk(fleet) && i < |fleet.configs| && WorldOk(fleet, w) && ClientOk(fleet, w, i, c)
    requires AcquisitionOk(fleet, w, i, c, p) && CommittedAt(w.log, i, p, v)
    ensures var c' := ConfirmAcquisition(c, p, v, now, canceled).0;
            && ClientOk(fleet, w, i, c')
            && (c'.generation > c.generation || c' == c)
  {
    var (c', r) := ConfirmAcquisition(c, p, v, now, canceled);
    if r.Ok? {
      var n := |c.leases|;
      var o := c'.observed.value;
      assert ObservedOk(fleet, w.log, i, o) by {
        assert EntryOk(fleet, w.log, v);
      }
      assert Backed(fleet, w.log, i, c'.leases[n], v) by {
        CommitTerms(fleet, w.log, v);
      }
      InstallKeeps(fleet, w, i, c, o);
      GrantKeeps(fleet, w, i, Install(c, o), c'.leases[n], v);
    }
  }

  /** A lease backed by a commit of a fresh epoch joins the retired ones. */
  lemma GrantKeeps(fleet: Fleet, w: World, i: nat, c: Client, lease: LeaseState, v: Version)
    requires FleetOk(fleet) && i < |fleet.configs| && ClientOk(fleet, w, i, c) && Free(c)
    requires lease.retired.None? && RetirementOk(lease) && Backed(fleet, w.log, i, lease, v)
    requires c.observed.Some? && StillOwned(c.observed.value.record, lease) && EpochsUpTo(c, lease.epochID - 1)
    ensures ClientOk(fleet, w, i, c.(active := Some(|c.leases|), leases := c.leases + [lease]))
  {
    var c' := c.(active := Some(|c.leases|), leases := c.leases + [lease]);
    assert LeasesOk(fleet, w.log, i, c') by {
      forall m | 0 <= m < |c'.leases| ensures LeaseOk(fleet, w.log, i, c'.leases[m]) {
        if m < |c.leases| { assert LeaseOk(fleet, w.log, i, c.leases[m]); }
      }
    }
    assert MutationsOk(w.sent, i, c') by {
      forall x | x in w.sent ensures MutationSentOk(i, c', x) {
        assert MutationSentOk(i, c, x);
      }
    }
  }

  // The confirmed renewal replaces the terms of the newest lease.
  lemma RenewedLeasesOk(fleet: Fleet, log: seq<Commit>, i: nat, c: Client, c': Client, l: nat, v: nat)
    requires FleetOk(fleet) && i < |fleet.configs| && LeasesOk(fleet, log, i, c) && l < |c.leases| == |c'.leases|
    requires c'.leases == c.leases[l := c'.leases[l]] && c'.leases[l].epochID == c.leases[l].epochID
    requires RetirementOk(c'.leases[l]) && Backed(fleet, log, i, c'.leases[l], v)
    requires c.observed.Some? && c'.observed.Some?
    requires c'.observed.value.record.epochID == c.observed.value.record.epochID
    ensures LeasesOk(fleet, log, i, c')
  {
    forall m | 0 <= m < |c'.leases| ensures LeaseOk(fleet, log, i, c'.leases[m]) {
      assert m != l ==> LeaseOk(fleet, log, i, c.leases[m]);
    }
  }

  lemma ConfirmRenewalKeeps(fleet: Fleet, w: World, i: nat, c: Client, p: Proposal, v: Version, now: Time)
    requires FleetOk(fleet) && i < |fleet.configs| && WorldOk(fleet, w) && ClientOk(fleet, w, i, c)
    requires c.pending == Some(p) && p.kind == ProposalKind.Renew && CommittedAt(w.log, i, p, v)
    ensures var c' := ConfirmRenewal(c, p, v, now).0;
            && ClientOk(fleet, w, i, c')
            && (c'.generation > c.generation || (c'.generation == c.generation && c'.observed == c.observed))
  {
    if RenewalTooLate(c, p, now) {
      ClearKeeps(fleet, w, i, c, p);
      RetireKeeps(fleet, w, i, ClearPending(c, p), p.acquired, LeaseExpired);
    } else {
      RenewalConfirmed(fleet, w, i, c, p, v, now);
    }
  }

  lemma RenewalConfirmed(fleet: Fleet, w: World, i: nat, c: Client, p: Proposal, v: Version, now: Time)
    requires FleetOk(fleet) && i < |fleet.configs| && WorldOk(fleet, w) && ClientOk(fleet, w, i, c)
    requires c.pending == Some(p) && p.kind == ProposalKind.Renew && CommittedAt(w.log, i, p, v)
    requires !RenewalTooLate(c, p, now)
    ensures ClientOk(fleet, w, i, ConfirmRenewal(c, p, v, now).0)
  {
    var c' := ConfirmRenewal(c, p, v, now).0;
    var l := p.acquired;
    assert EntryOk(fleet, w.log, v);
    assert MutationsOk(w.sent, i, c') by {
      forall x | x in w.sent ensures MutationSentOk(i, c', x) {
        assert MutationSentOk(i, c, x);
      }
    }
    assert Backed(fleet, w.log, i, c'.leases[l], v) by {
      RenewalBacks(fleet, w.log, i, c.leases[l], p, v);
    }
    assert RetirementOk(c'.leases[l]) by {
      assert LeaseOk(fleet, w.log, i, c.leases[l]);
    }
    RenewedLeasesOk(fleet, w.log, i, c, c', l, v);
  }

  // A committed renewal shows the lease one sequence later.
  lemma RenewalBacks(fleet: Fleet, log: seq<Commit>, i: nat, lease: LeaseState, p: Proposal, v: Version)
    requires FleetOk(fleet) && i < |fleet.configs| && LogOk(fleet, log) && LeaseOk(fleet, log, i, lease)
    requires WriteOk(fleet, log, i, p) && p.kind == ProposalKind.Renew && CommittedAt(log, i, p, v)
    requires p.record.epochID == lease.epochID && p.record.sequenceID == lease.sequenceID + 1
    ensures Backed(fleet, log, i,
                   lease.(sequenceID := p.record.sequenceID,
                          validUntil := p.firstSendAt + fleet.configs[i].renewDeadline,
                          timer := Some(p.firstSendAt + fleet.configs[i].renewDeadline)), v)
  {
    var b :| Backed(fleet, log, i, lease, b);
    CommitsUnique(fleet, log, b, p.expected.value);
  }

  lemma ConfirmReleaseKeeps(fleet: Fleet, w: World, i: nat, c: Client, p: Proposal, v: Version)
    requires FleetOk(fleet) && i < |fleet.configs| && WorldOk(fleet, w) && ClientOk(fleet, w, i, c)
    requires c.pending == Some(p) && p.kind == ProposalKind.Release && CommittedAt(w.log, i, p, v)
    ensures ClientOk(fleet, w, i, ConfirmRelease(c, p, v).0)
    ensures ConfirmRelease(c, p, v).0.generation > c.generation
  {
    var o := Observed(p.record, v, p.firstSendAt, LastReadAt(c));
    ReleasedIsNewest(fleet, w, i, c, p);
    ClearKeeps(fleet, w, i, c, p);
    assert EntryOk(fleet, w.log, v);
    InstallKeeps(fleet, w, i, ClearPending(c, p), o);
  }

  lemma ReleasedIsNewest(fleet: Fleet, w: World, i: nat, c: Client, p: Proposal)
    requires FleetOk(fleet) && i < |fleet.configs| && WellFormed(c) && ActiveOk(c) && LeasesOk(fleet, w.log, i, c)
    requires FrozenOk(fleet, w, i, c, p) && p.kind == ProposalKind.Release
    ensures c.active.None? && EpochsUpTo(ClearPending(c, p), p.record.epochID)
  {
  }

  /** A record read back that equals the pending one was committed by the pending proposal itself. */
  lemma ReadbackIsOwn(fleet: Fleet, w: World, i: nat, p: Proposal, k: Version)
    requires FleetOk(fleet) && WorldOk(fleet, w) && WriteOk(fleet, w.log, i, p) && Sole(w.sent, i, p)
    requires p.kind != ProposalKind.Acquire && k < |w.log| && Rec(w.log, k) == p.record
    ensures CommittedAt(w.log, i, p, k)
  {
    assert p.expected.Some?;
    var base := p.expected.value;
    CommitsAccepted(fleet, w.log, base);
    EpochHasOneOwner(fleet, w.log, base, k);
    CommitTerms(fleet, w.log, k);
    AdvertisedExceedsDeadline(fleet.configs[i]);
    assert w.log[k].proposal.kind == p.kind by {
      CommitTerms(fleet, w.log, base);
    }
    assert CommitOk(w, k);
  }
}
