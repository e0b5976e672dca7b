/**
 Why leases retire. Before its deadline a lease is retired by its own release, or because a renewal that its client had
 dropped was committed after all; a renewal that is still pending never costs the lease it renews.
 */
module LeaseCauses {
  import opened Basics
  import opened LeaseRecords
  import opened LeaseClient
  import opened LeaseSystem
  import opened LeaseLog
  import opened LeaseInvariant
  import opened LeasePreservation
  import opened LeaseSteps
  import opened LeaseHistory
  import opened LeaseTheorems
  import opened LeaseAnswers
  import opened LeaseOutcomes

  // What a pending renewal replaces ---------------------------------------------------------------------------------------

  predicate NotBefore(q: Proposal, o: Observed) {
    q.kind == ProposalKind.Renew ==> q.expected.Some? && q.expected.value <= o.version
  }

  // A client that has a renewal pending observes the version it replaces or a later one, and so does its reconciliation.
  predicate ReadsForward(p: Process) {
    && (p.client.pending.Some? && p.client.pending.value.kind == ProposalKind.Renew ==>
          p.client.observed.Some? && NotBefore(p.client.pending.value, p.client.observed.value))
    && (p.phase.ReconcileRead? ==> NotBefore(p.phase.proposal, p.phase.current))
  }

  lemma FinishReadsForward(fleet: Fleet, w: World, i: nat, p: Process, r: nat, readAt: Time, p': Process)
    requires FleetOk(fleet) && i < |fleet.configs| && WorldOk(fleet, w) && ProcessOk(fleet, w, i, p) && ReadsForward(p)
    requires FinishReadingStep(fleet, i, Clock(fleet, i, w.now), p, r, readAt, p')
    ensures ReadsForward(p')
  {
    ReadingInstalls(fleet, w, i, p, r, readAt, p');
    ReadingMovesForward(fleet, w, i, p, r, readAt, p');
  }

  // A finished read leaves what is pending, and does not observe an earlier version.
  lemma ReadingMovesForward(fleet: Fleet, w: World, i: nat, p: Process, r: nat, readAt: Time, p': Process)
    requires FleetOk(fleet) && i < |fleet.configs| && ProcessOk(fleet, w, i, p)
    requires FinishReadingStep(fleet, i, Clock(fleet, i, w.now), p, r, readAt, p') && Installs(w.log, p, r, readAt, p')
    ensures p'.client.pending == p.client.pending
    ensures p.client.observed.Some? ==>
              p'.client.observed.Some? && p.client.observed.value.version <= p'.client.observed.value.version
  {
    assert ReadOk(w, p.client, p.readOps[r]);
  }

  lemma FreezingReadsForward(fleet: Fleet, w: World, i: nat, p: Process, e: Event, p': Process)
    requires FleetOk(fleet) && i < |fleet.configs| && WorldOk(fleet, w) && ProcessOk(fleet, w, i, p) && ReadsForward(p)
    requires FreezeNext(fleet, w, i, p, e, p')
    ensures ReadsForward(p')
  {
    if e.FreezeRenewal? {
      RenewalReadsForward(fleet, w, i, p, p');
    } else {
      OtherFreezingReadsForward(fleet, w, i, p, e, p');
    }
  }

  lemma RenewalReadsForward(fleet: Fleet, w: World, i: nat, p: Process, p': Process)
    requires FleetOk(fleet) && i < |fleet.configs| && WorldOk(fleet, w) && ProcessOk(fleet, w, i, p) && ReadsForward(p)
    requires FreezeRenewalStep(Clock(fleet, i, w.now), p, p')
    ensures ReadsForward(p')
  {
    ValidatedExactly(fleet, w, i, p.client, p.phase.proposal.acquired, Clock(fleet, i, w.now));
    RenewalReplacesBacking(fleet, w, i, p.client, p.phase.proposal);
  }

  lemma OtherFreezingReadsForward(fleet: Fleet, w: World, i: nat, p: Process, e: Event, p': Process)
    requires i < |fleet.offsets| && WellFormed(p.client) && ReadsForward(p)
    requires p.phase.ReleaseBuilt? ==> p.phase.proposal.kind == ProposalKind.Release
    requires FreezeNext(fleet, w, i, p, e, p') && !e.FreezeRenewal?
    ensures ReadsForward(p')
  {
  }

  /** A frozen renewal replaces the very commit that backs its lease. */
  lemma RenewalReplacesBacking(fleet: Fleet, w: World, i: nat, c: Client, q: Proposal)
    requires FleetOk(fleet) && i < |fleet.configs| && WorldOk(fleet, w) && ClientOk(fleet, w, i, c)
    requires FrozenOk(fleet, w, i, c, q) && q.kind == ProposalKind.Renew && q.acquired < |c.leases|
    ensures q.expected.Some? && forall b: nat :: Backed(fleet, w.log, i, c.leases[q.acquired], b) ==> q.expected == Some(b)
  {
    forall b: nat | Backed(fleet, w.log, i, c.leases[q.acquired], b) ensures q.expected == Some(b) {
      CommitsUnique(fleet, w.log, b, q.expected.value);
    }
  }

  lemma OthersReadForward(fleet: Fleet, w: World, i: nat, p: Process, e: Event, p': Process)
    requires i < |fleet.offsets| && WellFormed(p.client) && ReadsForward(p)
    requires || SendNext(p, e, p')
             || ExpiryNext(Clock(fleet, i, w.now), p, e, p')
             || (!e.FinishReading? && ObservationNext(fleet, w, i, p, e, p'))
    ensures ReadsForward(p')
  {
  }

  lemma AcquiringReadsForward(fleet: Fleet, w: World, i: nat, p: Process, e: Event, p': Process)
    requires i < |fleet.offsets| && WellFormed(p.client) && ReadsForward(p)
    requires p.phase.AcquireReplied? ==> p.client.pending.None?
    requires p.client.config.leaseDuration > 0 && AcquisitionNext(fleet, w, i, p, e, p')
    ensures ReadsForward(p')
  {
  }

  lemma ResolvingReadsForward(fleet: Fleet, w: World, i: nat, p: Process, e: Event, p': Process)
    requires i < |fleet.offsets| && WellFormed(p.client) && ReadsForward(p)
    requires ResolutionNext(fleet, w, i, p, e, p')
    ensures ReadsForward(p')
  {
  }

  lemma EventReadsForward(fleet: Fleet, w: World, i: nat, p: Process, e: Event, p': Process)
    requires FleetOk(fleet) && i < |fleet.configs| && WorldOk(fleet, w) && ProcessOk(fleet, w, i, p) && ReadsForward(p)
    requires LocalNext(fleet, w, i, p, e, p')
    ensures ReadsForward(p')
  {
    if e.FinishReading? {
      OnlyObservation(fleet, w, i, p, e, p');
      FinishReadsForward(fleet, w, i, p, e.read, e.readAt, p');
    } else if AcquisitionNext(fleet, w, i, p, e, p') {
      AcquiringReadsForward(fleet, w, i, p, e, p');
    } else if FreezeNext(fleet, w, i, p, e, p') {
      FreezingReadsForward(fleet, w, i, p, e, p');
    } else if ResolutionNext(fleet, w, i, p, e, p') {
      ResolvingReadsForward(fleet, w, i, p, e, p');
    } else {
      OthersReadForward(fleet, w, i, p, e, p');
    }
  }

  lemma {:induction false} RunReadsForward(fleet: Fleet, run: seq<System>, steps: seq<Step>, k: nat, i: nat)
    requires IsRun(fleet, run, steps) && k < |run| && i < |run[k].procs|
    ensures ReadsForward(run[k].procs[i])
  {
    if k > 0 {
      RunKeeps(fleet, run, steps, k - 1);
      assert StepAt(fleet, run, steps, k - 1);
      RunReadsForward(fleet, run, steps, k - 1, i);
      if steps[k - 1].Local? && steps[k - 1].process == i {
        EventReadsForward(fleet, WorldOf(run[k - 1]), i, run[k - 1].procs[i], steps[k - 1].event, run[k].procs[i]);
      }
    }
  }

  // Causes ----------------------------------------------------------------------------------------------------------------

  // The log holds a commit later than the one that backs the lease, and not of the pending proposal.
  ghost predicate Overtaken(fleet: Fleet, log: seq<Commit>, i: nat, c: Client, l: nat)
    requires FleetOk(fleet) && i < |fleet.configs| && l < |c.leases|
  {
    exists b: nat, v: nat :: OvertakenBy(fleet, log, i, c, l, b, v)
  }

  ghost predicate OvertakenBy(fleet: Fleet, log: seq<Commit>, i: nat, c: Client, l: nat, b: nat, v: nat)
    requires FleetOk(fleet) && i < |fleet.configs| && l < |c.leases|
  {
    Backed(fleet, log, i, c.leases[l], b) && b < v < |log| && !IsPending(log, i, c, v)
  }

  // Event e may retire lease l for this cause.
  ghost predicate Justified(fleet: Fleet, w: World, i: nat, p: Process, e: Event, l: nat, cause: Error)
    requires FleetOk(fleet) && i < |fleet.configs| && l < |p.client.leases|
  {
    match cause
    case LeaseExpired => Due(p.client.leases[l], Clock(fleet, i, w.now))
    case LeaseRetired => e == ValidateRelease && p.phase == ReleaseAdmitted(l)
    case OwnershipLost => Overtaken(fleet, w.log, i, p.client, l)
    case _ => false
  }

  // If lease l retires at this event, that is justified.
  ghost predicate RetiresJustly(fleet: Fleet, w: World, i: nat, p: Process, e: Event, l: nat, p': Process)
    requires FleetOk(fleet) && i < |fleet.configs| && l < |p.client.leases|
  {
    l < |p'.client.leases| && p.client.leases[l].retired.None? && p'.client.leases[l].retired.Some? ==>
      Justified(fleet, w, i, p, e, l, p'.client.leases[l].retired.value)
  }

  // An active lease whose client observes something else than the backing commit, with nothing pending, was overtaken.
  lemma RefusedIsOvertaken(fleet: Fleet, w: World, i: nat, c: Client, l: nat, now: Time)
    requires FleetOk(fleet) && i < |fleet.configs| && WorldOk(fleet, w) && ClientOk(fleet, w, i, c)
    requires l < |c.leases| && c.leases[l].retired.None? && !Due(c.leases[l], now) && c.pending.None?
    requires !Good(fleet, w.log, i, c, l, now)
    ensures Overtaken(fleet, w.log, i, c, l)
  {
    var v := c.observed.value.version;
    assert LeaseOk(fleet, w.log, i, c.leases[l]);
    var b: nat :| Backed(fleet, w.log, i, c.leases[l], b);
    NewerOrOlder(fleet, w.log, v, b);
    assert OvertakenBy(fleet, w.log, i, c, l, b, v);
  }

  lemma ReadingRetiresJustly(fleet: Fleet, w: World, i: nat, p: Process, r: nat, readAt: Time, l: nat, p': Process)
    requires FleetOk(fleet) && i < |fleet.configs| && WorldOk(fleet, w) && ProcessOk(fleet, w, i, p) && l < |p.client.leases|
    requires FinishReadingStep(fleet, i, Clock(fleet, i, w.now), p, r, readAt, p')
    ensures RetiresJustly(fleet, w, i, p, FinishReading(r, readAt), l, p')
  {
    ReadingInstalls(fleet, w, i, p, r, readAt, p');
    var reply := p.readOps[r].fetched.value.reply;
    if ReadsNow(p, r, reply) && reply.Object? && p.client.leases[l].retired.None? {
      ReadingRetires(fleet, w, i, p, r, readAt, reply.record, reply.version, p');
      assert ReadOk(w, p.client, p.readOps[r]);
      assert LeaseOk(fleet, w.log, i, p.client.leases[l]);
      var b: nat :| Backed(fleet, w.log, i, p.client.leases[l], b);
      ObservedNotBefore(fleet, w, i, p.client, l, b);
      if b < reply.version && !IsPending(w.log, i, p.client, reply.version) {
        assert OvertakenBy(fleet, w.log, i, p.client, l, b, reply.version);
      }
    }
  }

  // What the client of an active lease observes is not older than the commit that backs it.
  lemma ObservedNotBefore(fleet: Fleet, w: World, i: nat, c: Client, l: nat, b: nat)
    requires FleetOk(fleet) && i < |fleet.configs| && WorldOk(fleet, w) && ClientOk(fleet, w, i, c)
    requires c.active == Some(l) && l < |c.leases| && Backed(fleet, w.log, i, c.leases[l], b)
    ensures c.observed.value.version >= b
  {
    NewerOrOlder(fleet, w.log, b, c.observed.value.version);
  }

  lemma FreezingRetiresJustly(fleet: Fleet, w: World, i: nat, p: Process, e: Event, l: nat, p': Process)
    requires FleetOk(fleet) && i < |fleet.configs| && WorldOk(fleet, w) && ProcessOk(fleet, w, i, p) && l < |p.client.leases|
    requires FreezeNext(fleet, w, i, p, e, p')
    ensures RetiresJustly(fleet, w, i, p, e, l, p')
  {
    var now := Clock(fleet, i, w.now);
    var m := match p.phase case RenewAdmitted(x) => x case ReleaseAdmitted(x) => x case RenewBuilt(q) => q.acquired case _ => l;
    if m < |p.client.leases| {
      ValidatedExactly(fleet, w, i, p.client, m, now);
      if p.client.leases[m].retired.None? && !Due(p.client.leases[m], now) && p.client.pending.None?
         && !Good(fleet, w.log, i, p.client, m, now) {
        RefusedIsOvertaken(fleet, w, i, p.client, m, now);
      }
    }
  }

  lemma AcquiringRetiresJustly(fleet: Fleet, w: World, i: nat, p: Process, e: Event, l: nat, p': Process)
    requires FleetOk(fleet) && i < |fleet.configs| && WorldOk(fleet, w) && ProcessOk(fleet, w, i, p) && l < |p.client.leases|
    requires p.client.config.leaseDuration > 0 && AcquisitionNext(fleet, w, i, p, e, p')
    ensures RetiresJustly(fleet, w, i, p, e, l, p')
  {
    if e.Require? {
      RequireRetiresJustly(fleet, w, i, p, l, p');
    } else {
      GrantingRetiresNothing(fleet, w, i, p, e, l, p');
    }
  }

  lemma RequireRetiresJustly(fleet: Fleet, w: World, i: nat, p: Process, l: nat, p': Process)
    requires FleetOk(fleet) && i < |fleet.configs| && ClientOk(fleet, w, i, p.client) && l < |p.client.leases|
    requires RequireStep(Clock(fleet, i, w.now), p, p')
    ensures RetiresJustly(fleet, w, i, p, Require, l, p')
  {
    if p.client.pending.Some? && p.client.pending.value.kind == ProposalKind.Renew {
      PhaseEndsAtAuthority(fleet, w, i, p.client, p.client.pending.value);
    }
  }

  lemma GrantingRetiresNothing(fleet: Fleet, w: World, i: nat, p: Process, e: Event, l: nat, p': Process)
    requires i < |fleet.offsets| && WellFormed(p.client) && p.client.config.leaseDuration > 0 && l < |p.client.leases|
    requires AcquisitionNext(fleet, w, i, p, e, p') && !e.Require?
    ensures l < |p'.client.leases| && p'.client.leases[l] == p.client.leases[l]
  {
  }

  lemma ExpiringRetiresJustly(fleet: Fleet, w: World, i: nat, p: Process, e: Event, l: nat, p': Process)
    requires FleetOk(fleet) && i < |fleet.configs| && ProcessOk(fleet, w, i, p) && l < |p.client.leases|
    requires ExpiryNext(Clock(fleet, i, w.now), p, e, p')
    ensures RetiresJustly(fleet, w, i, p, e, l, p')
  {
  }

  lemma ReadbackRetiresJustly(fleet: Fleet, w: World, i: nat, p: Process, l: nat, p': Process)
    requires FleetOk(fleet) && i < |fleet.configs| && WorldOk(fleet, w) && ProcessOk(fleet, w, i, p) && l < |p.client.leases|
    requires ResolveStep(p, p') && ReadsForward(p)
    ensures RetiresJustly(fleet, w, i, p, ResolveReadback, l, p')
  {
    if p.client.leases[l].retired.None? && Readback(p.phase.proposal, p.phase.current).Loses? {
      LosingIsOvertaken(fleet, w, i, p.client, p.phase.proposal, p.phase.current, l);
    }
  }

  lemma ResolvingRetiresJustly(fleet: Fleet, w: World, i: nat, p: Process, e: Event, l: nat, p': Process)
    requires FleetOk(fleet) && i < |fleet.configs| && WorldOk(fleet, w) && ProcessOk(fleet, w, i, p) && l < |p.client.leases|
    requires ResolutionNext(fleet, w, i, p, e, p') && ReadsForward(p)
    ensures RetiresJustly(fleet, w, i, p, e, l, p')
  {
    if e.ResolveReadback? { ReadbackRetiresJustly(fleet, w, i, p, l, p'); } else { GivingUpRetiresJustly(fleet, w, i, p, e, l, p'); }
  }

  lemma ConfirmingRetiresJustly(fleet: Fleet, w: World, i: nat, p: Process, l: nat, p': Process)
    requires FleetOk(fleet) && i < |fleet.configs| && ClientOk(fleet, w, i, p.client) && l < |p.client.leases|
    requires p.phase.PendingReplied? ==> p.client.pending == Some(p.phase.proposal)
    requires ConfirmPendingStep(Clock(fleet, i, w.now), p, p')
    ensures RetiresJustly(fleet, w, i, p, ConfirmPending, l, p')
  {
  }

  lemma GivingUpRetiresJustly(fleet: Fleet, w: World, i: nat, p: Process, e: Event, l: nat, p': Process)
    requires FleetOk(fleet) && i < |fleet.configs| && ProcessOk(fleet, w, i, p) && l < |p.client.leases|
    requires ResolutionNext(fleet, w, i, p, e, p') && !e.ResolveReadback?
    ensures RetiresJustly(fleet, w, i, p, e, l, p')
  {
    if e.ConfirmPending? {
      ConfirmingRetiresJustly(fleet, w, i, p, l, p');
    } else if e.RefusePending? || e.ReconcileExpired? {
      ExpiringProposalRetiresJustly(fleet, w, i, p, e, l, p');
    }
  }

  lemma ExpiringProposalRetiresJustly(fleet: Fleet, w: World, i: nat, p: Process, e: Event, l: nat, p': Process)
    requires FleetOk(fleet) && i < |fleet.configs| && ClientOk(fleet, w, i, p.client) && l < |p.client.leases|
    requires p.phase.PendingReady? || p.phase.Reconciling? ==> p.client.pending == Some(p.phase.proposal)
    requires || (e.RefusePending? && RefusePendingStep(Clock(fleet, i, w.now), p, e.checkedAt, p'))
             || (e.ReconcileExpired? && ReconcileExpiredStep(Clock(fleet, i, w.now), p, p'))
    ensures RetiresJustly(fleet, w, i, p, e, l, p')
  {
    if p.client.pending.Some? && p.client.pending.value.kind == ProposalKind.Renew {
      PhaseEndsAtAuthority(fleet, w, i, p.client, p.client.pending.value);
    }
  }

  lemma LosingIsOvertaken(fleet: Fleet, w: World, i: nat, c: Client, q: Proposal, o: Observed, l: nat)
    requires FleetOk(fleet) && i < |fleet.configs| && WorldOk(fleet, w) && ClientOk(fleet, w, i, c)
    requires l < |c.leases| && c.leases[l].retired.None? && c.pending == Some(q)
    requires o.version < |w.log| && o.record == Rec(w.log, o.version) && NotBefore(q, o) && Readback(q, o).Loses?
    ensures Overtaken(fleet, w.log, i, c, l)
  {
    assert LeaseOk(fleet, w.log, i, c.leases[l]);
    var b: nat :| Backed(fleet, w.log, i, c.leases[l], b);
    RenewalReplacesBacking(fleet, w, i, c, q);
    assert OvertakenBy(fleet, w.log, i, c, l, b, o.version);
  }

  lemma EventRetiresJustly(fleet: Fleet, w: World, i: nat, p: Process, e: Event, l: nat, p': Process)
    requires FleetOk(fleet) && i < |fleet.configs| && WorldOk(fleet, w) && ProcessOk(fleet, w, i, p) && l < |p.client.leases|
    requires LocalNext(fleet, w, i, p, e, p') && ReadsForward(p)
    ensures RetiresJustly(fleet, w, i, p, e, l, p')
  {
    if e.FinishReading? {
      OnlyObservation(fleet, w, i, p, e, p');
      ReadingRetiresJustly(fleet, w, i, p, e.read, e.readAt, l, p');
    } else if AcquisitionNext(fleet, w, i, p, e, p') {
      AcquiringRetiresJustly(fleet, w, i, p, e, l, p');
    } else if FreezeNext(fleet, w, i, p, e, p') {
      FreezingRetiresJustly(fleet, w, i, p, e, l, p');
    } else if ResolutionNext(fleet, w, i, p, e, p') {
      ResolvingRetiresJustly(fleet, w, i, p, e, l, p');
    } else if ExpiryNext(Clock(fleet, i, w.now), p, e, p') {
      ExpiringRetiresJustly(fleet, w, i, p, e, l, p');
    }
  }

  /**
   Why a lease retires: because its deadline has passed, because of its own release, or because the log holds a later commit than
   the one that backs it, which is not the commit of its own pending renewal.
   */
  lemma RetiresForCause(fleet: Fleet, run: seq<System>, steps: seq<Step>, k: nat, i: nat, l: nat)
    requires IsRun(fleet, run, steps) && k < |steps| && i < |run[k].procs| == |run[k + 1].procs|
    requires l < |run[k].procs[i].client.leases| && l < |run[k + 1].procs[i].client.leases|
    requires run[k].procs[i].client.leases[l].retired.None? && run[k + 1].procs[i].client.leases[l].retired.Some?
    ensures FleetOk(fleet) && i < |fleet.configs| && steps[k].Local? && steps[k].process == i
    ensures Justified(fleet, WorldOf(run[k]), i, run[k].procs[i], steps[k].event, l,
                      run[k + 1].procs[i].client.leases[l].retired.value)
  {
    RunKeeps(fleet, run, steps, k);
    assert StepAt(fleet, run, steps, k);
    RunReadsForward(fleet, run, steps, k, i);
    EventRetiresJustly(fleet, WorldOf(run[k]), i, run[k].procs[i], steps[k].event, l, run[k + 1].procs[i]);
  }

  // In time ---------------------------------------------------------------------------------------------------------------

  /**
   While a lease has time left, whatever was committed after the commit that backs it is the next renewal of its own process.
   */
  lemma LaterIsOwnRenewal(fleet: Fleet, s: System, i: nat, l: nat, b: nat, v: nat)
    requires SystemOk(fleet, s) && i < |s.procs| && l < |s.procs[i].client.leases|
    requires s.procs[i].client.leases[l].retired.None? && Clock(fleet, i, s.now) < s.procs[i].client.leases[l].validUntil
    requires Backed(fleet, s.log, i, s.procs[i].client.leases[l], b) && b < v < |s.log|
    ensures v == b + 1 && s.log[v].owner == i && s.log[v].proposal.kind == ProposalKind.Renew
    ensures s.log[v].proposal.acquired < |s.procs[i].client.leases|
    ensures s.procs[i].client.leases[s.log[v].proposal.acquired].epochID == s.procs[i].client.leases[l].epochID
    ensures Rec(s.log, v).epochID == s.procs[i].client.leases[l].epochID
    ensures Rec(s.log, v).sequenceID == s.procs[i].client.leases[l].sequenceID + 1
  {
    var last := |s.log| - 1;
    LiveLeaseIsCurrent(fleet, s, i, l);
    CommitsOrdered(fleet, s.log, b, v);
    if v < last { CommitsOrdered(fleet, s.log, v, last); }
    NoReleaseOfLiveEpoch(fleet, s, i, l, b, v);
    EpochHasOneOwner(fleet, s.log, b, v);
    assert CommitOk(WorldOf(s), v);
    assert ProcessOk(fleet, WorldOf(s), i, s.procs[i]);
    assert MutationSentOk(i, s.procs[i].client, Write(i, s.log[v].proposal));
    SameEpochSameLease(fleet, s, i, l, s.log[v].proposal.acquired);
    if b + 1 < v {
      CommitsOrdered(fleet, s.log, b, b + 1);
      CommitsOrdered(fleet, s.log, b + 1, v);
    }
  }

  lemma SameEpochSameLease(fleet: Fleet, s: System, i: nat, l: nat, m: nat)
    requires SystemOk(fleet, s) && i < |s.procs| && l < |s.procs[i].client.leases| && m < |s.procs[i].client.leases|
    requires s.procs[i].client.leases[l].epochID == s.procs[i].client.leases[m].epochID
    ensures l == m
  {
    GrantsDistinct(fleet, s, i, l, i, m);
  }

  /**
   Before its deadline a lease retires only by its own release, or because a renewal of its own that is not pending any more was
   committed.
   */
  lemma InTimeOnlyByOwnDoing(fleet: Fleet, run: seq<System>, steps: seq<Step>, k: nat, i: nat, l: nat)
    requires IsRun(fleet, run, steps) && k < |steps| && i < |run[k].procs| == |run[k + 1].procs|
    requires l < |run[k].procs[i].client.leases| && l < |run[k + 1].procs[i].client.leases|
    requires run[k].procs[i].client.leases[l].retired.None? && run[k + 1].procs[i].client.leases[l].retired.Some?
    requires i < |fleet.offsets| && Clock(fleet, i, run[k].now) < run[k].procs[i].client.leases[l].validUntil
    ensures steps[k].Local? && steps[k].process == i
    ensures || (steps[k].event == ValidateRelease && run[k].procs[i].phase == ReleaseAdmitted(l))
            || exists v :: LandedUnasked(run[k], i, l, v)
  {
    RetiresForCause(fleet, run, steps, k, i, l);
    RunKeeps(fleet, run, steps, k);
    if run[k + 1].procs[i].client.leases[l].retired == Some(OwnershipLost) {
      var b: nat, v: nat :| OvertakenBy(fleet, run[k].log, i, run[k].procs[i].client, l, b, v);
      LaterIsOwnRenewal(fleet, run[k], i, l, b, v);
      assert LandedUnasked(run[k], i, l, v);
    }
  }

  // Commit v is the next renewal of lease l of process i, and not the pending one.
  ghost predicate LandedUnasked(s: System, i: nat, l: nat, v: nat)
    requires i < |s.procs| && l < |s.procs[i].client.leases|
  {
    && v < |s.log|
    && s.log[v].owner == i
    && s.log[v].proposal.kind == ProposalKind.Renew
    && Rec(s.log, v).epochID == s.procs[i].client.leases[l].epochID
    && Rec(s.log, v).sequenceID == s.procs[i].client.leases[l].sequenceID + 1
    && s.procs[i].client.pending != Some(s.log[v].proposal)
  }

  // Renewal q of process i is pending, was committed as version v, and its lease is alive.
  ghost predicate Awaits(s: System, i: nat, q: Proposal, v: nat) {
    && i < |s.procs|
    && s.procs[i].client.pending == Some(q)
    && q.kind == ProposalKind.Renew
    && q.acquired < |s.procs[i].client.leases|
    && s.procs[i].client.leases[q.acquired].retired.None?
    && CommittedAt(s.log, i, q, v)
  }

  lemma PendingKnowsLease(fleet: Fleet, run: seq<System>, steps: seq<Step>, k: nat, i: nat, q: Proposal)
    requires IsRun(fleet, run, steps) && k < |run| && i < |run[k].procs| && run[k].procs[i].client.pending == Some(q)
    ensures q.acquired < |run[k].procs[i].client.leases|
    ensures var lease := run[k].procs[i].client.leases[q.acquired];
            && lease.validUntil == q.authorityEnds
            && lease.epochID == q.record.epochID
            && lease.sequenceID + 1 == q.record.sequenceID
  {
    RunKeeps(fleet, run, steps, k);
    assert ProcessOk(fleet, WorldOf(run[k]), i, run[k].procs[i]);
  }

  lemma CommittedIsNotUnasked(fleet: Fleet, run: seq<System>, steps: seq<Step>, k: nat, i: nat, q: Proposal, v: nat, u: nat)
    requires IsRun(fleet, run, steps) && k < |run| && Awaits(run[k], i, q, v)
    ensures !LandedUnasked(run[k], i, q.acquired, u)
  {
    PendingKnowsLease(fleet, run, steps, k, i, q);
    RunKeeps(fleet, run, steps, k);
    if LandedUnasked(run[k], i, q.acquired, u) { CommitsUnique(fleet, run[k].log, u, v); }
  }

  lemma PendingIsNoRelease(fleet: Fleet, run: seq<System>, steps: seq<Step>, k: nat, i: nat, q: Proposal)
    requires IsRun(fleet, run, steps) && k < |run| && i < |run[k].procs| && run[k].procs[i].client.pending == Some(q)
    ensures !run[k].procs[i].phase.ReleaseAdmitted?
  {
    RunKeeps(fleet, run, steps, k);
    assert ProcessOk(fleet, WorldOf(run[k]), i, run[k].procs[i]);
  }

  lemma StepGrows(fleet: Fleet, run: seq<System>, steps: seq<Step>, k: nat)
    requires IsRun(fleet, run, steps) && k < |steps|
    ensures run[k].log <= run[k + 1].log && run[k].now <= run[k + 1].now && |run[k].procs| == |run[k + 1].procs|
  {
    assert StepAt(fleet, run, steps, k);
  }

  ghost predicate PendingAt(run: seq<System>, m: nat, i: nat, q: Proposal)
    requires m < |run|
  {
    i < |run[m].procs| && run[m].procs[i].client.pending == Some(q)
  }

  lemma AwaitingSurvivesStep(fleet: Fleet, run: seq<System>, steps: seq<Step>, k: nat, i: nat, q: Proposal, v: nat)
    requires IsRun(fleet, run, steps) && k < |steps| && Awaits(run[k], i, q, v)
    requires PendingAt(run, k + 1, i, q)
    requires i < |fleet.offsets| && Clock(fleet, i, run[k].now) < q.authorityEnds
    ensures Awaits(run[k + 1], i, q, v)
  {
    PendingKnowsLease(fleet, run, steps, k, i, q);
    PendingKnowsLease(fleet, run, steps, k + 1, i, q);
    PendingIsNoRelease(fleet, run, steps, k, i, q);
    StepGrows(fleet, run, steps, k);
    RunStepPersists(fleet, run, steps, k, i, q.acquired);
    if run[k + 1].procs[i].client.leases[q.acquired].retired.Some? {
      InTimeOnlyByOwnDoing(fleet, run, steps, k, i, q.acquired);
      var u: nat :| LandedUnasked(run[k], i, q.acquired, u);
      CommittedIsNotUnasked(fleet, run, steps, k, i, q, v, u);
    }
  }

  /**
   A renewal that was committed keeps its lease alive while it is pending: whatever is read, checked or fired before the
   deadline, the lease is not retired.
   */
  lemma {:induction false} CommittedRenewalKeepsLease(fleet: Fleet, run: seq<System>, steps: seq<Step>, a: nat, b: nat, i: nat,
                                                     q: Proposal, v: nat)
    requires IsRun(fleet, run, steps) && a <= b < |run| && Awaits(run[a], i, q, v)
    requires forall m :: a <= m <= b ==> PendingAt(run, m, i, q)
    requires i < |fleet.offsets| && Clock(fleet, i, run[b].now) < q.authorityEnds
    ensures Awaits(run[b], i, q, v)
    decreases b
  {
    if a < b {
      assert PendingAt(run, b - 1, i, q) && PendingAt(run, b, i, q);
      StepGrows(fleet, run, steps, b - 1);
      CommittedRenewalKeepsLease(fleet, run, steps, a, b - 1, i, q, v);
      AwaitingSurvivesStep(fleet, run, steps, b - 1, i, q, v);
    }
  }

  /**
   So a renewal whose reply was lost, and which is read back later, extends its lease if it is confirmed before the deadline:
   the lease passes its check until one renew deadline after the renewal's first send.
   */
  lemma ReadbackExtends(fleet: Fleet, run: seq<System>, steps: seq<Step>, a: nat, k: nat, i: nat, q: Proposal, u: Version, v: nat,
                        p: Process, p': Process)
    requires Took(fleet, run, steps, k, i, ConfirmPending, p, p') && p.phase == PendingReplied(q, u)
    requires a <= k && Awaits(run[a], i, q, v)
    requires forall m :: a <= m <= k ==> PendingAt(run, m, i, q)
    requires i < |fleet.offsets| && Clock(fleet, i, run[k].now) < run[a].procs[i].client.leases[q.acquired].validUntil
    ensures i < |fleet.configs| && q.acquired < |p'.client.leases|
    ensures Holds(fleet, run[k + 1], i, q.acquired)
    ensures p'.client.leases[q.acquired].validUntil == q.firstSendAt + fleet.configs[i].renewDeadline
  {
    assert PendingAt(run, k, i, q);
    PendingKnowsLease(fleet, run, steps, a, i, q);
    PendingKnowsLease(fleet, run, steps, k, i, q);
    CommittedRenewalKeepsLease(fleet, run, steps, a, k, i, q, v);
    RenewalExtends(fleet, run, steps, k, i, q, u, p, p');
  }
}
