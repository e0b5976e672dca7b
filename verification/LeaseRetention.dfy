/**
 How long a frozen renewal stays pending. The design has a different proposal wait until the outcome of the last one is
 known or local authority ended; the code drops a renewal on some errors of its request, and then that rule is broken. A
 definite error is taken to say nothing about the write it answers.
 */
module LeaseRetention {
  import opened Basics
  import opened LeaseRecords
  import opened LeaseClient
  import opened LeaseSystem
  import opened LeaseLog
  import opened LeaseInvariant
  import opened LeasePreservation
  import opened LeaseSteps
  import opened LeaseHistory
  import opened LeaseTheorems

  // The request of renewal q is refused before its phase ends, or answered by an error that is neither an unknown outcome
  // nor a conflict.
  predicate DropsIt(p: Process, e: Event, q: Proposal) {
    || (e.RefusePending? && p.phase == PendingReady(q) && e.checkedAt < PhaseEnd(p.client.config, q))
    || (e == PendingReply(OtherFailure) && p.phase == PendingSent(q))
  }

  // The client learns that q was committed.
  predicate ConfirmsIt(p: Process, e: Event, q: Proposal) {
    e.ConfirmPending? && p.phase.PendingReplied? && p.phase.proposal == q
  }

  predicate DropsRenewal(s: System, step: Step, i: nat, q: Proposal) {
    i < |s.procs| && step.Local? && step.process == i && DropsIt(s.procs[i], step.event, q)
  }

  predicate ConfirmsRenewal(s: System, step: Step, i: nat, q: Proposal) {
    i < |s.procs| && step.Local? && step.process == i && ConfirmsIt(s.procs[i], step.event, q)
  }

  // A request for q is under way and would be accepted if it arrived now.
  predicate OutcomeOpen(s: System, i: nat, q: Proposal) {
    Write(i, q) in s.sent && q.expected == CurrentVersion(s.log)
  }

  // The lease that q renews is not retired.
  predicate StillLive(c: Client, q: Proposal) {
    q.acquired < |c.leases| && c.leases[q.acquired].retired.None?
  }

  predicate Pends(c: Client, q: Proposal) {
    c.pending == Some(q) && q.kind == ProposalKind.Renew && StillLive(c, q)
  }

  // The pending renewal stays, unless its lease is retired.
  predicate Stays(c: Client, q: Proposal) {
    StillLive(c, q) ==> c.pending == Some(q)
  }

  lemma ReadingStays(fleet: Fleet, w: World, i: nat, p: Process, e: Event, p': Process, q: Proposal)
    requires i < |fleet.offsets| && WellFormed(p.client) && Pends(p.client, q)
    requires ObservationNext(fleet, w, i, p, e, p')
    ensures Stays(p'.client, q)
  {
  }

  lemma AcquiringStays(fleet: Fleet, w: World, i: nat, p: Process, e: Event, p': Process, q: Proposal)
    requires FleetOk(fleet) && i < |fleet.configs| && ProcessOk(fleet, w, i, p) && Pends(p.client, q)
    requires p.client.config.leaseDuration > 0 && AcquisitionNext(fleet, w, i, p, e, p')
    ensures Stays(p'.client, q)
  {
  }

  lemma FreezingStays(fleet: Fleet, w: World, i: nat, p: Process, e: Event, p': Process, q: Proposal)
    requires FleetOk(fleet) && i < |fleet.configs| && ProcessOk(fleet, w, i, p) && Pends(p.client, q)
    requires FreezeNext(fleet, w, i, p, e, p')
    ensures Stays(p'.client, q)
  {
  }

  lemma ResolvingEnds(fleet: Fleet, w: World, i: nat, p: Process, e: Event, p': Process, q: Proposal)
    requires FleetOk(fleet) && i < |fleet.configs| && ProcessOk(fleet, w, i, p) && Pends(p.client, q)
    requires ResolutionNext(fleet, w, i, p, e, p')
    ensures StillLive(p'.client, q) ==> (p'.client.pending != Some(q) <==> DropsIt(p, e, q) || ConfirmsIt(p, e, q))
    ensures DropsIt(p, e, q) ==> StillLive(p'.client, q)
  {
  }

  lemma EventEnds(fleet: Fleet, w: World, i: nat, p: Process, e: Event, p': Process, q: Proposal)
    requires FleetOk(fleet) && i < |fleet.configs| && ProcessOk(fleet, w, i, p) && Pends(p.client, q)
    requires LocalNext(fleet, w, i, p, e, p')
    ensures StillLive(p'.client, q) ==> (p'.client.pending != Some(q) <==> DropsIt(p, e, q) || ConfirmsIt(p, e, q))
    ensures DropsIt(p, e, q) ==> StillLive(p'.client, q)
  {
    if ObservationNext(fleet, w, i, p, e, p') {
      ReadingStays(fleet, w, i, p, e, p', q);
    } else if AcquisitionNext(fleet, w, i, p, e, p') {
      AcquiringStays(fleet, w, i, p, e, p', q);
    } else if FreezeNext(fleet, w, i, p, e, p') {
      FreezingStays(fleet, w, i, p, e, p', q);
    } else if ResolutionNext(fleet, w, i, p, e, p') {
      ResolvingEnds(fleet, w, i, p, e, p', q);
    }
  }

  /**
   While its lease lives, a step makes a pending renewal not pending any more if and only if it confirms or drops it. A
   drop leaves the lease alive, and a renewal that may still commit is not confirmed: its outcome is open, its lease lives,
   and it stops being pending exactly if it is dropped.
   */
  lemma PendingEnds(fleet: Fleet, s: System, step: Step, s': System, i: nat, q: Proposal)
    requires SystemOk(fleet, s) && Next(fleet, s, step, s') && i < |s.procs| == |s'.procs|
    requires Pends(s.procs[i].client, q)
    ensures StillLive(s'.procs[i].client, q) ==>
              (s'.procs[i].client.pending != Some(q) <==> DropsRenewal(s, step, i, q) || ConfirmsRenewal(s, step, i, q))
    ensures DropsRenewal(s, step, i, q) ==> StillLive(s'.procs[i].client, q)
    ensures OutcomeOpen(s, i, q) ==>
              (s'.procs[i].client.pending != Some(q) && StillLive(s'.procs[i].client, q) <==> DropsRenewal(s, step, i, q))
  {
    if step.Local? && step.process == i {
      EventEnds(fleet, WorldOf(s), i, s.procs[i], step.event, s'.procs[i], q);
      if ConfirmsRenewal(s, step, i, q) { ConfirmedIsCommitted(fleet, s, step, i, q); }
    }
  }

  lemma ConfirmedIsCommitted(fleet: Fleet, s: System, step: Step, i: nat, q: Proposal)
    requires SystemOk(fleet, s) && ConfirmsRenewal(s, step, i, q)
    ensures exists v :: CommittedAt(s.log, i, q, v)
    ensures !OutcomeOpen(s, i, q)
  {
    var v := s.procs[i].phase.version;
    assert ProcessOk(fleet, WorldOf(s), i, s.procs[i]);
    assert CommittedAt(s.log, i, q, v);
    assert EntryOk(fleet, s.log, v);
  }

  // Renewal q was sent and is over: it is not pending, and nothing is about to make it pending again.
  predicate Gone(s: System, i: nat, q: Proposal) {
    && i < |s.procs|
    && q.kind == ProposalKind.Renew
    && Write(i, q) in s.sent
    && s.procs[i].client.pending != Some(q)
    && s.procs[i].phase != RenewBuilt(q)
  }

  // Nothing new is pending or built.
  predicate NothingNew(p: Process, p': Process) {
    && (p'.client.pending.Some? ==> p'.client.pending == p.client.pending)
    && (p'.phase.RenewBuilt? ==> p'.phase == p.phase)
  }

  lemma ReadingBuildsNothing(fleet: Fleet, w: World, i: nat, p: Process, e: Event, p': Process)
    requires i < |fleet.offsets| && WellFormed(p.client) && ObservationNext(fleet, w, i, p, e, p')
    ensures NothingNew(p, p')
  {
  }

  lemma ResolvingBuildsNothing(fleet: Fleet, w: World, i: nat, p: Process, e: Event, p': Process)
    requires i < |fleet.offsets| && WellFormed(p.client) && ResolutionNext(fleet, w, i, p, e, p')
    ensures NothingNew(p, p')
  {
  }

  lemma AcquiringBuildsNothing(fleet: Fleet, w: World, i: nat, p: Process, e: Event, p': Process)
    requires i < |fleet.offsets| && WellFormed(p.client) && p.client.config.leaseDuration > 0
    requires AcquisitionNext(fleet, w, i, p, e, p')
    ensures NothingNew(p, p')
  {
  }

  lemma OthersBuildNothing(fleet: Fleet, w: World, i: nat, p: Process, e: Event, p': Process)
    requires i < |fleet.offsets|
    requires SendNext(p, e, p') || ExpiryNext(Clock(fleet, i, w.now), p, e, p')
    ensures NothingNew(p, p')
  {
  }

  // Freezing makes nothing pending but what was built.
  lemma FreezingPends(fleet: Fleet, w: World, i: nat, p: Process, e: Event, p': Process)
    requires i < |fleet.offsets| && WellFormed(p.client) && FreezeNext(fleet, w, i, p, e, p')
    ensures p'.client.pending.Some? ==>
              || p'.client.pending == p.client.pending
              || (p.phase.RenewBuilt? && p'.client.pending == Some(p.phase.proposal))
              || (p.phase.ReleaseBuilt? && p'.client.pending == Some(p.phase.proposal))
  {
  }

  // A sent renewal is not built again: the record it carries is taken.
  lemma FreezingBuilds(fleet: Fleet, w: World, i: nat, p: Process, e: Event, p': Process, q: Proposal)
    requires i < |fleet.offsets| && WellFormed(p.client) && FreezeNext(fleet, w, i, p, e, p')
    requires q.kind == ProposalKind.Renew && Write(i, q) in w.sent && p.phase != RenewBuilt(q)
    ensures p'.phase != RenewBuilt(q)
  {
  }

  lemma FreezingStaysGone(fleet: Fleet, w: World, i: nat, p: Process, e: Event, p': Process, q: Proposal)
    requires FleetOk(fleet) && i < |fleet.configs| && ProcessOk(fleet, w, i, p) && FreezeNext(fleet, w, i, p, e, p')
    requires q.kind == ProposalKind.Renew && Write(i, q) in w.sent
    requires p.client.pending != Some(q) && p.phase != RenewBuilt(q)
    ensures p'.client.pending != Some(q) && p'.phase != RenewBuilt(q)
  {
    FreezingPends(fleet, w, i, p, e, p');
    FreezingBuilds(fleet, w, i, p, e, p', q);
  }

  lemma EventStaysGone(fleet: Fleet, w: World, i: nat, p: Process, e: Event, p': Process, q: Proposal)
    requires FleetOk(fleet) && i < |fleet.configs| && ProcessOk(fleet, w, i, p) && LocalNext(fleet, w, i, p, e, p')
    requires q.kind == ProposalKind.Renew && Write(i, q) in w.sent
    requires p.client.pending != Some(q) && p.phase != RenewBuilt(q)
    ensures p'.client.pending != Some(q) && p'.phase != RenewBuilt(q)
  {
    if ObservationNext(fleet, w, i, p, e, p') {
      ReadingBuildsNothing(fleet, w, i, p, e, p');
    } else if AcquisitionNext(fleet, w, i, p, e, p') {
      AcquiringBuildsNothing(fleet, w, i, p, e, p');
    } else if FreezeNext(fleet, w, i, p, e, p') {
      FreezingStaysGone(fleet, w, i, p, e, p', q);
    } else if ResolutionNext(fleet, w, i, p, e, p') {
      ResolvingBuildsNothing(fleet, w, i, p, e, p');
    } else {
      OthersBuildNothing(fleet, w, i, p, e, p');
    }
  }

  lemma StaysGone(fleet: Fleet, run: seq<System>, steps: seq<Step>, k: nat, i: nat, q: Proposal)
    requires IsRun(fleet, run, steps) && k < |steps| && Gone(run[k], i, q)
    ensures Gone(run[k + 1], i, q)
  {
    RunKeeps(fleet, run, steps, k);
    assert StepAt(fleet, run, steps, k);
    if steps[k].Local? && steps[k].process == i {
      EventStaysGone(fleet, WorldOf(run[k]), i, run[k].procs[i], steps[k].event, run[k + 1].procs[i], q);
    }
  }

  lemma {:induction false} GoneForGood(fleet: Fleet, run: seq<System>, steps: seq<Step>, a: nat, b: nat, i: nat, q: Proposal)
    requires IsRun(fleet, run, steps) && a <= b < |run| && Gone(run[a], i, q)
    ensures Gone(run[b], i, q)
    decreases b
  {
    if a < b {
      GoneForGood(fleet, run, steps, a, b - 1, i, q);
      StaysGone(fleet, run, steps, b - 1, i, q);
    }
  }

  lemma EndedInPhase(fleet: Fleet, w: World, i: nat, p: Process, e: Event, p': Process, q: Proposal)
    requires FleetOk(fleet) && i < |fleet.configs| && ProcessOk(fleet, w, i, p) && ResolutionNext(fleet, w, i, p, e, p')
    requires DropsIt(p, e, q) || ConfirmsIt(p, e, q)
    ensures p'.client.pending.None? && p'.phase == Idle && p.client.pending == Some(q)
  {
  }

  // Once confirmed or dropped, a sent renewal is gone.
  lemma EndedIsGone(fleet: Fleet, run: seq<System>, steps: seq<Step>, k: nat, i: nat, q: Proposal)
    requires IsRun(fleet, run, steps) && k < |steps| && q.kind == ProposalKind.Renew
    requires i < |run[k].procs| && Write(i, q) in run[k].sent
    requires DropsRenewal(run[k], steps[k], i, q) || ConfirmsRenewal(run[k], steps[k], i, q)
    ensures Gone(run[k + 1], i, q) && run[k].procs[i].client.pending == Some(q)
  {
    RunKeeps(fleet, run, steps, k);
    assert StepAt(fleet, run, steps, k);
    OnlyResolution(fleet, WorldOf(run[k]), i, run[k].procs[i], steps[k].event, run[k + 1].procs[i]);
    EndedInPhase(fleet, WorldOf(run[k]), i, run[k].procs[i], steps[k].event, run[k + 1].procs[i], q);
  }

  // The rule, and how it fails: the lease lives, the renewal is not pending any more, and it was not confirmed either.
  ghost predicate RuleBroken(run: seq<System>, steps: seq<Step>, a: nat, b: nat, i: nat, q: Proposal)
    requires a <= b < |run| && |run| == |steps| + 1 && i < |run[b].procs|
  {
    && StillLive(run[b].procs[i].client, q)
    && run[b].procs[i].client.pending != Some(q)
    && forall k :: a <= k < b ==> !ConfirmsRenewal(run[k], steps[k], i, q)
  }

  lemma {:induction false} SomethingEnds(fleet: Fleet, run: seq<System>, steps: seq<Step>, a: nat, b: nat, i: nat,
                                        q: Proposal) returns (k: nat)
    requires IsRun(fleet, run, steps) && a <= b < |run| && i < |run[a].procs| && i < |run[b].procs|
    requires Pends(run[a].procs[i].client, q)
    requires StillLive(run[b].procs[i].client, q) && run[b].procs[i].client.pending != Some(q)
    ensures a <= k < b && (DropsRenewal(run[k], steps[k], i, q) || ConfirmsRenewal(run[k], steps[k], i, q))
    decreases b
  {
    k := b - 1;
    LeasePersists(fleet, run, steps, a, b, i, q.acquired);
    if a < k { LeasePersists(fleet, run, steps, a, k, i, q.acquired); }
    RunStepPersists(fleet, run, steps, k, i, q.acquired);
    if run[k].procs[i].client.pending == Some(q) {
      RunKeeps(fleet, run, steps, k);
      assert StepAt(fleet, run, steps, k);
      PendingEnds(fleet, run[k], steps[k], run[k + 1], i, q);
    } else {
      k := SomethingEnds(fleet, run, steps, a, k, i, q);
    }
  }

  /**
   Over any stretch of any run that begins with a sent renewal pending: if its lease still lives at the end, the rule was
   broken if and only if some step of the stretch dropped the renewal.
   */
  lemma RuleBreaksByDropping(fleet: Fleet, run: seq<System>, steps: seq<Step>, a: nat, b: nat, i: nat, q: Proposal)
    requires IsRun(fleet, run, steps) && a <= b < |run| && i < |run[a].procs| && i < |run[b].procs|
    requires Pends(run[a].procs[i].client, q) && Write(i, q) in run[a].sent
    requires StillLive(run[b].procs[i].client, q)
    ensures RuleBroken(run, steps, a, b, i, q) <==> exists k :: a <= k < b && DropsRenewal(run[k], steps[k], i, q)
  {
    if RuleBroken(run, steps, a, b, i, q) {
      var k := SomethingEnds(fleet, run, steps, a, b, i, q);
      assert DropsRenewal(run[k], steps[k], i, q);
    }
    if d :| a <= d < b && DropsRenewal(run[d], steps[d], i, q) {
      HistoryGrows(fleet, run, steps, a, d);
      EndedIsGone(fleet, run, steps, d, i, q);
      GoneForGood(fleet, run, steps, d + 1, b, i, q);
      forall k | a <= k < b ensures !ConfirmsRenewal(run[k], steps[k], i, q) {
        if ConfirmsRenewal(run[k], steps[k], i, q) {
          HistoryGrows(fleet, run, steps, a, k);
          EndedIsGone(fleet, run, steps, k, i, q);
          if k < d { GoneForGood(fleet, run, steps, k + 1, d, i, q); }
          if d < k { GoneForGood(fleet, run, steps, d + 1, k, i, q); }
        }
      }
    }
  }

  /** In particular, with the outcome still open at the end, another proposal can be pending if and only if it was dropped. */
  lemma OpenRenewalWasDropped(fleet: Fleet, run: seq<System>, steps: seq<Step>, a: nat, b: nat, i: nat, q: Proposal)
    requires IsRun(fleet, run, steps) && a <= b < |run| && i < |run[a].procs| && i < |run[b].procs|
    requires Pends(run[a].procs[i].client, q) && Write(i, q) in run[a].sent
    requires StillLive(run[b].procs[i].client, q) && OutcomeOpen(run[b], i, q)
    ensures run[b].procs[i].client.pending != Some(q) <==> exists k :: a <= k < b && DropsRenewal(run[k], steps[k], i, q)
  {
    RuleBreaksByDropping(fleet, run, steps, a, b, i, q);
    OpenIsUncommitted(fleet, run, steps, b, i, q);
    forall k | a <= k < b ensures !ConfirmsRenewal(run[k], steps[k], i, q) {
      if ConfirmsRenewal(run[k], steps[k], i, q) {
        RunKeeps(fleet, run, steps, k);
        ConfirmedIsCommitted(fleet, run[k], steps[k], i, q);
        HistoryGrows(fleet, run, steps, k, b);
      }
    }
  }

  lemma OpenIsUncommitted(fleet: Fleet, run: seq<System>, steps: seq<Step>, b: nat, i: nat, q: Proposal)
    requires IsRun(fleet, run, steps) && b < |run| && OutcomeOpen(run[b], i, q)
    ensures forall v :: 0 <= v < |run[b].log| ==> run[b].log[v].proposal != q
  {
    RunKeeps(fleet, run, steps, b);
    forall v | 0 <= v < |run[b].log| ensures run[b].log[v].proposal != q {
      assert EntryOk(fleet, run[b].log, v);
    }
  }

  lemma {:induction false} HistoryGrows(fleet: Fleet, run: seq<System>, steps: seq<Step>, a: nat, b: nat)
    requires IsRun(fleet, run, steps) && a <= b < |run|
    ensures run[a].sent <= run[b].sent && run[a].log <= run[b].log
    decreases b
  {
    if a < b {
      HistoryGrows(fleet, run, steps, a, b - 1);
      assert StepAt(fleet, run, steps, b - 1);
    }
  }
}
