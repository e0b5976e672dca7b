/**
 What a holder may conclude when a Renew reports that its lease is lost, or when the lease's done channel closes: no check of
 that lease passes any more. The recipes rely on this when they decide whether to release.
 */
module LeaseLoss {
  import opened Basics
  import opened LeaseRecords
  import opened LeaseClient
  import opened LeaseSystem
  import opened LeaseInvariant
  import opened LeaseSteps
  import opened LeaseHistory
  import opened LeaseTheorems
  import Lifecycle

  // The lease that a Renew in progress is about, once it was admitted.
  function Subject(phase: Phase): Option<nat> {
    match phase
    case RenewAdmitted(l) => Some(l)
    case RenewBegun(l, _) => Some(l)
    case RenewBuilt(q) => Some(q.acquired)
    case PendingReady(q) => OfRenewal(q)
    case PendingSent(q) => OfRenewal(q)
    case PendingReplied(q, _) => OfRenewal(q)
    case Reconciling(q, _) => OfRenewal(q)
    case ReconcileReading(q, _, _) => OfRenewal(q)
    case ReconcileRead(q, _, _) => OfRenewal(q)
    case _ => None
  }

  function OfRenewal(q: Proposal): Option<nat> {
    if q.kind == ProposalKind.Renew then Some(q.acquired) else None
  }

  function ErrorOf<T>(r: Result<T, Error>): Option<Error> {
    if r.Err? then Some(r.error) else None
  }

  // The error with which event e ends the Renew of lease l, if it does; `other` stands for an error of the store or of the
  // caller's context.
  function RenewError(p: Process, e: Event, l: nat, now: Time, other: Error): Option<Error>
    requires WellFormed(p.client) && l < |p.client.leases|
  {
    match (e, p.phase)
    case (Renew(_), Idle) => ErrorOf(PendingFor(p.client, l, ProposalKind.Renew))
    case (ValidateRenewal, RenewAdmitted(_)) => ValidateActive(p.client, l, now).1
    case (BuildRenewal(wall), RenewBegun(_, snapshot)) => ErrorOf(RenewalProposal(p.frozen, l, snapshot, wall, now))
    case (FreezeRenewal, RenewBuilt(q)) => ValidateActive(p.client, l, now).1
    case (RefusePending(checkedAt), PendingReady(q)) =>
      Some(if checkedAt >= PhaseEnd(p.client.config, q) then LeaseExpired else other)
    case (PendingReply(OutcomeUnknown), PendingSent(q)) => Some(UnknownOutcome)
    case (PendingReply(OtherFailure), PendingSent(q)) => Some(other)
    case (ConfirmPending, PendingReplied(q, v)) =>
      if q.acquired == l then ConfirmRenewal(p.client, q, v, now).1 else None
    case (ReconcileExpired, Reconciling(q, _)) => Some(LeaseExpired)
    case (FinishReading(r, readAt), ReconcileReading(q, read, _)) =>
      if r == read && r < |p.readOps| && p.readOps[r].fetched.Some? && p.readOps[r].startGen <= p.client.generation then
        match FinishRead(p.client, p.readOps[r].startGen, p.readOps[r].fetched.value.reply, readAt).1
        case Ok(_) => None
        case Err(error) => Some(if p.readOps[r].fetched.value.reply.Failed? then other else error)
      else None
    case (ResolveReadback, ReconcileRead(q, current, afterConflict)) =>
      (match Readback(q, current)
       case Confirms(_) => None
       case Loses => Some(OwnershipLost)
       case Unresolved => if afterConflict then Some(UnknownOutcome) else None)
    case (Abort, Reconciling(_, _)) => Some(other)
    case (Abort, RenewBegun(_, _)) => Some(other)
    case _ => None
  }

  // Event e ends a Renew of lease l with the report that the lease is lost.
  predicate ReportsLoss(p: Process, e: Event, l: nat, now: Time, other: Error)
    requires WellFormed(p.client) && l < |p.client.leases|
  {
    && (e == Event.Renew(l) || Subject(p.phase) == Some(l))
    && RenewError(p, e, l, now, other).Some?
    && Lifecycle.IsLeaseLoss(RenewError(p, e, l, now, other).value)
    && !Lifecycle.IsLeaseLoss(other)
  }

  // Refusing by validation, or because something else is pending, finds the lease retired or retires it.
  lemma RefusalRetires(fleet: Fleet, w: World, i: nat, c: Client, l: nat, now: Time)
    requires FleetOk(fleet) && i < |fleet.configs| && ClientOk(fleet, w, i, c) && l < |c.leases|
    ensures ValidateActive(c, l, now).1.Some? ==> ValidateActive(c, l, now).0.leases[l].retired.Some?
    ensures PendingFor(c, l, ProposalKind.Renew).Err? ==> c.leases[l].retired.Some?
  {
  }

  lemma FreezingLossRetires(fleet: Fleet, w: World, i: nat, p: Process, e: Event, p': Process, l: nat, other: Error)
    requires FleetOk(fleet) && i < |fleet.configs| && ProcessOk(fleet, w, i, p) && l < |p.client.leases|
    requires FreezeNext(fleet, w, i, p, e, p') && ReportsLoss(p, e, l, Clock(fleet, i, w.now), other)
    ensures l < |p'.client.leases| && p'.client.leases[l].retired.Some?
  {
    RefusalRetires(fleet, w, i, p.client, l, Clock(fleet, i, w.now));
  }

  lemma ConfirmingLossRetires(fleet: Fleet, w: World, i: nat, p: Process, p': Process, l: nat, other: Error)
    requires i < |fleet.offsets| && WellFormed(p.client) && l < |p.client.leases|
    requires ConfirmPendingStep(Clock(fleet, i, w.now), p, p')
    requires ReportsLoss(p, ConfirmPending, l, Clock(fleet, i, w.now), other)
    ensures l < |p'.client.leases| && p'.client.leases[l].retired.Some?
  {
  }

  lemma ResolvingLossRetires(fleet: Fleet, w: World, i: nat, p: Process, e: Event, p': Process, l: nat, other: Error)
    requires i < |fleet.offsets| && WellFormed(p.client) && l < |p.client.leases|
    requires ResolutionNext(fleet, w, i, p, e, p') && ReportsLoss(p, e, l, Clock(fleet, i, w.now), other)
    ensures l < |p'.client.leases| && p'.client.leases[l].retired.Some?
  {
    if e.ConfirmPending? { ConfirmingLossRetires(fleet, w, i, p, p', l, other); }
  }

  lemma ReadingReportsNoLoss(fleet: Fleet, w: World, i: nat, p: Process, e: Event, p': Process, l: nat, other: Error)
    requires FleetOk(fleet) && i < |fleet.configs| && WorldOk(fleet, w) && ProcessOk(fleet, w, i, p)
    requires l < |p.client.leases| && ObservationNext(fleet, w, i, p, e, p')
    ensures !ReportsLoss(p, e, l, Clock(fleet, i, w.now), other)
  {
  }

  lemma LossRetires(fleet: Fleet, w: World, i: nat, p: Process, e: Event, p': Process, l: nat, other: Error)
    requires FleetOk(fleet) && i < |fleet.configs| && WorldOk(fleet, w) && ProcessOk(fleet, w, i, p)
    requires l < |p.client.leases| && LocalNext(fleet, w, i, p, e, p')
    requires ReportsLoss(p, e, l, Clock(fleet, i, w.now), other)
    ensures l < |p'.client.leases| && p'.client.leases[l].retired.Some?
  {
    if ObservationNext(fleet, w, i, p, e, p') {
      ReadingReportsNoLoss(fleet, w, i, p, e, p', l, other);
    } else if FreezeNext(fleet, w, i, p, e, p') {
      FreezingLossRetires(fleet, w, i, p, e, p', l, other);
    } else if ResolutionNext(fleet, w, i, p, e, p') {
      ResolvingLossRetires(fleet, w, i, p, e, p', l, other);
    }
  }

  /** After a Renew reported that its lease is lost, no check of that lease passes for the rest of the run. */
  lemma LossShows(fleet: Fleet, run: seq<System>, steps: seq<Step>, k: nat, b: nat, i: nat, l: nat, e: Event, other: Error)
    requires IsRun(fleet, run, steps) && k < b < |run| && i < |run[k].procs| && l < |run[k].procs[i].client.leases|
    requires i < |fleet.offsets| && WellFormed(run[k].procs[i].client) && steps[k] == Local(i, e)
    requires ReportsLoss(run[k].procs[i], e, l, Clock(fleet, i, run[k].now), other)
    ensures i < |run[b].procs| && l < |run[b].procs[i].client.leases|
    ensures Check(run[b].procs[i].client, l, Clock(fleet, i, run[b].now)).1.Some?
  {
    RunKeeps(fleet, run, steps, k);
    assert StepAt(fleet, run, steps, k);
    LossRetires(fleet, WorldOf(run[k]), i, run[k].procs[i], e, run[k + 1].procs[i], l, other);
    CheckMeans(fleet, run, steps, k + 1, i, l);
    NoRevival(fleet, run, steps, k + 1, b, i, l);
  }

  /** And so it is once the lease's done channel has closed. */
  lemma DoneShows(fleet: Fleet, run: seq<System>, steps: seq<Step>, k: nat, b: nat, i: nat, l: nat)
    requires IsRun(fleet, run, steps) && k <= b < |run| && i < |run[k].procs| && l < |run[k].procs[i].client.leases|
    requires run[k].procs[i].client.leases[l].doneClosed > 0
    ensures i < |run[b].procs| && i < |fleet.offsets| && l < |run[b].procs[i].client.leases|
    ensures Check(run[b].procs[i].client, l, Clock(fleet, i, run[b].now)).1.Some?
  {
    ClientState(fleet, run, steps, k, i, l);
    NoRevival(fleet, run, steps, k, b, i, l);
    CheckMeans(fleet, run, steps, k, i, l);
  }

  /**
   A Renew or Release of any lease but the one granted last is refused before anything is proposed, so whatever a client
   sends on behalf of a lease is on behalf of the newest.
   */
  lemma OnlyNewestProceeds(fleet: Fleet, run: seq<System>, steps: seq<Step>, k: nat, i: nat, l: nat, kind: ProposalKind,
                           now: Time)
    requires IsRun(fleet, run, steps) && k < |run| && i < |run[k].procs| && l + 1 < |run[k].procs[i].client.leases|
    ensures var c := run[k].procs[i].client;
            && WellFormed(c)
            && (PendingFor(c, l, kind).Ok? ==> PendingFor(c, l, kind).value.None?)
            && ValidateActive(c, l, now) == (c, c.leases[l].retired)
            && c.leases[l].retired.Some?
  {
    RunKeeps(fleet, run, steps, k);
    ClientState(fleet, run, steps, k, i, l);
    assert ProcessOk(fleet, WorldOf(run[k]), i, run[k].procs[i]);
  }
}
