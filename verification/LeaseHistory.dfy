/** What a single step may do to the leases and the observation of a client, and what follows for whole runs. */
module LeaseHistory {
  import opened Basics
  import opened LeaseRecords
  import opened LeaseClient
  import opened LeaseSystem
  import opened LeaseLog
  import opened LeaseInvariant
  import opened LeasePreservation
  import opened LeaseSteps

  /**
   A retired lease is frozen; a live one keeps its identity, gains time only while it still has some, and expires no
   earlier than due.
   */
  ghost predicate LeaseEvolves(now: Time, a: LeaseState, b: LeaseState) {
    && b.leaseUID == a.leaseUID
    && b.clientID == a.clientID
    && b.epochID == a.epochID
    && b.sequenceID >= a.sequenceID
    && b.validUntil >= a.validUntil
    && (now >= a.validUntil ==> b.validUntil == a.validUntil)
    && (a.retired.Some? ==> b == a)
    && (a.retired.None? && b.retired.Some? ==> b.validUntil == a.validUntil && b.doneClosed == a.doneClosed + 1)
    && (b.retired.None? ==> b.doneClosed == a.doneClosed)
    && (a.retired.None? && b.retired == Some(LeaseExpired) ==> now >= a.validUntil)
  }

  ghost predicate Evolves(now: Time, c: Client, c': Client) {
    && |c.leases| <= |c'.leases|
    && (forall l :: 0 <= l < |c.leases| ==> LeaseEvolves(now, c.leases[l], c'.leases[l]))
    && (c'.active.Some? && c'.active.value < |c.leases| ==> c.active == c'.active)
  }

  // The observed (epoch, sequence) does not go back.
  ghost predicate ObservedAdvances(c: Client, c': Client) {
    c.observed.Some? ==> c'.observed.Some? && !Before(c'.observed.value.record, c.observed.value.record)
  }

  ghost predicate ConfirmsRelease(p: Process, e: Event) {
    e.ConfirmPending? && p.phase.PendingReplied? && p.phase.proposal.kind == ProposalKind.Release
  }

  lemma RetireEvolves(now: Time, c: Client, l: nat, cause: Error)
    requires l < |c.leases| && (cause == LeaseExpired ==> now >= c.leases[l].validUntil)
    ensures Evolves(now, c, RetireLease(c, l, cause)) && ObservedAdvances(c, RetireLease(c, l, cause))
  {
  }

  /** A frozen renewal's phase ends exactly with the authority it would extend. */
  lemma PhaseEndsAtAuthority(fleet: Fleet, w: World, i: nat, c: Client, p: Proposal)
    requires FleetOk(fleet) && i < |fleet.configs| && c.config == fleet.configs[i]
    requires FrozenOk(fleet, w, i, c, p) && p.kind == ProposalKind.Renew && p.acquired < |c.leases|
    ensures PhaseEnd(c.config, p) == c.leases[p.acquired].validUntil
  {
  }

  lemma DropExpiredEvolves(fleet: Fleet, w: World, i: nat, c: Client, now: Time)
    requires FleetOk(fleet) && i < |fleet.configs| && ClientOk(fleet, w, i, c)
    ensures Evolves(now, c, DropExpired(c, now)) && ObservedAdvances(c, DropExpired(c, now))
  {
    if c.pending.Some? && c.pending.value.kind == ProposalKind.Renew {
      PhaseEndsAtAuthority(fleet, w, i, c, c.pending.value);
    }
  }

  lemma AbandonEvolves(fleet: Fleet, w: World, i: nat, c: Client, p: Proposal, now: Time)
    requires FleetOk(fleet) && i < |fleet.configs| && ClientOk(fleet, w, i, c) && c.pending == Some(p)
    ensures now >= PhaseEnd(c.config, p) ==>
              Evolves(now, c, AbandonExpired(c, p)) && ObservedAdvances(c, AbandonExpired(c, p))
    ensures Evolves(now, c, LosePending(c, p)) && ObservedAdvances(c, LosePending(c, p))
    ensures Evolves(now, c, ClearPending(c, p)) && ObservedAdvances(c, ClearPending(c, p))
  {
    if p.kind == ProposalKind.Renew { PhaseEndsAtAuthority(fleet, w, i, c, p); }
  }

  lemma ConfirmEvolves(fleet: Fleet, w: World, i: nat, c: Client, p: Proposal, v: Version, now: Time)
    requires FleetOk(fleet) && i < |fleet.configs| && ClientOk(fleet, w, i, c) && c.pending == Some(p)
    ensures p.kind == ProposalKind.Renew ==>
              Evolves(now, c, ConfirmRenewal(c, p, v, now).0) && ObservedAdvances(c, ConfirmRenewal(c, p, v, now).0)
    ensures p.kind == ProposalKind.Release ==> Evolves(now, c, ConfirmRelease(c, p, v).0)
  {
    if p.kind == ProposalKind.Renew { PhaseEndsAtAuthority(fleet, w, i, c, p); }
  }

  lemma FinishReadEvolves(fleet: Fleet, w: World, i: nat, c: Client, r: Read, readAt: Time, now: Time)
    requires FleetOk(fleet) && i < |fleet.configs| && WorldOk(fleet, w) && ClientOk(fleet, w, i, c)
    requires ReadOk(w, c, r) && r.fetched.Some?
    ensures var c' := FinishRead(c, r.startGen, r.fetched.value.reply, readAt).0;
            Evolves(now, c, c') && ObservedAdvances(c, c')
  {
    if c.generation == r.startGen && r.fetched.value.reply.Object? {
      CommitIsAcceptable(fleet, w, i, c.observed, r.fetched.value.reply.version);
    }
  }

  // Validation changes nothing, or retires the lease for a cause that has come about.
  lemma ValidateOutcome(c: Client, l: nat, now: Time) returns (cause: Error)
    requires WellFormed(c) && l < |c.leases|
    ensures cause == LeaseExpired ==> now >= c.leases[l].validUntil
    ensures ValidateActive(c, l, now).0 == c || ValidateActive(c, l, now).0 == RetireLease(c, l, cause)
    ensures ValidateActive(c, l, now).1.None? ==> ValidateActive(c, l, now).0 == c
  {
    cause := if now >= c.leases[l].validUntil then LeaseExpired else OwnershipLost;
  }

  lemma ValidateEvolves(c: Client, l: nat, now: Time)
    requires WellFormed(c) && l < |c.leases|
    ensures Evolves(now, c, ValidateActive(c, l, now).0) && ObservedAdvances(c, ValidateActive(c, l, now).0)
    ensures Evolves(now, c, BeginRelease(c, l, now).0) && ObservedAdvances(c, BeginRelease(c, l, now).0)
  {
    var cause := ValidateOutcome(c, l, now);
    RetireEvolves(now, c, l, cause);
    RetireEvolves(now, c, l, LeaseRetired);
  }

  lemma ExpiryEvolves(c: Client, l: nat, now: Time)
    requires WellFormed(c) && l < |c.leases|
    ensures Evolves(now, c, Check(c, l, now).0) && ObservedAdvances(c, Check(c, l, now).0)
    ensures Evolves(now, c, TimerFired(c, l, now)) && ObservedAdvances(c, TimerFired(c, l, now))
  {
    if now >= c.leases[l].validUntil { RetireEvolves(now, c, l, LeaseExpired); }
  }

  lemma AcquisitionEvolves(c: Client, p: Proposal, v: Version, now: Time, canceled: bool)
    requires WellFormed(c)
    ensures Evolves(now, c, ConfirmAcquisition(c, p, v, now, canceled).0)
    ensures ObservedAdvances(c, ConfirmAcquisition(c, p, v, now, canceled).0)
  {
  }

  lemma ReadingEvolves(fleet: Fleet, w: World, i: nat, p: Process, e: Event, p': Process)
    requires FleetOk(fleet) && i < |fleet.configs| && WorldOk(fleet, w) && ProcessOk(fleet, w, i, p)
    requires ObservationNext(fleet, w, i, p, e, p')
    ensures Evolves(Clock(fleet, i, w.now), p.client, p'.client)
    ensures ObservedAdvances(p.client, p'.client)
  {
    var now := Clock(fleet, i, w.now);
    if e.FinishReading? {
      assert ReadOk(w, p.client, p.readOps[e.read]);
      FinishReadEvolves(fleet, w, i, p.client, p.readOps[e.read], e.readAt, now);
    }
  }

  lemma AcquiringEvolves(fleet: Fleet, w: World, i: nat, p: Process, e: Event, p': Process)
    requires FleetOk(fleet) && i < |fleet.configs| && WorldOk(fleet, w) && ProcessOk(fleet, w, i, p)
    requires p.client.config.leaseDuration > 0 && AcquisitionNext(fleet, w, i, p, e, p')
    ensures Evolves(Clock(fleet, i, w.now), p.client, p'.client)
    ensures ObservedAdvances(p.client, p'.client)
  {
    var now := Clock(fleet, i, w.now);
    match e
    case Require => DropExpiredEvolves(fleet, w, i, p.client, now);
    case ConfirmAcquired(canceled) =>
      AcquisitionEvolves(p.client, p.phase.proposal, p.phase.version, now, canceled);
    case _ =>
  }

  lemma FreezingEvolves(fleet: Fleet, w: World, i: nat, p: Process, e: Event, p': Process)
    requires FleetOk(fleet) && i < |fleet.configs| && WorldOk(fleet, w) && ProcessOk(fleet, w, i, p)
    requires FreezeNext(fleet, w, i, p, e, p')
    ensures Evolves(Clock(fleet, i, w.now), p.client, p'.client)
    ensures ObservedAdvances(p.client, p'.client)
  {
    var now := Clock(fleet, i, w.now);
    match e
    case ValidateRenewal => ValidateEvolves(p.client, p.phase.lease, now);
    case FreezeRenewal => ValidateEvolves(p.client, p.phase.proposal.acquired, now);
    case ValidateRelease => ValidateEvolves(p.client, p.phase.lease, now);
    case _ =>
  }

  // Everything but a confirmation leaves the client alone, or clears, loses or abandons the pending proposal.
  lemma ClearingOutcome(fleet: Fleet, w: World, i: nat, p: Process, e: Event, p': Process)
    requires i < |fleet.offsets| && WellFormed(p.client)
    requires !e.ConfirmPending? && ResolutionNext(fleet, w, i, p, e, p')
    requires (p.phase.PendingReady? || p.phase.PendingSent? || p.phase.Reconciling? || p.phase.ReconcileRead?)
             ==> p.client.pending == Some(p.phase.proposal)
    ensures p.phase.PendingReady? || p.phase.PendingSent? || p.phase.Reconciling? || p.phase.ReconcileRead?
    ensures var (c, q) := (p.client, p.phase.proposal);
            || p'.client == c
            || p'.client == ClearPending(c, q)
            || p'.client == LosePending(c, q)
            || (p'.client == AbandonExpired(c, q) && Clock(fleet, i, w.now) >= PhaseEnd(c.config, q))
  {
  }

  lemma ResolvingEvolves(fleet: Fleet, w: World, i: nat, p: Process, e: Event, p': Process)
    requires FleetOk(fleet) && i < |fleet.configs| && WorldOk(fleet, w) && ProcessOk(fleet, w, i, p)
    requires ResolutionNext(fleet, w, i, p, e, p')
    ensures Evolves(Clock(fleet, i, w.now), p.client, p'.client)
    ensures !ConfirmsRelease(p, e) ==> ObservedAdvances(p.client, p'.client)
  {
    var now := Clock(fleet, i, w.now);
    if e.ConfirmPending? {
      ConfirmEvolves(fleet, w, i, p.client, p.phase.proposal, p.phase.version, now);
    } else {
      ClearingOutcome(fleet, w, i, p, e, p');
      AbandonEvolves(fleet, w, i, p.client, p.phase.proposal, now);
    }
  }

  /** Every event of a process, whatever its phase, evolves its client as described. */
  lemma EventEvolves(fleet: Fleet, w: World, i: nat, p: Process, e: Event, p': Process)
    requires FleetOk(fleet) && i < |fleet.configs| && WorldOk(fleet, w) && ProcessOk(fleet, w, i, p)
    requires LocalNext(fleet, w, i, p, e, p')
    ensures Evolves(Clock(fleet, i, w.now), p.client, p'.client)
    ensures !ConfirmsRelease(p, e) ==> ObservedAdvances(p.client, p'.client)
  {
    if ObservationNext(fleet, w, i, p, e, p') {
      ReadingEvolves(fleet, w, i, p, e, p');
    } else if AcquisitionNext(fleet, w, i, p, e, p') {
      AcquiringEvolves(fleet, w, i, p, e, p');
    } else if FreezeNext(fleet, w, i, p, e, p') {
      FreezingEvolves(fleet, w, i, p, e, p');
    } else if ResolutionNext(fleet, w, i, p, e, p') {
      ResolvingEvolves(fleet, w, i, p, e, p');
    } else if ExpiryNext(Clock(fleet, i, w.now), p, e, p') {
      ExpiryEvolves(p.client, e.lease, Clock(fleet, i, w.now));
    }
  }

  lemma OnlyResolution(fleet: Fleet, w: World, i: nat, p: Process, e: Event, p': Process)
    requires i < |fleet.offsets| && LocalNext(fleet, w, i, p, e, p')
    requires e.RefusePending? || e.PendingReply? || e.ConfirmPending? || e.ReconcileExpired? || e.ResolveReadback?
    ensures ResolutionNext(fleet, w, i, p, e, p')
  {
  }

  /** Confirming a release observes the released record, whatever was observed before. */
  lemma ReleaseInstalls(fleet: Fleet, w: World, i: nat, p: Process, e: Event, p': Process)
    requires FleetOk(fleet) && i < |fleet.configs| && ProcessOk(fleet, w, i, p) && LocalNext(fleet, w, i, p, e, p')
    requires ConfirmsRelease(p, e)
    ensures p'.client.observed.Some? && p'.client.observed.value.record == p.phase.proposal.record
  {
    OnlyResolution(fleet, w, i, p, e, p');
  }

  /** One step of the whole system evolves every client. */
  lemma StepEvolves(fleet: Fleet, s: System, step: Step, s': System, i: nat)
    requires SystemOk(fleet, s) && Next(fleet, s, step, s') && i < |s.procs|
    ensures |s'.procs| == |s.procs|
    ensures Evolves(Clock(fleet, i, s.now), s.procs[i].client, s'.procs[i].client)
    ensures (step.Local? && step.process == i && ConfirmsRelease(s.procs[i], step.event))
            || ObservedAdvances(s.procs[i].client, s'.procs[i].client)
  {
    if step.Local? && step.process == i {
      EventEvolves(fleet, WorldOf(s), i, s.procs[i], step.event, s'.procs[i]);
    }
  }
}
