/**
 What the holding half of the client answers, told by the log and the clock: when a Require is let through, what renewals and
 releases are made of, which reads cost a lease, what a confirmation does, and why leases retire at all.
 */
module LeaseOutcomes {
  import opened Basics
  import opened LeaseRecords
  import opened LeaseClient
  import opened LeaseSystem
  import opened LeaseLog
  import opened LeaseInvariant
  import opened LeasePreservation
  import opened LeaseSteps
  import opened LeaseHistory
  import opened LeaseTheorems
  import opened LeaseAnswers

  // The lease is out of time at local time now.
  predicate Due(lease: LeaseState, now: Time) {
    now >= lease.validUntil
  }

  // The lease as it is after retiring for this cause, if it was not retired before.
  predicate RetiredFor(a: LeaseState, b: LeaseState, cause: Error) {
    && b.leaseUID == a.leaseUID && b.clientID == a.clientID && b.epochID == a.epochID && b.sequenceID == a.sequenceID
    && b.validUntil == a.validUntil
    && if a.retired.Some? then b == a else b.retired == Some(cause) && b.timer.None? && b.doneClosed == a.doneClosed + 1
  }

  // Lease l retires for this cause, if it was not retired before, and every other lease is left alone.
  predicate OnlyRetires(c: Client, c': Client, l: nat, cause: Error) {
    && l < |c.leases| == |c'.leases|
    && RetiredFor(c.leases[l], c'.leases[l], cause)
    && forall m :: 0 <= m < |c.leases| && m != l ==> c'.leases[m] == c.leases[m]
  }

  // Acquiring -------------------------------------------------------------------------------------------------------------

  // The pending proposal's time: one renew deadline from its first send, but no longer than the authority it was frozen with.
  function PendingUntil(c: Client): Time
    requires c.pending.Some? && c.pending.value.acquired < |c.leases|
  {
    var (own, authority) := (c.pending.value.firstSendAt + c.config.renewDeadline,
                             c.leases[c.pending.value.acquired].validUntil);
    if own < authority then own else authority
  }

  /**
   Require answers that a lease is held already exactly while the active lease has time left, and that an outcome is unknown
   exactly while none is and the pending proposal has; and it expires the active lease and drops the pending proposal exactly
   when their time is up.
   */
  lemma RequireAnswers(fleet: Fleet, run: seq<System>, steps: seq<Step>, k: nat, i: nat, p: Process, p': Process)
    requires Took(fleet, run, steps, k, i, Require, p, p')
    ensures WellFormed(p.client) && i < |fleet.offsets|
    ensures var (c, c', now) := (p.client, p'.client, Clock(fleet, i, run[k].now));
            var held := c.active.Some? && !Due(c.leases[c.active.value], now);
            var open := c.pending.Some? && now < PendingUntil(c);
            && p'.phase == (if held || open then Idle else RequirePrepared)
            && PrepareRequire(c, now).1 == (if held then Some(AlreadyHeld) else if open then Some(UnknownOutcome) else None)
            && c'.observed == c.observed
            && (if c.active.Some? && !held then OnlyRetires(c, c', c.active.value, LeaseExpired) else c'.leases == c.leases)
            && c'.pending == (if open then c.pending else None)
  {
    TookFacts(fleet, run, steps, k, i, Require, p, p');
    OnlyAcquisition(fleet, WorldOf(run[k]), i, p, Require, p');
  }

  // Renewing and releasing ------------------------------------------------------------------------------------------------

  // The lease has time left, and what is observed is the commit that backs it.
  ghost predicate Good(fleet: Fleet, log: seq<Commit>, i: nat, c: Client, l: nat, now: Time)
    requires FleetOk(fleet) && i < |fleet.configs|
  {
    && l < |c.leases|
    && c.leases[l].retired.None?
    && !Due(c.leases[l], now)
    && c.observed.Some?
    && Backed(fleet, log, i, c.leases[l], c.observed.value.version)
  }

  // Why a lease that is not good is refused: it retired before, or does now.
  function RefusalOf(lease: LeaseState, now: Time): Error {
    if lease.retired.Some? then lease.retired.value else if Due(lease, now) then LeaseExpired else OwnershipLost
  }

  lemma ValidatedExactly(fleet: Fleet, w: World, i: nat, c: Client, l: nat, now: Time)
    requires FleetOk(fleet) && i < |fleet.configs| && WorldOk(fleet, w) && ClientOk(fleet, w, i, c) && l < |c.leases|
    ensures var (c', err) := ValidateActive(c, l, now);
            if Good(fleet, w.log, i, c, l, now) then c' == c && err.None?
            else
              && err == Some(RefusalOf(c.leases[l], now))
              && OnlyRetires(c, c', l, RefusalOf(c.leases[l], now))
              && c'.observed == c.observed && c'.pending == c.pending
  {
    ValidateKeeps(fleet, w, i, c, l, now);
  }

  lemma OnlyFreezing(fleet: Fleet, w: World, i: nat, p: Process, e: Event, p': Process)
    requires i < |fleet.offsets| && LocalNext(fleet, w, i, p, e, p')
    requires || e.Renew? || e.ValidateRenewal? || e.BuildRenewal? || e.FreezeRenewal?
             || e.Release? || e.ValidateRelease? || e.BuildRelease? || e.FreezeRelease?
    ensures FreezeNext(fleet, w, i, p, e, p')
  {
  }

  /** Renew and Release begin from scratch if nothing is pending, reconcile what is pending if that is theirs, and else refuse. */
  lemma Admits(fleet: Fleet, run: seq<System>, steps: seq<Step>, k: nat, i: nat, e: Event, p: Process, p': Process)
    requires Took(fleet, run, steps, k, i, e, p, p') && (e.Renew? || e.Release?)
    ensures p.phase == Idle && p'.client == p.client
    ensures var (pending, kind) := (p.client.pending, if e.Renew? then ProposalKind.Renew else ProposalKind.Release);
            p'.phase == if pending.None? then (if e.Renew? then RenewAdmitted(e.lease) else ReleaseAdmitted(e.lease))
                        else if pending.value.kind == kind && pending.value.acquired == e.lease then
                          Reconciling(pending.value, false)
                        else Idle
  {
    TookFacts(fleet, run, steps, k, i, e, p, p');
    OnlyFreezing(fleet, WorldOf(run[k]), i, p, e, p');
  }

  // What is copied out of a good lease: the commit that backs it, and its deadline.
  ghost predicate CopiedFrom(log: seq<Commit>, c: Client, l: nat, s: Snapshot) {
    && c.observed.Some? && l < |c.leases|
    && s.expected == c.observed.value.version
    && s.expected < |log| && s.record == Rec(log, s.expected)
    && s.authorityEnds == c.leases[l].validUntil
  }

  /** A renewal goes on exactly from a good lease, on top of the commit that backs it. */
  lemma RenewalValidated(fleet: Fleet, run: seq<System>, steps: seq<Step>, k: nat, i: nat, l: nat, p: Process, p': Process)
    requires Took(fleet, run, steps, k, i, ValidateRenewal, p, p') && p.phase == RenewAdmitted(l)
    ensures FleetOk(fleet) && i < |fleet.configs| && l < |p.client.leases|
    ensures var now := Clock(fleet, i, run[k].now);
            if Good(fleet, run[k].log, i, p.client, l, now) then
              p'.client == p.client && p'.phase.RenewBegun? && p'.phase.lease == l
              && CopiedFrom(run[k].log, p.client, l, p'.phase.snapshot)
            else p'.phase == Idle && OnlyRetires(p.client, p'.client, l, RefusalOf(p.client.leases[l], now))
  {
    TookFacts(fleet, run, steps, k, i, ValidateRenewal, p, p');
    OnlyFreezing(fleet, WorldOf(run[k]), i, p, ValidateRenewal, p');
    ValidatedExactly(fleet, WorldOf(run[k]), i, p.client, l, Clock(fleet, i, run[k].now));
  }

  /** So does a release, and it retires the lease at once. */
  lemma ReleaseValidated(fleet: Fleet, run: seq<System>, steps: seq<Step>, k: nat, i: nat, l: nat, p: Process, p': Process)
    requires Took(fleet, run, steps, k, i, ValidateRelease, p, p') && p.phase == ReleaseAdmitted(l)
    ensures FleetOk(fleet) && i < |fleet.configs| && l < |p.client.leases|
    ensures var now := Clock(fleet, i, run[k].now);
            if Good(fleet, run[k].log, i, p.client, l, now) then
              && OnlyRetires(p.client, p'.client, l, LeaseRetired) && p'.phase.ReleaseBegun? && p'.phase.lease == l
              && CopiedFrom(run[k].log, p.client, l, p'.phase.snapshot)
            else p'.phase == Idle && OnlyRetires(p.client, p'.client, l, RefusalOf(p.client.leases[l], now))
  {
    TookFacts(fleet, run, steps, k, i, ValidateRelease, p, p');
    OnlyFreezing(fleet, WorldOf(run[k]), i, p, ValidateRelease, p');
    ValidatedExactly(fleet, WorldOf(run[k]), i, p.client, l, Clock(fleet, i, run[k].now));
  }

  // The request q replaces exactly the snapshot's version by the same record one sequence later, held by clientID.
  predicate Continues(q: Proposal, kind: ProposalKind, l: nat, s: Snapshot, clientID: string, wall: Time, now: Time) {
    && q.kind == kind
    && q.acquired == l
    && q.expected == Some(s.expected)
    && q.record == s.record.(clientID := clientID, renewTime := wall, sequenceID := s.record.sequenceID + 1)
    && q.firstSendAt == now
    && q.authorityEnds == s.authorityEnds
  }

  /** A renewal keeps the owner and a release clears it; either fails exactly if the sequence cannot grow. */
  lemma Builds(fleet: Fleet, run: seq<System>, steps: seq<Step>, k: nat, i: nat, e: Event, p: Process, p': Process)
    requires Took(fleet, run, steps, k, i, e, p, p') && (e.BuildRenewal? || e.BuildRelease?)
    ensures i < |fleet.offsets| && p'.client == p.client
    ensures e.BuildRenewal? ==>
              && p.phase.RenewBegun?
              && (if p.phase.snapshot.record.sequenceID == MAX_UINT64 then p'.phase == Idle
                  else && p'.phase.RenewBuilt?
                       && Continues(p'.phase.proposal, ProposalKind.Renew, p.phase.lease, p.phase.snapshot,
                                    p.phase.snapshot.record.clientID, e.wall, Clock(fleet, i, run[k].now)))
    ensures e.BuildRelease? ==>
              && p.phase.ReleaseBegun?
              && (if p.phase.snapshot.record.sequenceID == MAX_UINT64 then p'.phase == Idle
                  else && p'.phase.ReleaseBuilt?
                       && Continues(p'.phase.proposal, ProposalKind.Release, p.phase.lease, p.phase.snapshot, "", e.wall,
                                    Clock(fleet, i, run[k].now)))
  {
    TookFacts(fleet, run, steps, k, i, e, p, p');
    OnlyFreezing(fleet, WorldOf(run[k]), i, p, e, p');
  }

  /** A built renewal becomes pending exactly if its lease is still good; a built release always does. */
  lemma Freezes(fleet: Fleet, run: seq<System>, steps: seq<Step>, k: nat, i: nat, e: Event, q: Proposal, p: Process, p': Process)
    requires Took(fleet, run, steps, k, i, e, p, p')
    requires (e.FreezeRenewal? && p.phase == RenewBuilt(q)) || (e.FreezeRelease? && p.phase == ReleaseBuilt(q))
    ensures FleetOk(fleet) && i < |fleet.configs| && q.acquired < |p.client.leases|
    ensures var now := Clock(fleet, i, run[k].now);
            if e.FreezeRelease? || Good(fleet, run[k].log, i, p.client, q.acquired, now) then
              p' == p.(client := p.client.(pending := Some(q)), phase := PendingReady(q))
            else
              && p'.phase == Idle && p'.client.pending.None?
              && OnlyRetires(p.client, p'.client, q.acquired, RefusalOf(p.client.leases[q.acquired], now))
  {
    TookFacts(fleet, run, steps, k, i, e, p, p');
    OnlyFreezing(fleet, WorldOf(run[k]), i, p, e, p');
    ValidatedExactly(fleet, WorldOf(run[k]), i, p.client, q.acquired, Clock(fleet, i, run[k].now));
  }

  // Reads and the lease ---------------------------------------------------------------------------------------------------

  // Version v is the commit of the pending proposal.
  predicate IsPending(log: seq<Commit>, i: nat, c: Client, v: Version) {
    c.pending.Some? && CommittedAt(log, i, c.pending.value, v)
  }

  /**
   A read costs the active lease exactly when the commit it fetched neither backs the lease nor is the commit of its own pending
   renewal; and never anything else.
   */
  lemma ReadRetiresExactly(fleet: Fleet, run: seq<System>, steps: seq<Step>, k: nat, i: nat, r: nat, readAt: Time, record: Record,
                           v: Version, p: Process, p': Process)
    requires Took(fleet, run, steps, k, i, FinishReading(r, readAt), p, p') && ReadsNow(p, r, Object(record, v))
    ensures FleetOk(fleet) && i < |fleet.configs| && p'.client.pending == p.client.pending
    ensures p.client.active.Some? ==>
              var l := p.client.active.value;
              && l < |p.client.leases|
              && (if Backed(fleet, run[k].log, i, p.client.leases[l], v) || IsPending(run[k].log, i, p.client, v)
                  then p'.client.leases == p.client.leases && p'.client.active == p.client.active
                  else OnlyRetires(p.client, p'.client, l, OwnershipLost))
    ensures p.client.active.None? ==> p'.client.leases == p.client.leases
  {
    TookFacts(fleet, run, steps, k, i, FinishReading(r, readAt), p, p');
    OnlyObservation(fleet, WorldOf(run[k]), i, p, FinishReading(r, readAt), p');
    ReadingRetires(fleet, WorldOf(run[k]), i, p, r, readAt, record, v, p');
  }

  // The commit v is the one that backs the lease, or that of its pending renewal, as far as its record tells.
  lemma RecordTells(fleet: Fleet, w: World, i: nat, c: Client, l: nat, v: Version)
    requires FleetOk(fleet) && i < |fleet.configs| && WorldOk(fleet, w) && ClientOk(fleet, w, i, c)
    requires c.active == Some(l) && l < |c.leases| && v < |w.log|
    ensures Backed(fleet, w.log, i, c.leases[l], v) <==> StillOwned(Rec(w.log, v), c.leases[l])
    ensures c.pending.Some? ==> (Rec(w.log, v) == c.pending.value.record <==> IsPending(w.log, i, c, v))
    ensures c.pending.Some? ==> c.pending.value.kind == ProposalKind.Renew && c.pending.value.acquired == l
    ensures c.pending.Some? ==> StillOwned(c.pending.value.record.(sequenceID := c.leases[l].sequenceID), c.leases[l])
  {
    assert LeaseOk(fleet, w.log, i, c.leases[l]);
    var b :| Backed(fleet, w.log, i, c.leases[l], b);
    if StillOwned(Rec(w.log, v), c.leases[l]) { CommitsUnique(fleet, w.log, b, v); }
    if c.pending.Some? {
      CommitsUnique(fleet, w.log, b, c.pending.value.expected.value);
      if Rec(w.log, v) == c.pending.value.record { ReadbackIsOwn(fleet, w, i, c.pending.value, v); }
    }
  }

  lemma ReadingRetires(fleet: Fleet, w: World, i: nat, p: Process, r: nat, readAt: Time, record: Record, v: Version, p': Process)
    requires FleetOk(fleet) && i < |fleet.configs| && WorldOk(fleet, w) && ProcessOk(fleet, w, i, p)
    requires FinishReadingStep(fleet, i, Clock(fleet, i, w.now), p, r, readAt, p') && ReadsNow(p, r, Object(record, v))
    ensures p'.client.pending == p.client.pending
    ensures p.client.active.Some? ==>
              if Backed(fleet, w.log, i, p.client.leases[p.client.active.value], v) || IsPending(w.log, i, p.client, v)
              then p'.client.leases == p.client.leases && p'.client.active == p.client.active
              else OnlyRetires(p.client, p'.client, p.client.active.value, OwnershipLost)
    ensures p.client.active.None? ==> p'.client.leases == p.client.leases
  {
    assert ReadOk(w, p.client, p.readOps[r]);
    CommitIsAcceptable(fleet, w, i, p.client.observed, v);
    if p.client.active.Some? { RecordTells(fleet, w, i, p.client, p.client.active.value, v); }
  }

  // Resolving -------------------------------------------------------------------------------------------------------------

  // The pending proposal is dropped, and the lease of a renewal retires for this cause.
  predicate GivesUp(c: Client, c': Client, q: Proposal, cause: Error) {
    && c'.pending.None? && c'.observed == c.observed
    && if q.kind == ProposalKind.Renew then OnlyRetires(c, c', q.acquired, cause) else c'.leases == c.leases
  }

  /**
   A readback confirms exactly if what was read is the commit of the proposal itself, leaves the matter open if it is still the
   version the proposal replaces, and otherwise loses.
   */
  lemma ReadbackResolves(fleet: Fleet, run: seq<System>, steps: seq<Step>, k: nat, i: nat, q: Proposal, o: Observed,
                         afterConflict: bool, p: Process, p': Process)
    requires Took(fleet, run, steps, k, i, ResolveReadback, p, p') && p.phase == ReconcileRead(q, o, afterConflict)
    ensures p.client.pending == Some(q)
    ensures if CommittedAt(run[k].log, i, q, o.version) then p' == p.(phase := PendingReplied(q, o.version))
            else if q.expected == Some(o.version) then p' == p.(phase := if afterConflict then Idle else PendingReady(q))
            else p'.phase == Idle && GivesUp(p.client, p'.client, q, OwnershipLost)
  {
    TookFacts(fleet, run, steps, k, i, ResolveReadback, p, p');
    OnlyResolution(fleet, WorldOf(run[k]), i, p, ResolveReadback, p');
    if o.record == q.record { ReadbackIsOwn(fleet, WorldOf(run[k]), i, q, o.version); }
    if CommittedAt(run[k].log, i, q, o.version) { assert EntryOk(fleet, run[k].log, o.version); }
  }

  /**
   What a reply to a renewal or release leads to: a success to its confirmation, an unknown outcome to keeping the proposal, a
   rejection to reading the object back, and any other error to dropping the proposal, with the lease as it was.
   */
  lemma RepliesLead(fleet: Fleet, run: seq<System>, steps: seq<Step>, k: nat, i: nat, reply: WriteReply, p: Process, p': Process)
    requires Took(fleet, run, steps, k, i, PendingReply(reply), p, p')
    ensures p.phase.PendingSent? && p.client.pending == Some(p.phase.proposal)
    ensures reply.Committed? ==> CommittedAt(run[k].log, i, p.phase.proposal, reply.version)
    ensures match reply
            case Committed(v) => p' == p.(phase := PendingReplied(p.phase.proposal, v))
            case OutcomeUnknown => p' == p.(phase := Idle)
            case Rejected => p' == p.(phase := Reconciling(p.phase.proposal, true))
            case OtherFailure => p' == p.(client := p.client.(pending := None), phase := Idle)
  {
    TookFacts(fleet, run, steps, k, i, PendingReply(reply), p, p');
    OnlyResolution(fleet, WorldOf(run[k]), i, p, PendingReply(reply), p');
  }

  /** What runs out is given up, and a request refused before that is only dropped. */
  lemma ExpiredIsGivenUp(fleet: Fleet, run: seq<System>, steps: seq<Step>, k: nat, i: nat, e: Event, p: Process, p': Process)
    requires Took(fleet, run, steps, k, i, e, p, p') && (e.ReconcileExpired? || e.RefusePending?)
    ensures p.client.pending.Some? && p.client.pending.value.acquired < |p.client.leases| && i < |fleet.offsets|
    ensures p'.phase == Idle
    ensures e.ReconcileExpired? ==> Clock(fleet, i, run[k].now) >= PendingUntil(p.client)
    ensures if e.ReconcileExpired? || e.checkedAt >= PendingUntil(p.client)
            then GivesUp(p.client, p'.client, p.client.pending.value, LeaseExpired)
            else p'.client == p.client.(pending := None)
  {
    TookFacts(fleet, run, steps, k, i, e, p, p');
    OnlyResolution(fleet, WorldOf(run[k]), i, p, e, p');
  }

  /**
   Confirming a committed renewal extends its lease, which passes its check again until one renew deadline after the renewal's
   first send, exactly if the lease is not retired and its old deadline has not passed; otherwise the lease has expired.
   */
  lemma RenewalExtends(fleet: Fleet, run: seq<System>, steps: seq<Step>, k: nat, i: nat, q: Proposal, v: Version, p: Process,
                       p': Process)
    requires Took(fleet, run, steps, k, i, ConfirmPending, p, p') && p.phase == PendingReplied(q, v)
    requires q.kind == ProposalKind.Renew
    ensures FleetOk(fleet) && i < |fleet.configs| && v < |run[k].log| && q.acquired < |p.client.leases| == |p'.client.leases|
    ensures var (l, now, ends) := (q.acquired, Clock(fleet, i, run[k].now), q.firstSendAt + fleet.configs[i].renewDeadline);
            var (lease, lease') := (p.client.leases[l], p'.client.leases[l]);
            && p'.phase == Idle && p'.client.pending.None?
            && (if lease.retired.None? && !Due(lease, now) then
                  && Holds(fleet, run[k + 1], i, l) && lease'.validUntil == ends >= lease.validUntil
                  && lease'.sequenceID == lease.sequenceID + 1 == Rec(run[k].log, v).sequenceID
                  && lease'.epochID == lease.epochID
                  && ObservesOwn(run[k].log, p.client, p'.client, v, q.firstSendAt)
                else p'.client.observed == p.client.observed && OnlyRetires(p.client, p'.client, l, LeaseExpired))
  {
    TookFacts(fleet, run, steps, k, i, ConfirmPending, p, p');
    OnlyResolution(fleet, WorldOf(run[k]), i, p, ConfirmPending, p');
  }

  /** Confirming a committed release observes it and touches no lease. */
  lemma ReleaseConfirms(fleet: Fleet, run: seq<System>, steps: seq<Step>, k: nat, i: nat, q: Proposal, v: Version, p: Process,
                        p': Process)
    requires Took(fleet, run, steps, k, i, ConfirmPending, p, p') && p.phase == PendingReplied(q, v)
    requires q.kind == ProposalKind.Release
    ensures v < |run[k].log| && Rec(run[k].log, v).clientID == ""
    ensures p'.phase == Idle && p'.client.pending.None? && p'.client.leases == p.client.leases
    ensures ObservesOwn(run[k].log, p.client, p'.client, v, q.firstSendAt)
  {
    TookFacts(fleet, run, steps, k, i, ConfirmPending, p, p');
    OnlyResolution(fleet, WorldOf(run[k]), i, p, ConfirmPending, p');
    CommitTerms(fleet, run[k].log, v);
  }

  // Expiry ----------------------------------------------------------------------------------------------------------------

  lemma OnlyExpiry(fleet: Fleet, w: World, i: nat, p: Process, e: Event, p': Process)
    requires i < |fleet.offsets| && LocalNext(fleet, w, i, p, e, p') && (e.FireTimer? || e.CheckLease?)
    ensures ExpiryNext(Clock(fleet, i, w.now), p, e, p')
  {
  }

  /** A timer callback and a check expire their lease exactly if it is not retired and its deadline has passed. */
  lemma ExpiresExactly(fleet: Fleet, run: seq<System>, steps: seq<Step>, k: nat, i: nat, e: Event, p: Process, p': Process)
    requires Took(fleet, run, steps, k, i, e, p, p') && (e.FireTimer? || e.CheckLease?)
    ensures i < |fleet.offsets| && e.lease < |p.client.leases|
    ensures if p.client.leases[e.lease].retired.None? && Due(p.client.leases[e.lease], Clock(fleet, i, run[k].now))
            then OnlyRetires(p.client, p'.client, e.lease, LeaseExpired) && p'.client.observed == p.client.observed
                 && p'.client.pending == p.client.pending && p'.client.active.None?
            else p' == p
  {
    TookFacts(fleet, run, steps, k, i, e, p, p');
    OnlyExpiry(fleet, WorldOf(run[k]), i, p, e, p');
    ClientState(fleet, run, steps, k, i, e.lease);
  }
}
