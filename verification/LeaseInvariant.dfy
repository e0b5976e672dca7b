/** What holds in every reachable state: the facts each client's memory and in-progress operation keep about the log. */
module LeaseInvariant {
  import opened Basics
  import opened LeaseRecords
  import opened LeaseClient
  import opened LeaseSystem
  import opened LeaseLog

  /** o is a pair the store really committed, dated no earlier than the first send of the write that produced it. */
  ghost predicate ObservedOk(fleet: Fleet, log: seq<Commit>, i: nat, o: Observed)
    requires FleetOk(fleet) && i < |fleet.configs|
  {
    && o.version < |log|
    && log[o.version].owner < |fleet.configs|
    && o.record == Rec(log, o.version)
    && o.unchangedSince - fleet.offsets[i] >= SentAt(fleet, log[o.version].owner, log[o.version].proposal)
  }

  /** Commit k is the write that last confirmed this lease, and fixes its deadline. */
  ghost predicate Backed(fleet: Fleet, log: seq<Commit>, i: nat, lease: LeaseState, k: nat)
    requires FleetOk(fleet) && i < |fleet.configs|
  {
    && k < |log|
    && log[k].owner == i
    && log[k].proposal.kind != ProposalKind.Release
    && StillOwned(Rec(log, k), lease)
    && lease.validUntil == log[k].proposal.firstSendAt + fleet.configs[i].renewDeadline
  }

  // The done channel is closed exactly when the lease is retired; a live lease's timer is set for its own deadline.
  ghost predicate RetirementOk(lease: LeaseState) {
    && lease.doneClosed == (if lease.retired.Some? then 1 else 0)
    && lease.timer == (if lease.retired.Some? then None else Some(lease.validUntil))
  }

  ghost predicate LeaseOk(fleet: Fleet, log: seq<Commit>, i: nat, lease: LeaseState)
    requires FleetOk(fleet) && i < |fleet.configs|
  {
    RetirementOk(lease) && exists k :: Backed(fleet, log, i, lease, k)
  }

  ghost predicate EpochsUpTo(c: Client, epoch: int) {
    forall l :: 0 <= l < |c.leases| ==> c.leases[l].epochID <= epoch
  }

  ghost predicate LeasesOk(fleet: Fleet, log: seq<Commit>, i: nat, c: Client)
    requires FleetOk(fleet) && i < |fleet.configs|
  {
    && (forall l :: 0 <= l < |c.leases| ==> LeaseOk(fleet, log, i, c.leases[l]))
    && (forall a, b :: 0 <= a < b < |c.leases| ==> c.leases[a].epochID < c.leases[b].epochID)
    && (c.leases != [] ==> c.observed.Some? && EpochsUpTo(c, c.observed.value.record.epochID))
  }

  // An observation an active lease survives: its own last confirmed record, or its next one.
  ghost predicate Sustains(r: Record, lease: LeaseState) {
    && r.uid == lease.leaseUID
    && r.clientID == lease.clientID
    && r.epochID == lease.epochID
    && (r.sequenceID == lease.sequenceID || r.sequenceID == lease.sequenceID + 1)
  }

  /** At most the newest lease is active; every other granted lease is retired. */
  ghost predicate ActiveOk(c: Client)
    requires WellFormed(c)
  {
    && (c.active.Some? ==>
          && c.active.value == |c.leases| - 1
          && c.leases[c.active.value].retired.None?
          && Sustains(c.observed.value.record, c.leases[c.active.value]))
    && (forall l :: 0 <= l < |c.leases| && c.leases[l].retired.None? ==> c.active == Some(l))
  }

  // A renewal or release is sent only under a lease of its epoch, one sequence ahead of it at most, and a release only once
  // that lease is retired.
  ghost predicate MutationSentOk(i: nat, c: Client, w: Write) {
    w.owner == i && w.proposal.kind != ProposalKind.Acquire ==>
      && w.proposal.acquired < |c.leases|
      && c.leases[w.proposal.acquired].epochID == w.proposal.record.epochID
      && w.proposal.record.sequenceID <= c.leases[w.proposal.acquired].sequenceID + 1
      && (w.proposal.kind == ProposalKind.Release ==> c.leases[w.proposal.acquired].retired.Some?)
  }

  ghost predicate MutationsOk(sent: set<Write>, i: nat, c: Client) {
    forall w :: w in sent ==> MutationSentOk(i, c, w)
  }

  // No other write of process i of this kind carries the same record.
  ghost predicate Sole(sent: set<Write>, i: nat, p: Proposal) {
    forall w :: w in sent && w.owner == i && w.proposal.kind == p.kind && w.proposal.record == p.record
                ==> w.proposal == p
  }

  /** A frozen renewal or release of the newest lease. */
  ghost predicate FrozenOk(fleet: Fleet, w: World, i: nat, c: Client, p: Proposal)
    requires FleetOk(fleet) && i < |fleet.configs|
  {
    && p.acquired == |c.leases| - 1
    && WriteOk(fleet, w.log, i, p)
    && p.firstSendAt <= Clock(fleet, i, w.now)
    && Sole(w.sent, i, p)
    && p.record.epochID == c.leases[p.acquired].epochID
    && p.record.sequenceID == c.leases[p.acquired].sequenceID + 1
    && p.authorityEnds == c.leases[p.acquired].validUntil
    && 0 < p.authorityEnds <= p.firstSendAt + fleet.configs[i].renewDeadline
    && (p.kind != ProposalKind.Renew ==> p.kind == ProposalKind.Release && c.leases[p.acquired].retired.Some?)
  }

  ghost predicate ClientOk(fleet: Fleet, w: World, i: nat, c: Client)
    requires FleetOk(fleet) && i < |fleet.configs|
  {
    && c.config == fleet.configs[i]
    && c.terminal.None?
    && WellFormed(c)
    && (c.observed.Some? ==> ObservedOk(fleet, w.log, i, c.observed.value))
    && LeasesOk(fleet, w.log, i, c)
    && ActiveOk(c)
    && MutationsOk(w.sent, i, c)
    && (c.pending.Some? ==> FrozenOk(fleet, w, i, c, c.pending.value))
  }

  // Nothing is held and nothing is unresolved: the state in which an acquisition proceeds.
  ghost predicate Free(c: Client) {
    c.active.None? && c.pending.None?
  }

  ghost predicate AcquisitionOk(fleet: Fleet, w: World, i: nat, c: Client, p: Proposal)
    requires FleetOk(fleet) && i < |fleet.configs|
  {
    && Free(c)
    && p.kind == ProposalKind.Acquire
    && p.authorityEnds == ZERO_TIME
    && WriteOk(fleet, w.log, i, p)
    && p.firstSendAt <= Clock(fleet, i, w.now)
    && EpochsUpTo(c, p.record.epochID - 1)
  }

  /** A snapshot shows the very commit that backs the newest lease. */
  ghost predicate SnapshotOk(fleet: Fleet, w: World, i: nat, c: Client, l: nat, s: Snapshot)
    requires FleetOk(fleet) && i < |fleet.configs|
  {
    && c.pending.None?
    && l == |c.leases| - 1
    && Backed(fleet, w.log, i, c.leases[l], s.expected)
    && s.record == Rec(w.log, s.expected)
    && s.authorityEnds == c.leases[l].validUntil
  }

  ghost predicate NoReleaseSent(sent: set<Write>, i: nat, epoch: nat) {
    forall w :: w in sent && w.owner == i && w.proposal.kind == ProposalKind.Release ==> w.proposal.record.epochID != epoch
  }

  ghost predicate PhaseOk(fleet: Fleet, w: World, i: nat, c: Client, phase: Phase)
    requires FleetOk(fleet) && i < |fleet.configs|
  {
    match phase
    case Idle => true
    case RequirePrepared => Free(c)
    case RequireReading(_) => Free(c)
    case RequireRead(found) =>
      && Free(c)
      && (found.None? ==> c.leases == [])
      && (found.Some? ==>
            && ObservedOk(fleet, w.log, i, found.value)
            && EpochsUpTo(c, found.value.record.epochID))
    case AcquireFrozen(p) => AcquisitionOk(fleet, w, i, c, p)
    case AcquireSent(p) => AcquisitionOk(fleet, w, i, c, p)
    case AcquireReplied(p, v) => AcquisitionOk(fleet, w, i, c, p) && CommittedAt(w.log, i, p, v)
    case RenewAdmitted(l) => c.pending.None? && l < |c.leases|
    case RenewBegun(l, s) => SnapshotOk(fleet, w, i, c, l, s)
    case RenewBuilt(p) => c.pending.None? && p.kind == ProposalKind.Renew && FrozenOk(fleet, w, i, c, p)
    case ReleaseAdmitted(l) => c.pending.None? && l < |c.leases|
    case ReleaseBegun(l, s) =>
      && SnapshotOk(fleet, w, i, c, l, s)
      && c.leases[l].retired.Some?
      && NoReleaseSent(w.sent, i, c.leases[l].epochID)
    case ReleaseBuilt(p) => c.pending.None? && p.kind == ProposalKind.Release && FrozenOk(fleet, w, i, c, p)
    case PendingReady(p) => c.pending == Some(p)
    case PendingSent(p) => c.pending == Some(p)
    case PendingReplied(p, v) => c.pending == Some(p) && CommittedAt(w.log, i, p, v)
    case Reconciling(p, _) => c.pending == Some(p)
    case ReconcileReading(p, _, _) => c.pending == Some(p)
    case ReconcileRead(p, o, _) => c.pending == Some(p) && ObservedOk(fleet, w.log, i, o)
  }

  /** A read that nothing newer has superseded returned a commit no older than the one observed. */
  ghost predicate ReadOk(w: World, c: Client, r: Read) {
    && r.startGen <= c.generation
    && (r.fetched.Some? ==>
          var f := r.fetched.value;
          && f.at <= w.now
          && match f.reply
             case Object(record, v) =>
               && v < |w.log|
               && record == Rec(w.log, v)
               && w.log[v].at <= f.at
               && (r.startGen == c.generation && c.observed.Some? ==> c.observed.value.version <= v)
             case Missing => r.startGen == c.generation ==> c.observed.None?
             case Failed(e) => e != NotFound
             case _ => false)
  }

  ghost predicate ReadsOk(w: World, c: Client, readOps: seq<Read>) {
    forall r :: 0 <= r < |readOps| ==> ReadOk(w, c, readOps[r])
  }

  ghost predicate ProcessOk(fleet: Fleet, w: World, i: nat, p: Process)
    requires FleetOk(fleet) && i < |fleet.configs|
  {
    && ClientOk(fleet, w, i, p.client)
    && PhaseOk(fleet, w, i, p.client, p.phase)
    && ReadsOk(w, p.client, p.readOps)
  }

  ghost predicate SentOk(fleet: Fleet, w: World, x: Write)
    requires FleetOk(fleet)
  {
    WriteOk(fleet, w.log, x.owner, x.proposal) && SentAt(fleet, x.owner, x.proposal) <= w.now
  }

  ghost predicate CommitOk(w: World, k: nat)
    requires k < |w.log|
  {
    w.log[k].at <= w.now && Write(w.log[k].owner, w.log[k].proposal) in w.sent
  }

  /** Writes in flight are permitted ones, and everything committed was sent. */
  ghost predicate WorldOk(fleet: Fleet, w: World)
    requires FleetOk(fleet)
  {
    && w.now >= 0
    && LogOk(fleet, w.log)
    && (forall x :: x in w.sent ==> SentOk(fleet, w, x))
    && (forall k :: 0 <= k < |w.log| ==> CommitOk(w, k))
  }

  ghost predicate SystemOk(fleet: Fleet, s: System) {
    && FleetOk(fleet)
    && |s.procs| == |fleet.configs|
    && WorldOk(fleet, WorldOf(s))
    && (forall i :: 0 <= i < |s.procs| ==> ProcessOk(fleet, WorldOf(s), i, s.procs[i]))
  }
}
