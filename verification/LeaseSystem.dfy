/**
 Any number of client processes sharing one object, as a state machine. Each lock-protected block of an operation, each
 storage request, each storage commit and each reply is a step of its own, so operations, reads and expiry callbacks
 interleave freely. A request that was sent may commit at any later time, or never, whatever its sender was told.
 */
module LeaseSystem {
  import opened Basics
  import opened LeaseRecords
  import opened LeaseClient

  // One committed write: version k of the object is the k-th commit.
  datatype Commit = Commit(owner: nat, proposal: Proposal, at: Time)

  // A conditional write some process has sent.
  datatype Write = Write(owner: nat, proposal: Proposal)

  // Process i runs with configs[i] on a clock that is offsets[i] ahead of global time. Nothing relates two entries.
  datatype Fleet = Fleet(configs: seq<Config>, offsets: seq<Time>)

  datatype Read = Read(startGen: nat, fetched: Option<Fetch>, done: bool)
  datatype Fetch = Fetch(reply: ReadReply, at: Time)

  // Where the process's current Require, Renew or Release stands. Only one of them runs at a time.
  datatype Phase =
    | Idle
    | RequirePrepared
    | RequireReading(read: nat)
    | RequireRead(found: Option<Observed>)
    | AcquireFrozen(proposal: Proposal)
    | AcquireSent(proposal: Proposal)
    | AcquireReplied(proposal: Proposal, version: Version)
    | RenewAdmitted(lease: nat)
    | RenewBegun(lease: nat, snapshot: Snapshot)
    | RenewBuilt(proposal: Proposal)
    | ReleaseAdmitted(lease: nat)
    | ReleaseBegun(lease: nat, snapshot: Snapshot)
    | ReleaseBuilt(proposal: Proposal)
    | PendingReady(proposal: Proposal)
    | PendingSent(proposal: Proposal)
    | PendingReplied(proposal: Proposal, version: Version)
    | Reconciling(proposal: Proposal, afterConflict: bool)
    | ReconcileReading(proposal: Proposal, read: nat, afterConflict: bool)
    | ReconcileRead(proposal: Proposal, current: Observed, afterConflict: bool)

  datatype Process = Process(client: Client, readOps: seq<Read>, phase: Phase, frozen: nat)

  datatype System = System(now: Time, log: seq<Commit>, sent: set<Write>, procs: seq<Process>)

  // The part of the system a process step may look at besides itself.
  datatype World = World(now: Time, log: seq<Commit>, sent: set<Write>)

  datatype WriteReply = Committed(version: Version) | OutcomeUnknown | Rejected | OtherFailure

  datatype Event =
    | Require
    | StartRequireRead
    | FreezeAcquisition(eligibleAt: Time, wall: Time, uid: string)
    | SendAcquisition
    | AcquisitionReply(reply: WriteReply)
    | ConfirmAcquired(canceled: bool)
    | Renew(lease: nat)
    | ValidateRenewal
    | BuildRenewal(wall: Time)
    | FreezeRenewal
    | Release(lease: nat)
    | ValidateRelease
    | BuildRelease(wall: Time)
    | FreezeRelease
    | SendPending
    | RefusePending(checkedAt: Time)
    | PendingReply(reply: WriteReply)
    | ConfirmPending
    | ReconcileExpired
    | StartReconcileRead(checkedAt: Time)
    | ResolveReadback
    | Observe
    | FetchObject(read: nat)
    | FetchFails(read: nat, error: Error)
    | FinishReading(read: nat, readAt: Time)
    | FireTimer(lease: nat)
    | CheckLease(lease: nat)
    | Abort

  datatype Step = Tick(duration: nat) | Deliver(write: Write) | Local(process: nat, event: Event)

  function WorldOf(s: System): World {
    World(s.now, s.log, s.sent)
  }

  function CurrentVersion(log: seq<Commit>): Option<Version> {
    if log == [] then None else Some(|log| - 1)
  }

  function Get(log: seq<Commit>): ReadReply {
    if log == [] then Missing else Object(log[|log| - 1].proposal.record, |log| - 1)
  }

  /** Version v of the object is exactly process i's write p. */
  predicate CommittedAt(log: seq<Commit>, i: nat, p: Proposal, v: Version) {
    v < |log| && log[v].owner == i && log[v].proposal == p
  }

  // Environment assumption: no renewal process i has already sent carries this very record.
  predicate FreshRenewal(sent: set<Write>, i: nat, record: Record) {
    forall w :: w in sent && w.owner == i && w.proposal.kind == ProposalKind.Renew ==> w.proposal.record != record
  }

  predicate FleetOk(fleet: Fleet) {
    && |fleet.configs| == |fleet.offsets|
    && (forall i :: 0 <= i < |fleet.configs| ==> ValidConfig(fleet.configs[i]))
    && (forall i :: 0 <= i < |fleet.offsets| ==> fleet.offsets[i] > 0)
  }

  // The local clock of process i. Clocks never show the zero time.
  function Clock(fleet: Fleet, i: nat, now: Time): Time
    requires i < |fleet.offsets|
  {
    now + fleet.offsets[i]
  }

  // What a step of process i puts on the wire.
  function Emitted(i: nat, p: Process, e: Event): set<Write> {
    match (e, p.phase)
    case (SendAcquisition, AcquireFrozen(q)) => {Write(i, q)}
    case (SendPending, PendingReady(q)) => {Write(i, q)}
    case _ => {}
  }

  // Process i answers a write request; a success reply names the version that this very write became.
  predicate ReplyPossible(log: seq<Commit>, i: nat, p: Proposal, reply: WriteReply) {
    reply.Committed? ==> CommittedAt(log, i, p, reply.version)
  }

  // The caller of a finished read carries on with its result.
  function AfterRead(phase: Phase, r: nat, result: Result<Observed, Error>): Phase {
    match phase
    case RequireReading(read) =>
      if read != r then phase
      else if result.Ok? then RequireRead(Some(result.value))
      else if result.error == NotFound then RequireRead(None)
      else Idle
    case ReconcileReading(q, read, afterConflict) =>
      if read != r then phase
      else if result.Ok? then ReconcileRead(q, result.value, afterConflict)
      else Idle
    case _ => phase
  }

  // Enabling condition and effect of each event, for process i in state p whose clock shows `now` ----------------------

  predicate RequireStep(now: Time, p: Process, p': Process)
    requires WellFormed(p.client)
  {
    && p.phase.Idle?
    && var (c', err) := PrepareRequire(p.client, now);
       p' == p.(client := c', phase := if err.Some? then Idle else RequirePrepared)
  }

  // readCurrent remembers which observation it started from.
  function BeginRead(p: Process): Process {
    p.(readOps := p.readOps + [Read(p.client.generation, None, false)])
  }

  predicate StartRequireReadStep(p: Process, p': Process) {
    && p.phase.RequirePrepared?
    && p.client.terminal.None?
    && p' == BeginRead(p).(phase := RequireReading(|p.readOps|))
  }

  // Eligibility was evaluated at eligibleAt, no later than the stamped first-send time `now`.
  predicate FreezeAcquisitionStep(now: Time, p: Process, eligibleAt: Time, wall: Time, uid: string, p': Process)
    requires p.client.config.leaseDuration > 0
  {
    && p.phase.RequireRead?
    && eligibleAt <= now
    && wall != ZERO_TIME
    && uid != ""
    && match ProposeAcquisition(p.client.config, p.phase.found, uid, eligibleAt, wall)
       case Err(_) => p' == p.(phase := Idle)
       case Ok(record) =>
         p' == p.(phase := AcquireFrozen(AcquisitionProposal(p.frozen, p.phase.found, record, now)),
                  frozen := p.frozen + 1)
  }

  predicate SendAcquisitionStep(p: Process, p': Process) {
    p.phase.AcquireFrozen? && p' == p.(phase := AcquireSent(p.phase.proposal))
  }

  predicate AcquisitionReplyStep(log: seq<Commit>, i: nat, p: Process, reply: WriteReply, p': Process) {
    && p.phase.AcquireSent?
    && ReplyPossible(log, i, p.phase.proposal, reply)
    && p' == p.(phase := if reply.Committed? then AcquireReplied(p.phase.proposal, reply.version) else Idle)
  }

  predicate ConfirmAcquiredStep(now: Time, p: Process, canceled: bool, p': Process) {
    && p.phase.AcquireReplied?
    && p' == p.(client := ConfirmAcquisition(p.client, p.phase.proposal, p.phase.version, now, canceled).0,
                phase := Idle)
  }

  predicate RenewStep(p: Process, l: nat, p': Process) {
    && p.phase.Idle?
    && l < |p.client.leases|
    && p' == p.(phase := match PendingFor(p.client, l, ProposalKind.Renew)
                         case Err(_) => Idle
                         case Ok(None) => RenewAdmitted(l)
                         case Ok(Some(q)) => Reconciling(q, false))
  }

  predicate ValidateRenewalStep(now: Time, p: Process, p': Process)
    requires WellFormed(p.client)
  {
    && p.phase.RenewAdmitted?
    && p.phase.lease < |p.client.leases|
    && var (c', r) := BeginRenew(p.client, p.phase.lease, now);
       p' == p.(client := c', phase := if r.Ok? then RenewBegun(p.phase.lease, r.value) else Idle)
  }

  predicate BuildRenewalStep(now: Time, sent: set<Write>, i: nat, p: Process, wall: Time, p': Process) {
    && p.phase.RenewBegun?
    && wall != ZERO_TIME
    && match RenewalProposal(p.frozen, p.phase.lease, p.phase.snapshot, wall, now)
       case Err(_) => p' == p.(phase := Idle)
       case Ok(q) => FreshRenewal(sent, i, q.record) && p' == p.(phase := RenewBuilt(q), frozen := p.frozen + 1)
  }

  predicate FreezeRenewalStep(now: Time, p: Process, p': Process)
    requires WellFormed(p.client)
  {
    && p.phase.RenewBuilt?
    && p.phase.proposal.acquired < |p.client.leases|
    && var (c', err) := InstallRenewal(p.client, p.phase.proposal, now);
       p' == p.(client := c', phase := if err.Some? then Idle else PendingReady(p.phase.proposal))
  }

  predicate ReleaseStep(p: Process, l: nat, p': Process) {
    && p.phase.Idle?
    && l < |p.client.leases|
    && p' == p.(phase := match PendingFor(p.client, l, ProposalKind.Release)
                         case Err(_) => Idle
                         case Ok(None) => ReleaseAdmitted(l)
                         case Ok(Some(q)) => Reconciling(q, false))
  }

  predicate ValidateReleaseStep(now: Time, p: Process, p': Process)
    requires WellFormed(p.client)
  {
    && p.phase.ReleaseAdmitted?
    && p.phase.lease < |p.client.leases|
    && var (c', r) := BeginRelease(p.client, p.phase.lease, now);
       p' == p.(client := c', phase := if r.Ok? then ReleaseBegun(p.phase.lease, r.value) else Idle)
  }

  predicate BuildReleaseStep(now: Time, p: Process, wall: Time, p': Process) {
    && p.phase.ReleaseBegun?
    && wall != ZERO_TIME
    && match ReleaseProposal(p.frozen, p.phase.lease, p.phase.snapshot, wall, now)
       case Err(_) => p' == p.(phase := Idle)
       case Ok(q) => p' == p.(phase := ReleaseBuilt(q), frozen := p.frozen + 1)
  }

  predicate FreezeReleaseStep(p: Process, p': Process) {
    && p.phase.ReleaseBuilt?
    && p' == p.(client := p.client.(pending := Some(p.phase.proposal)), phase := PendingReady(p.phase.proposal))
  }

  predicate SendPendingStep(p: Process, p': Process) {
    p.phase.PendingReady? && p' == p.(phase := PendingSent(p.phase.proposal))
  }

  // The request context is refused before anything is sent; the clock is read before the lock is taken.
  predicate RefusePendingStep(now: Time, p: Process, checkedAt: Time, p': Process) {
    && p.phase.PendingReady?
    && p.phase.proposal.acquired < |p.client.leases|
    && checkedAt <= now
    && var q := p.phase.proposal;
       p' == p.(client := if checkedAt >= PhaseEnd(p.client.config, q) then AbandonExpired(p.client, q)
                          else ClearPending(p.client, q),
                phase := Idle)
  }

  predicate PendingReplyStep(log: seq<Commit>, i: nat, p: Process, reply: WriteReply, p': Process) {
    && p.phase.PendingSent?
    && ReplyPossible(log, i, p.phase.proposal, reply)
    && var q := p.phase.proposal;
       match reply
       case Committed(v) => p' == p.(phase := PendingReplied(q, v))
       case OutcomeUnknown => p' == p.(phase := Idle)
       case Rejected => p' == p.(phase := Reconciling(q, true))
       case OtherFailure => p' == p.(client := ClearPending(p.client, q), phase := Idle)
  }

  predicate ConfirmPendingStep(now: Time, p: Process, p': Process)
    requires WellFormed(p.client)
  {
    && p.phase.PendingReplied?
    && p.phase.proposal.acquired < |p.client.leases|
    && var (q, v) := (p.phase.proposal, p.phase.version);
       p' == p.(client := if q.kind == ProposalKind.Renew then ConfirmRenewal(p.client, q, v, now).0
                          else ConfirmRelease(p.client, q, v).0,
                phase := Idle)
  }

  predicate ReconcileExpiredStep(now: Time, p: Process, p': Process) {
    && p.phase.Reconciling?
    && p.phase.proposal.acquired < |p.client.leases|
    && now >= PhaseEnd(p.client.config, p.phase.proposal)
    && p' == p.(client := AbandonExpired(p.client, p.phase.proposal), phase := Idle)
  }

  predicate StartReconcileReadStep(now: Time, p: Process, checkedAt: Time, p': Process) {
    && p.phase.Reconciling?
    && p.client.terminal.None?
    && checkedAt <= now
    && checkedAt < PhaseEnd(p.client.config, p.phase.proposal)
    && p' == BeginRead(p).(phase := ReconcileReading(p.phase.proposal, |p.readOps|, p.phase.afterConflict))
  }

  predicate ResolveStep(p: Process, p': Process) {
    && p.phase.ReconcileRead?
    && p.phase.proposal.acquired < |p.client.leases|
    && var q := p.phase.proposal;
       match Readback(q, p.phase.current)
       case Confirms(v) => p' == p.(phase := PendingReplied(q, v))
       case Loses => p' == p.(client := LosePending(p.client, q), phase := Idle)
       case Unresolved => p' == p.(phase := if p.phase.afterConflict then Idle else PendingReady(q))
  }

  predicate ObserveStep(p: Process, p': Process) {
    p.client.terminal.None? && p' == BeginRead(p)
  }

  predicate FetchStep(p: Process, r: nat, fetch: Fetch, p': Process) {
    && r < |p.readOps|
    && p.readOps[r].fetched.None?
    && p' == p.(readOps := p.readOps[r := p.readOps[r].(fetched := Some(fetch))])
  }

  // readAt is a clock reading taken after the store answered.
  predicate FinishReadingStep(fleet: Fleet, i: nat, now: Time, p: Process, r: nat, readAt: Time, p': Process)
    requires WellFormed(p.client) && i < |fleet.offsets|
  {
    && r < |p.readOps|
    && !p.readOps[r].done
    && p.readOps[r].fetched.Some?
    && p.readOps[r].startGen <= p.client.generation
    && Clock(fleet, i, p.readOps[r].fetched.value.at) <= readAt <= now
    && var (c', result) := FinishRead(p.client, p.readOps[r].startGen, p.readOps[r].fetched.value.reply, readAt);
       p' == p.(client := c', readOps := p.readOps[r := p.readOps[r].(done := true)],
                phase := AfterRead(p.phase, r, result))
  }

  // An error ends the operation before anything of it is pending: a canceled request context, a failed encoding, or a
  // reconciliation read that cannot start.
  predicate AbortStep(p: Process, p': Process) {
    && (p.phase.RequirePrepared? || p.phase.RequireRead? || p.phase.AcquireFrozen? || p.phase.RenewBegun?
        || p.phase.ReleaseBegun? || p.phase.Reconciling?)
    && p' == p.(phase := Idle)
  }

  // The events of each part of an operation ----------------------------------------------------------------------------

  predicate ObservationNext(fleet: Fleet, w: World, i: nat, p: Process, e: Event, p': Process)
    requires WellFormed(p.client) && i < |fleet.offsets|
  {
    var now := Clock(fleet, i, w.now);
    match e
    case StartRequireRead => StartRequireReadStep(p, p')
    case StartReconcileRead(checkedAt) => StartReconcileReadStep(now, p, checkedAt, p')
    case Observe => ObserveStep(p, p')
    case FetchObject(r) => FetchStep(p, r, Fetch(Get(w.log), w.now), p')
    case FetchFails(r, err) => err != NotFound && FetchStep(p, r, Fetch(Failed(err), w.now), p')
    case FinishReading(r, readAt) => FinishReadingStep(fleet, i, now, p, r, readAt, p')
    case _ => false
  }

  predicate AcquisitionNext(fleet: Fleet, w: World, i: nat, p: Process, e: Event, p': Process)
    requires WellFormed(p.client) && p.client.config.leaseDuration > 0 && i < |fleet.offsets|
  {
    var now := Clock(fleet, i, w.now);
    match e
    case Require => RequireStep(now, p, p')
    case FreezeAcquisition(eligibleAt, wall, uid) => FreezeAcquisitionStep(now, p, eligibleAt, wall, uid, p')
    case AcquisitionReply(reply) => AcquisitionReplyStep(w.log, i, p, reply, p')
    case ConfirmAcquired(canceled) => ConfirmAcquiredStep(now, p, canceled, p')
    case Abort => AbortStep(p, p')
    case _ => false
  }

  predicate SendNext(p: Process, e: Event, p': Process) {
    match e
    case SendAcquisition => SendAcquisitionStep(p, p')
    case SendPending => SendPendingStep(p, p')
    case _ => false
  }

  predicate FreezeNext(fleet: Fleet, w: World, i: nat, p: Process, e: Event, p': Process)
    requires WellFormed(p.client) && i < |fleet.offsets|
  {
    var now := Clock(fleet, i, w.now);
    match e
    case Renew(l) => RenewStep(p, l, p')
    case ValidateRenewal => ValidateRenewalStep(now, p, p')
    case BuildRenewal(wall) => BuildRenewalStep(now, w.sent, i, p, wall, p')
    case FreezeRenewal => FreezeRenewalStep(now, p, p')
    case Release(l) => ReleaseStep(p, l, p')
    case ValidateRelease => ValidateReleaseStep(now, p, p')
    case BuildRelease(wall) => BuildReleaseStep(now, p, wall, p')
    case FreezeRelease => FreezeReleaseStep(p, p')
    case _ => false
  }

  predicate ResolutionNext(fleet: Fleet, w: World, i: nat, p: Process, e: Event, p': Process)
    requires WellFormed(p.client) && i < |fleet.offsets|
  {
    var now := Clock(fleet, i, w.now);
    match e
    case RefusePending(checkedAt) => RefusePendingStep(now, p, checkedAt, p')
    case PendingReply(reply) => PendingReplyStep(w.log, i, p, reply, p')
    case ConfirmPending => ConfirmPendingStep(now, p, p')
    case ReconcileExpired => ReconcileExpiredStep(now, p, p')
    case ResolveReadback => ResolveStep(p, p')
    case _ => false
  }

  predicate ExpiryNext(now: Time, p: Process, e: Event, p': Process) {
    match e
    case FireTimer(l) => l < |p.client.leases| && p' == p.(client := TimerFired(p.client, l, now))
    case CheckLease(l) => l < |p.client.leases| && p' == p.(client := Check(p.client, l, now).0)
    case _ => false
  }

  /** Process i at p can take event e and become p'. */
  predicate LocalNext(fleet: Fleet, w: World, i: nat, p: Process, e: Event, p': Process)
    requires i < |fleet.offsets|
  {
    && WellFormed(p.client)
    && p.client.config.leaseDuration > 0
    && (|| ObservationNext(fleet, w, i, p, e, p')
        || AcquisitionNext(fleet, w, i, p, e, p')
        || SendNext(p, e, p')
        || FreezeNext(fleet, w, i, p, e, p')
        || ResolutionNext(fleet, w, i, p, e, p')
        || ExpiryNext(Clock(fleet, i, w.now), p, e, p'))
  }

  predicate Init(fleet: Fleet, s: System) {
    && FleetOk(fleet)
    && s.now >= 0
    && s.log == []
    && s.sent == {}
    && |s.procs| == |fleet.configs|
    && (forall i :: 0 <= i < |s.procs| ==> s.procs[i] == Process(NewClient(fleet.configs[i]), [], Idle, 0))
  }

  predicate Next(fleet: Fleet, s: System, step: Step, s': System)
    requires |s.procs| == |fleet.offsets| == |fleet.configs|
  {
    match step
    case Tick(d) => s' == s.(now := s.now + d)
    case Deliver(w) =>
      && w in s.sent
      && w.proposal.expected == CurrentVersion(s.log)
      && s' == s.(log := s.log + [Commit(w.owner, w.proposal, s.now)])
    case Local(i, e) =>
      && i < |s.procs| == |s'.procs|
      && LocalNext(fleet, WorldOf(s), i, s.procs[i], e, s'.procs[i])
      && s' == s.(procs := s.procs[i := s'.procs[i]], sent := s.sent + Emitted(i, s.procs[i], e))
  }

  predicate StepAt(fleet: Fleet, run: seq<System>, steps: seq<Step>, k: nat)
    requires k < |steps| && |run| == |steps| + 1
  {
    && |run[k].procs| == |run[k + 1].procs| == |fleet.offsets| == |fleet.configs|
    && Next(fleet, run[k], steps[k], run[k + 1])
  }

  /** A finite run: states joined by steps, starting from an initial state. */
  predicate IsRun(fleet: Fleet, run: seq<System>, steps: seq<Step>) {
    && |run| == |steps| + 1
    && Init(fleet, run[0])
    && (forall k :: 0 <= k < |steps| ==> StepAt(fleet, run, steps, k))
  }
}
