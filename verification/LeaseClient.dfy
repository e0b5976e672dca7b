/**
 The state of one lease client as a value, and what each lock-protected block of the client does to it.
 Object identity is kept as numbers: a lease is its position among the leases the client was granted, a proposal
 carries its own number, and `generation` counts the observations installed so far.
 */
module LeaseClient {
  import opened Basics
  import opened LeaseRecords

  // An opaque storage version: it names one committed write and is only ever compared for equality.
  type Version = nat

  datatype Observed = Observed(record: Record, version: Version, unchangedSince: Time, lastReadAt: Time)

  datatype LeaseState = LeaseState(
    leaseUID: string,
    clientID: string,
    epochID: nat,
    sequenceID: nat,
    validUntil: Time,
    retired: Option<Error>,
    doneClosed: nat,        // how many times the done channel was closed
    timer: Option<Time>)    // deadline of the installed expiry timer

  datatype ProposalKind = Acquire | Renew | Release

  datatype Proposal = Proposal(
    id: nat,
    kind: ProposalKind,
    acquired: nat,             // lease being renewed or released
    record: Record,
    expected: Option<Version>, // None: create if absent
    firstSendAt: Time,
    authorityEnds: Time)

  datatype Client = Client(
    config: Config,
    observed: Option<Observed>,
    generation: nat,
    active: Option<nat>,
    pending: Option<Proposal>,
    terminal: Option<Error>,
    leases: seq<LeaseState>)

  // What a read of the object returned.
  datatype ReadReply =
    | Object(record: Record, version: Version)
    | Missing
    | Failed(error: Error)
    | VersionOmitted
    | Undecodable

  // What was copied out of the client under the lock before a renewal or release is built.
  datatype Snapshot = Snapshot(record: Record, expected: Version, authorityEnds: Time)

  datatype Verdict = Confirms(version: Version) | Loses | Unresolved

  /** References the client follows are never dangling or nil. */
  predicate WellFormed(c: Client) {
    && (c.generation > 0 <==> c.observed.Some?)
    && (c.active.Some? ==> c.active.value < |c.leases| && c.observed.Some?)
    && (c.pending.Some? ==> c.pending.value.acquired < |c.leases|)
  }

  function NewClient(config: Config): Client {
    Client(config, None, 0, None, None, None, [])
  }

  // core.go: authority ---------------------------------------------------------------------------------------------

  function RetireLease(c: Client, l: nat, cause: Error): Client
    requires l < |c.leases|
  {
    var lease := c.leases[l];
    if lease.retired.Some? then c
    else c.(leases := c.leases[l := lease.(retired := Some(cause), timer := None, doneClosed := lease.doneClosed + 1)],
            active := if c.active == Some(l) then None else c.active)
  }

  function InstallTimer(lease: LeaseState): LeaseState {
    lease.(timer := Some(lease.validUntil))
  }

  // The expiry callback of lease l running at local time now, however late or stale.
  function TimerFired(c: Client, l: nat, now: Time): Client
    requires l < |c.leases|
  {
    if c.active == Some(l) && c.leases[l].retired.None? && now >= c.leases[l].validUntil
    then RetireLease(c, l, LeaseExpired)
    else c
  }

  function Check(c: Client, l: nat, now: Time): (Client, Option<Error>)
    requires l < |c.leases|
  {
    var lease := c.leases[l];
    if lease.retired.Some? then (c, lease.retired)
    else if c.active != Some(l) then (c, Some(InvalidLease))
    else if now >= lease.validUntil then (RetireLease(c, l, LeaseExpired), Some(LeaseExpired))
    else (c, None)
  }

  function SetTerminal(c: Client, err: Error): Client
    requires WellFormed(c)
  {
    if c.terminal.Some? then c
    else
      var stopped := c.(terminal := Some(err));
      if c.active.Some? then RetireLease(stopped, c.active.value, OwnershipLost) else stopped
  }

  // operations.go: validation --------------------------------------------------------------------------------------

  function PhaseEnd(config: Config, p: Proposal): Time {
    var proposalEnd := p.firstSendAt + config.renewDeadline;
    if p.authorityEnds == ZERO_TIME || proposalEnd < p.authorityEnds then proposalEnd else p.authorityEnds
  }

  function AbandonExpired(c: Client, p: Proposal): Client
    requires p.acquired < |c.leases|
  {
    var cleared := ClearPending(c, p);
    if p.kind == Renew && c.leases[p.acquired].retired.None?
    then RetireLease(cleared, p.acquired, LeaseExpired)
    else cleared
  }

  function LosePending(c: Client, p: Proposal): Client
    requires p.acquired < |c.leases|
  {
    var cleared := ClearPending(c, p);
    if p.kind == Renew && c.leases[p.acquired].retired.None?
    then RetireLease(cleared, p.acquired, OwnershipLost)
    else cleared
  }

  function ClearPending(c: Client, p: Proposal): Client {
    if c.pending == Some(p) then c.(pending := None) else c
  }

  // Expiry first: an active lease past its deadline, then a proposal past its phase end.
  function DropExpired(c: Client, now: Time): Client
    requires WellFormed(c)
  {
    var c1 := if c.active.Some? && c.leases[c.active.value].retired.None?
                 && now >= c.leases[c.active.value].validUntil
              then RetireLease(c, c.active.value, LeaseExpired) else c;
    if c1.pending.Some? && now >= PhaseEnd(c1.config, c1.pending.value)
    then AbandonExpired(c1, c1.pending.value)
    else c1
  }

  function PrepareRequire(c: Client, now: Time): (Client, Option<Error>)
    requires WellFormed(c)
  {
    if c.terminal.Some? then (c, c.terminal)
    else
      var c1 := DropExpired(c, now);
      if c1.active.Some? then (c1, Some(AlreadyHeld))
      else if c1.pending.Some? then (c1, Some(UnknownOutcome))
      else (c1, None)
  }

  function PendingFor(c: Client, l: nat, kind: ProposalKind): Result<Option<Proposal>, Error> {
    if c.terminal.Some? then Err(c.terminal.value)
    else if c.pending.Some? then
      if c.pending.value.acquired != l || c.pending.value.kind != kind then Err(InvalidLease)
      else Ok(c.pending)
    else Ok(None)
  }

  // The observed record is still the one the lease was last confirmed with.
  predicate StillOwned(r: Record, lease: LeaseState) {
    && r.uid == lease.leaseUID
    && r.clientID == lease.clientID
    && r.epochID == lease.epochID
    && r.sequenceID == lease.sequenceID
  }

  function ValidateActive(c: Client, l: nat, now: Time): (Client, Option<Error>)
    requires WellFormed(c) && l < |c.leases|
  {
    var lease := c.leases[l];
    if c.terminal.Some? then (c, c.terminal)
    else if lease.retired.Some? then (c, lease.retired)
    else if c.active != Some(l) then (c, Some(InvalidLease))
    else if now >= lease.validUntil then (RetireLease(c, l, LeaseExpired), Some(LeaseExpired))
    else if !StillOwned(c.observed.value.record, lease) then
      (RetireLease(c, l, OwnershipLost), Some(OwnershipLost))
    else (c, None)
  }

  // operations.go: observation -------------------------------------------------------------------------------------

  function RetireIfObservationLost(c: Client, record: Record): Client
    requires WellFormed(c)
  {
    if c.active.None? || c.leases[c.active.value].retired.Some? then c
    else
      var l := c.active.value;
      var lease := c.leases[l];
      if record.uid != lease.leaseUID || record.clientID != lease.clientID || record.epochID != lease.epochID then
        RetireLease(c, l, OwnershipLost)
      else if record.sequenceID == lease.sequenceID then c
      else if c.pending.Some? && c.pending.value.kind == Renew && c.pending.value.acquired == l
              && record == c.pending.value.record then c
      else RetireLease(c, l, OwnershipLost)
  }

  function Install(c: Client, o: Observed): Client {
    c.(observed := Some(o), generation := c.generation + 1)
  }

  // The locked half of readCurrent for a read that started when `startGen` observations had been installed.
  function FinishRead(c: Client, startGen: nat, reply: ReadReply, readAt: Time): (Client, Result<Observed, Error>)
    requires WellFormed(c) && startGen <= c.generation
  {
    if c.terminal.Some? then (c, Err(c.terminal.value))
    else if c.generation != startGen then (c, Ok(c.observed.value))
    else
      match reply
      case Missing =>
        if c.observed.Some? then (SetTerminal(c, LeaseDisappeared), Err(LeaseDisappeared)) else (c, Err(NotFound))
      case Failed(e) => (c, Err(e))
      case VersionOmitted => (SetTerminal(c, ProtocolViolation), Err(ProtocolViolation))
      case Undecodable => (SetTerminal(c, ProtocolViolation), Err(ProtocolViolation))
      case Object(record, version) =>
        if !Acceptable(c.observed, record, version) then
          (SetTerminal(c, ProtocolViolation), Err(ProtocolViolation))
        else
          var since :=
            if c.observed.Some? && c.observed.value.version == version then c.observed.value.unchangedSince
            else readAt;
          var o := Observed(record, version, since, readAt);
          (RetireIfObservationLost(Install(c, o), record), Ok(o))
  }

  // A read body decodes, and neither rolls back nor contradicts what was observed before.
  predicate Acceptable(observed: Option<Observed>, record: Record, version: Version) {
    && ValidRecord(record)
    && (observed.Some? ==>
          && RecordsCompatible(observed.value.record, record)
          && (observed.value.version == version ==> observed.value.record == record))
  }

  predicate Eligible(o: Observed, now: Time) {
    o.record.clientID == "" || now - o.unchangedSince >= Advertised(o.record)
  }

  // operations.go: acquisition -------------------------------------------------------------------------------------

  // The record Require proposes after its read: a create when nothing was found, else a takeover.
  function ProposeAcquisition(config: Config, current: Option<Observed>, uid: string, now: Time, wall: Time)
    : Result<Record, Error>
    requires config.leaseDuration > 0
  {
    match current
    case None => Ok(InitialRecord(config, uid, wall))
    case Some(o) => if !Eligible(o, now) then Err(NotEligible) else AcquisitionRecord(o.record, config, wall)
  }

  function AcquisitionProposal(id: nat, current: Option<Observed>, record: Record, firstSendAt: Time): Proposal {
    Proposal(id, Acquire, 0, record, if current.Some? then Some(current.value.version) else None, firstSendAt,
             ZERO_TIME)
  }

  // A newer or different observation already supersedes the acquisition.
  predicate Superseded(observed: Option<Observed>, record: Record, version: Version) {
    && observed.Some?
    && (|| observed.value.record.uid != record.uid
        || Before(record, observed.value.record)
        || (&& observed.value.record.epochID == record.epochID
            && observed.value.record.sequenceID == record.sequenceID
            && (observed.value.record != record || observed.value.version != version)))
  }

  function ConfirmAcquisition(c: Client, p: Proposal, version: Version, now: Time, canceled: bool)
    : (Client, Result<nat, Error>)
  {
    var deadline := PhaseEnd(c.config, p);
    if c.terminal.Some? then (c, Err(c.terminal.value))
    else if canceled || now >= deadline then (c, Err(UnknownOutcome))
    else if Superseded(c.observed, p.record, version) then (c, Err(OwnershipLost))
    else
      var lease := InstallTimer(LeaseState(p.record.uid, c.config.clientID, p.record.epochID, p.record.sequenceID,
                                           deadline, None, 0, None));
      (Install(c, Observed(p.record, version, p.firstSendAt, LastReadAt(c)))
         .(active := Some(|c.leases|), leases := c.leases + [lease]),
       Ok(|c.leases|))
  }

  function LastReadAt(c: Client): Time {
    if c.observed.Some? then c.observed.value.lastReadAt else ZERO_TIME
  }

  // operations.go: renewal and release -----------------------------------------------------------------------------

  function TakeSnapshot(c: Client, l: nat): Snapshot
    requires c.observed.Some? && l < |c.leases|
  {
    Snapshot(c.observed.value.record, c.observed.value.version, c.leases[l].validUntil)
  }

  function BeginRenew(c: Client, l: nat, now: Time): (Client, Result<Snapshot, Error>)
    requires WellFormed(c) && l < |c.leases|
  {
    var (c1, err) := ValidateActive(c, l, now);
    if err.Some? then (c1, Err(err.value)) else (c1, Ok(TakeSnapshot(c1, l)))
  }

  function RenewalProposal(id: nat, l: nat, s: Snapshot, wall: Time, firstSendAt: Time): Result<Proposal, Error> {
    match RenewalRecord(s.record, wall)
    case Err(e) => Err(e)
    case Ok(next) => Ok(Proposal(id, Renew, l, next, Some(s.expected), firstSendAt, s.authorityEnds))
  }

  function InstallRenewal(c: Client, p: Proposal, now: Time): (Client, Option<Error>)
    requires WellFormed(c) && p.acquired < |c.leases|
  {
    var (c1, err) := ValidateActive(c, p.acquired, now);
    if err.Some? then (c1, err) else (c1.(pending := Some(p)), None)
  }

  // Release retires the lease before it builds anything.
  function BeginRelease(c: Client, l: nat, now: Time): (Client, Result<Snapshot, Error>)
    requires WellFormed(c) && l < |c.leases|
  {
    var (c1, err) := ValidateActive(c, l, now);
    if err.Some? then (c1, Err(err.value)) else (RetireLease(c1, l, LeaseRetired), Ok(TakeSnapshot(c1, l)))
  }

  function ReleaseProposal(id: nat, l: nat, s: Snapshot, wall: Time, firstSendAt: Time): Result<Proposal, Error> {
    match ReleaseRecord(s.record, wall)
    case Err(e) => Err(e)
    case Ok(next) => Ok(Proposal(id, Release, l, next, Some(s.expected), firstSendAt, s.authorityEnds))
  }

  function Readback(p: Proposal, current: Observed): Verdict {
    if current.record == p.record then Confirms(current.version)
    else if Some(current.version) != p.expected then Loses
    else Unresolved
  }

  predicate RenewalTooLate(c: Client, p: Proposal, now: Time)
    requires p.acquired < |c.leases|
  {
    || c.pending != Some(p)
    || c.active != Some(p.acquired)
    || c.leases[p.acquired].retired.Some?
    || now >= p.authorityEnds
    || now >= p.firstSendAt + c.config.renewDeadline
  }

  function ConfirmRenewal(c: Client, p: Proposal, version: Version, now: Time): (Client, Option<Error>)
    requires WellFormed(c) && p.acquired < |c.leases|
  {
    if RenewalTooLate(c, p, now) then
      var cleared := ClearPending(c, p);
      (if c.leases[p.acquired].retired.None? then RetireLease(cleared, p.acquired, LeaseExpired) else cleared,
       Some(LeaseExpired))
    else
      var lease := c.leases[p.acquired].(sequenceID := p.record.sequenceID,
                                         validUntil := p.firstSendAt + c.config.renewDeadline);
      (Install(c, Observed(p.record, version, p.firstSendAt, c.observed.value.lastReadAt))
         .(pending := None, leases := c.leases[p.acquired := InstallTimer(lease)]),
       None)
  }

  function ConfirmRelease(c: Client, p: Proposal, version: Version): (Client, Option<Error>) {
    if c.pending != Some(p) then (c, Some(InvalidLease))
    else (Install(c, Observed(p.record, version, p.firstSendAt, LastReadAt(c))).(pending := None), None)
  }
}
