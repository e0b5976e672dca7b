/**
 The client object and the objects it hands out. Each method is one lock-protected block; its contract ties the new state
 to the value-level block of LeaseClient. Clock readings, store replies and the error state of a request context are
 parameters.
 */
module LeaseCore {
  import opened Basics
  import opened LeaseRecords
  import opened LeaseClient

  /** Acquisition-scoped authority. Only the client that granted it changes it. */
  class Lease {
    ghost const id: nat
    const origin: Core
    const leaseUID: string
    const clientID: string
    const epochID: nat
    var sequenceID: nat
    var validUntil: Time
    var retired: Option<Error>
    var doneClosed: nat
    var stopTimer: Option<Time>

    constructor (origin: Core, ghost id: nat, leaseUID: string, clientID: string, epochID: nat, sequenceID: nat,
                 validUntil: Time)
      ensures this.origin == origin && this.id == id
      ensures Value() == LeaseState(leaseUID, clientID, epochID, sequenceID, validUntil, None, 0, None)
    {
      this.origin, this.id := origin, id;
      this.leaseUID, this.clientID, this.epochID := leaseUID, clientID, epochID;
      this.sequenceID, this.validUntil := sequenceID, validUntil;
      retired, doneClosed, stopTimer := None, 0, None;
    }

    ghost function Value(): LeaseState
      reads this
    {
      LeaseState(leaseUID, clientID, epochID, sequenceID, validUntil, retired, doneClosed, stopTimer)
    }
  }

  /** One installed observation; the client recognises a superseded read by the identity of this object. */
  class ObservedState {
    ghost const generation: nat
    const value: Observed

    constructor (ghost generation: nat, value: Observed)
      ensures this.generation == generation && this.value == value
    {
      this.generation, this.value := generation, value;
    }
  }

  /** A frozen proposal; resends and readbacks refer to this very object. */
  class FrozenProposal {
    ghost const id: nat
    const kind: ProposalKind
    const acquired: Lease?
    const record: Record
    const expected: Option<Version>
    const firstSendAt: Time
    const authorityEnds: Time

    constructor (ghost id: nat, kind: ProposalKind, acquired: Lease?, record: Record, expected: Option<Version>,
                 firstSendAt: Time, authorityEnds: Time)
      ensures this.id == id && this.acquired == acquired
      ensures Value() == Proposal(id, kind, if acquired == null then 0 else acquired.id, record, expected, firstSendAt,
                                  authorityEnds)
    {
      this.id, this.kind, this.acquired, this.record := id, kind, acquired, record;
      this.expected, this.firstSendAt, this.authorityEnds := expected, firstSendAt, authorityEnds;
    }

    ghost function Value(): Proposal {
      Proposal(id, kind, if acquired == null then 0 else acquired.id, record, expected, firstSendAt, authorityEnds)
    }
  }

  class Core {
    const config: Config
    var observed: ObservedState?
    var active: Lease?
    var pending: FrozenProposal?
    var terminal: Option<Error>

    // Everything this client ever granted, installed and froze, in order.
    ghost var granted: seq<Lease>
    ghost var installed: seq<ObservedState>
    ghost var frozen: seq<FrozenProposal>

    ghost predicate Mine(l: Lease)
      reads this
    {
      l.id < |granted| && granted[l.id] == l
    }

    ghost predicate Froze(p: FrozenProposal)
      reads this
    {
      p.id < |frozen| && frozen[p.id] == p
    }

    // Null, or an observation this client installed.
    ghost predicate WasObserved(o: ObservedState?)
      reads this
    {
      o != null ==> 0 < o.generation <= |installed| && installed[o.generation - 1] == o
    }

    ghost predicate Valid()
      reads this
    {
      && (forall k :: 0 <= k < |granted| ==> granted[k].id == k && granted[k].origin == this)
      && (forall k :: 0 <= k < |frozen| ==> frozen[k].id == k
                                            && (frozen[k].acquired == null || Mine(frozen[k].acquired)))
      && (forall k :: 0 <= k < |installed| ==> installed[k].generation == k + 1)
      && (if installed == [] then observed == null else observed == installed[|installed| - 1])
      && (active != null ==> Mine(active) && observed != null)
      && (pending != null ==> Froze(pending) && pending.acquired != null)
    }

    ghost function LeaseValues(): (s: seq<LeaseState>)
      reads this, granted
      ensures |s| == |granted|
    {
      seq(|granted|, k requires 0 <= k < |granted| reads this, granted => granted[k].Value())
    }

    ghost function State(): Client
      reads this, granted
    {
      Client(config,
             if observed == null then None else Some(observed.value),
             |installed|,
             if active == null then None else Some(active.id),
             if pending == null then None else Some(pending.Value()),
             terminal,
             LeaseValues())
    }

    // The histories only a grant, an installation or a freeze extends.
    twostate predicate SameHistory()
      reads this
    {
      granted == old(granted) && installed == old(installed) && frozen == old(frozen)
    }

    constructor (config: Config)
      ensures Valid() && State() == NewClient(config)
      ensures granted == [] && installed == [] && frozen == []
    {
      this.config := config;
      observed, active, pending, terminal := null, null, null, None;
      granted, installed, frozen := [], [], [];
    }

    // Authority ---------------------------------------------------------------------------------------------------------

    method RetireLeaseLocked(acquired: Lease, cause: Error)
      requires Valid() && Mine(acquired)
      modifies this`active, acquired
      ensures Valid() && SameHistory()
      ensures State() == RetireLease(old(State()), acquired.id, cause)
    {
      if acquired.retired.Some? { return; }
      acquired.retired := Some(cause);
      acquired.stopTimer := None;
      acquired.doneClosed := acquired.doneClosed + 1;
      if active == acquired { active := null; }
      OnlyChanged(acquired);
    }

    twostate lemma OnlyChanged(l: Lease)
      requires granted == old(granted) && old(Valid()) && old(Mine(l))
      requires forall k :: 0 <= k < |granted| && granted[k] != l ==> granted[k].Value() == old(granted[k].Value())
      ensures LeaseValues() == old(LeaseValues())[l.id := l.Value()]
    {
    }

    method TimerFires(acquired: Lease, now: Time)
      requires Valid() && Mine(acquired)
      modifies this`active, acquired
      ensures Valid() && SameHistory()
      ensures State() == TimerFired(old(State()), acquired.id, now)
    {
      if active == acquired && acquired.retired.None? && now >= acquired.validUntil {
        RetireLeaseLocked(acquired, LeaseExpired);
      }
    }

    // The check of a lease runs on the client that granted it.
    method CheckLease(acquired: Lease?, now: Time) returns (err: Option<Error>)
      requires Valid() && (acquired != null ==> Mine(acquired))
      modifies this`active, acquired
      ensures Valid() && SameHistory()
      ensures acquired == null ==> err == Some(InvalidLease) && State() == old(State())
      ensures acquired != null ==> (State(), err) == Check(old(State()), acquired.id, now)
    {
      if acquired == null {
        err := Some(InvalidLease);
      } else if acquired.retired.Some? {
        err := acquired.retired;
      } else if active != acquired {
        err := Some(InvalidLease);
      } else if now >= acquired.validUntil {
        RetireLeaseLocked(acquired, LeaseExpired);
        err := Some(LeaseExpired);
      } else {
        err := None;
      }
    }

    method SetTerminalLocked(cause: Error)
      requires Valid()
      modifies this`terminal, this`active, active
      ensures Valid() && SameHistory()
      ensures State() == SetTerminal(old(State()), cause)
    {
      if terminal.None? {
        terminal := Some(cause);
        if active != null { RetireLeaseLocked(active, OwnershipLost); }
      }
    }

    // Validation --------------------------------------------------------------------------------------------------------

    method ClearPendingProposal(p: FrozenProposal)
      requires Valid() && Froze(p)
      modifies this`pending
      ensures Valid() && SameHistory()
      ensures State() == ClearPending(old(State()), p.Value())
    {
      if pending == p { pending := null; }
    }

    method AbandonExpiredPending(p: FrozenProposal)
      requires Valid() && Froze(p) && p.acquired != null
      modifies this`pending, this`active, p.acquired
      ensures Valid() && SameHistory()
      ensures State() == AbandonExpired(old(State()), p.Value())
    {
      ClearPendingProposal(p);
      if p.kind == Renew && p.acquired.retired.None? { RetireLeaseLocked(p.acquired, LeaseExpired); }
    }

    method LosePendingProposal(p: FrozenProposal)
      requires Valid() && Froze(p) && p.acquired != null
      modifies this`pending, this`active, p.acquired
      ensures Valid() && SameHistory()
      ensures State() == LosePending(old(State()), p.Value())
    {
      ClearPendingProposal(p);
      if p.kind == Renew && p.acquired.retired.None? { RetireLeaseLocked(p.acquired, OwnershipLost); }
    }

    method PrepareToRequire(now: Time) returns (err: Option<Error>)
      requires Valid()
      modifies this`active, this`pending, granted
      ensures Valid() && SameHistory()
      ensures (State(), err) == PrepareRequire(old(State()), now)
    {
      if terminal.Some? { return terminal; }
      if active != null && active.retired.None? && now >= active.validUntil {
        RetireLeaseLocked(active, LeaseExpired);
      }
      if pending != null && now >= PhaseEnd(config, Frozen(pending)) { AbandonExpiredPending(pending); }
      if active != null { return Some(AlreadyHeld); }
      if pending != null { return Some(UnknownOutcome); }
      err := None;
    }

    // The proposal's own fields, for computing its phase end.
    static function Frozen(p: FrozenProposal): Proposal {
      Proposal(0, p.kind, 0, p.record, p.expected, p.firstSendAt, p.authorityEnds)
    }

    method FindPending(acquired: Lease?, kind: ProposalKind) returns (r: Result<FrozenProposal?, Error>)
      requires Valid() && (acquired != null && acquired.origin == this ==> Mine(acquired))
      ensures acquired == null || acquired.origin != this ==> r == Err(InvalidLease)
      ensures acquired != null && acquired.origin == this ==>
                match PendingFor(State(), acquired.id, kind)
                case Err(e) => r == Err(e)
                case Ok(None) => r == Ok(null)
                case Ok(Some(q)) => r == Ok(pending) && pending != null && pending.Value() == q
    {
      if acquired == null || acquired.origin != this { return Err(InvalidLease); }
      if terminal.Some? { return Err(terminal.value); }
      if pending != null {
        if pending.acquired != acquired || pending.kind != kind { return Err(InvalidLease); }
        return Ok(pending);
      }
      r := Ok(null);
    }

    method ValidateActiveLocked(acquired: Lease?, now: Time) returns (err: Option<Error>)
      requires Valid() && (acquired != null && acquired.origin == this ==> Mine(acquired))
      modifies this`active, acquired
      ensures Valid() && SameHistory()
      ensures acquired == null || acquired.origin != this ==> err == Some(InvalidLease) && State() == old(State())
      ensures acquired != null && acquired.origin == this ==>
                (State(), err) == ValidateActive(old(State()), acquired.id, now)
    {
      if acquired == null || acquired.origin != this { return Some(InvalidLease); }
      if terminal.Some? { return terminal; }
      if acquired.retired.Some? { return acquired.retired; }
      if active != acquired { return Some(InvalidLease); }
      if now >= acquired.validUntil {
        RetireLeaseLocked(acquired, LeaseExpired);
        return Some(LeaseExpired);
      }
      var r := observed.value.record;
      if r.uid != acquired.leaseUID || r.clientID != acquired.clientID || r.epochID != acquired.epochID
         || r.sequenceID != acquired.sequenceID {
        RetireLeaseLocked(acquired, OwnershipLost);
        return Some(OwnershipLost);
      }
      err := None;
    }

    // Observation -------------------------------------------------------------------------------------------------------

    method InstallLocked(o: Observed)
      requires Valid()
      modifies this`observed, this`installed
      ensures Valid() && granted == old(granted) && frozen == old(frozen)
      ensures old(installed) < installed && |installed| == |old(installed)| + 1
      ensures State() == Install(old(State()), o)
    {
      observed := new ObservedState(|installed| + 1, o);
      installed := installed + [observed];
      assert LeaseValues() == old(LeaseValues());
    }

    method RetireIfObservationLostLocked(record: Record)
      requires Valid()
      modifies this`active, active
      ensures Valid() && SameHistory()
      ensures State() == RetireIfObservationLost(old(State()), record)
    {
      if active == null || active.retired.Some? { return; }
      if record.uid != active.leaseUID || record.clientID != active.clientID || record.epochID != active.epochID {
        RetireLeaseLocked(active, OwnershipLost);
        return;
      }
      if record.sequenceID == active.sequenceID { return; }
      if pending != null && pending.kind == Renew && pending.acquired == active && record == pending.record { return; }
      RetireLeaseLocked(active, OwnershipLost);
    }

    // The locked half of a read that began while `startedFrom` was observed.
    method FinishReadLocked(startedFrom: ObservedState?, reply: ReadReply, readAt: Time)
      returns (r: Result<Observed, Error>)
      requires Valid() && WasObserved(startedFrom)
      modifies this`observed, this`installed, this`terminal, this`active, active
      ensures Valid() && granted == old(granted) && frozen == old(frozen) && old(installed) <= installed
      ensures (State(), r) == FinishRead(old(State()), if startedFrom == null then 0 else startedFrom.generation,
                                         reply, readAt)
    {
      if terminal.Some? { return Err(terminal.value); }
      if observed != startedFrom { return Ok(observed.value); }
      match reply
      case Missing =>
        if observed != null {
          SetTerminalLocked(LeaseDisappeared);
          return Err(LeaseDisappeared);
        }
        return Err(NotFound);
      case Failed(e) => return Err(e);
      case VersionOmitted =>
        SetTerminalLocked(ProtocolViolation);
        return Err(ProtocolViolation);
      case Undecodable =>
        SetTerminalLocked(ProtocolViolation);
        return Err(ProtocolViolation);
      case Object(record, version) =>
        var unchangedSince := readAt;
        var acceptable := ValidRecord(record);
        if acceptable && observed != null {
          acceptable := RecordsCompatible(observed.value.record, record);
          if acceptable && version == observed.value.version {
            acceptable := observed.value.record == record;
            unchangedSince := observed.value.unchangedSince;
          }
        }
        if !acceptable {
          SetTerminalLocked(ProtocolViolation);
          return Err(ProtocolViolation);
        }
        var o := Observed(record, version, unchangedSince, readAt);
        InstallLocked(o);
        RetireIfObservationLostLocked(record);
        return Ok(o);
    }

    // Acquisition, renewal, release -------------------------------------------------------------------------------------

    method Freeze(kind: ProposalKind, acquired: Lease?, record: Record, expected: Option<Version>, firstSendAt: Time,
                  authorityEnds: Time)
      returns (p: FrozenProposal)
      requires Valid() && (acquired != null ==> Mine(acquired))
      modifies this`frozen
      ensures Valid() && Froze(p) && p.acquired == acquired && State() == old(State())
      ensures granted == old(granted) && installed == old(installed) && frozen == old(frozen) + [p]
      ensures p.Value() == Proposal(|old(frozen)|, kind, if acquired == null then 0 else acquired.id, record, expected,
                                    firstSendAt, authorityEnds)
    {
      p := new FrozenProposal(|frozen|, kind, acquired, record, expected, firstSendAt, authorityEnds);
      frozen := frozen + [p];
      assert LeaseValues() == old(LeaseValues());
    }

    method ConfirmAcquired(p: FrozenProposal, version: Version, now: Time, canceled: bool)
      returns (r: Result<Lease, Error>)
      requires Valid() && Froze(p)
      modifies this`observed, this`installed, this`active, this`granted
      ensures Valid() && frozen == old(frozen) && old(granted) <= granted && old(installed) <= installed
      ensures var (c', spec) := ConfirmAcquisition(old(State()), p.Value(), version, now, canceled);
              && State() == c'
              && (match spec
                  case Err(e) => r == Err(e)
                  case Ok(id) => r.Ok? && Mine(r.value) && r.value.id == id && active == r.value)
    {
      if terminal.Some? { return Err(terminal.value); }
      var deadline := PhaseEnd(config, Frozen(p));
      if canceled || now >= deadline { return Err(UnknownOutcome); }
      var lastReadAt := ZERO_TIME;
      if observed != null {
        if Superseded(Some(observed.value), p.record, version) { return Err(OwnershipLost); }
        lastReadAt := observed.value.lastReadAt;
      }
      InstallLocked(Observed(p.record, version, p.firstSendAt, lastReadAt));
      var acquired := GrantLocked(p, deadline);
      r := Ok(acquired);
    }

    method GrantLocked(p: FrozenProposal, deadline: Time) returns (acquired: Lease)
      requires Valid() && observed != null
      modifies this`active, this`granted
      ensures Valid() && installed == old(installed) && frozen == old(frozen) && granted == old(granted) + [acquired]
      ensures Mine(acquired) && acquired.id == |old(granted)| && active == acquired && fresh(acquired)
      ensures var lease := InstallTimer(LeaseState(p.record.uid, config.clientID, p.record.epochID, p.record.sequenceID,
                                                   deadline, None, 0, None));
              State() == old(State()).(active := Some(acquired.id), leases := old(State()).leases + [lease])
    {
      acquired := new Lease(this, |granted|, p.record.uid, config.clientID, p.record.epochID, p.record.sequenceID,
                            deadline);
      acquired.stopTimer := Some(acquired.validUntil);
      granted := granted + [acquired];
      active := acquired;
      assert LeaseValues() == old(LeaseValues()) + [acquired.Value()];
    }

    method SnapshotForRenewal(acquired: Lease, now: Time) returns (r: Result<Snapshot, Error>)
      requires Valid() && Mine(acquired)
      modifies this`active, acquired
      ensures Valid() && SameHistory()
      ensures (State(), r) == BeginRenew(old(State()), acquired.id, now)
    {
      var err := ValidateActiveLocked(acquired, now);
      if err.Some? { return Err(err.value); }
      r := Ok(Snapshot(observed.value.record, observed.value.version, acquired.validUntil));
    }

    method SetPendingRenewal(p: FrozenProposal, now: Time) returns (err: Option<Error>)
      requires Valid() && Froze(p) && p.acquired != null
      modifies this`active, this`pending, p.acquired
      ensures Valid() && SameHistory()
      ensures (State(), err) == InstallRenewal(old(State()), p.Value(), now)
    {
      err := ValidateActiveLocked(p.acquired, now);
      ghost var leases := LeaseValues();
      if err.None? { pending := p; }
      assert LeaseValues() == leases;
    }

    method SnapshotForRelease(acquired: Lease, now: Time) returns (r: Result<Snapshot, Error>)
      requires Valid() && Mine(acquired)
      modifies this`active, acquired
      ensures Valid() && SameHistory()
      ensures (State(), r) == BeginRelease(old(State()), acquired.id, now)
    {
      var err := ValidateActiveLocked(acquired, now);
      if err.Some? { return Err(err.value); }
      r := Ok(Snapshot(observed.value.record, observed.value.version, acquired.validUntil));
      RetireLeaseLocked(acquired, LeaseRetired);
    }

    method SetPendingRelease(p: FrozenProposal)
      requires Valid() && Froze(p) && p.acquired != null
      modifies this`pending
      ensures Valid() && SameHistory()
      ensures State() == old(State()).(pending := Some(p.Value()))
    {
      pending := p;
    }

    method ConfirmRenewed(p: FrozenProposal, version: Version, now: Time) returns (err: Option<Error>)
      requires Valid() && Froze(p) && p.acquired != null
      modifies this`observed, this`installed, this`active, this`pending, p.acquired
      ensures Valid() && granted == old(granted) && frozen == old(frozen) && old(installed) <= installed
      ensures (State(), err) == ConfirmRenewal(old(State()), p.Value(), version, now)
    {
      var lease := p.acquired;
      var proposalEnd := p.firstSendAt + config.renewDeadline;
      if pending != p || active != lease || lease.retired.Some? || now >= p.authorityEnds || now >= proposalEnd {
        ClearPendingProposal(p);
        if lease.retired.None? { RetireLeaseLocked(lease, LeaseExpired); }
        return Some(LeaseExpired);
      }
      InstallLocked(Observed(p.record, version, p.firstSendAt, observed.value.lastReadAt));
      lease.sequenceID := p.record.sequenceID;
      lease.validUntil := proposalEnd;
      pending := null;
      lease.stopTimer := Some(lease.validUntil);
      assert LeaseValues() == old(LeaseValues())[lease.id := lease.Value()];
      err := None;
    }

    method ConfirmReleased(p: FrozenProposal, version: Version) returns (err: Option<Error>)
      requires Valid() && Froze(p)
      modifies this`observed, this`installed, this`pending
      ensures Valid() && granted == old(granted) && frozen == old(frozen) && old(installed) <= installed
      ensures (State(), err) == ConfirmRelease(old(State()), p.Value(), version)
    {
      if pending != p { return Some(InvalidLease); }
      var lastReadAt := if observed == null then ZERO_TIME else observed.value.lastReadAt;
      InstallLocked(Observed(p.record, version, p.firstSendAt, lastReadAt));
      ghost var leases := LeaseValues();
      pending := null;
      assert LeaseValues() == leases;
      err := None;
    }
  }
}
