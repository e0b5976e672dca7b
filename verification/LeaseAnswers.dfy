/**
 What the reading and acquiring half of the client answers, told by the log, the clock and what was observed when: what a
 read installs, since when a version counts as unchanged, which takeovers are proposed, and which acquisitions are granted.
 */
module LeaseAnswers {
  import opened Basics
  import opened LeaseRecords
  import opened LeaseClient
  import opened LeaseSystem
  import opened LeaseLog
  import opened LeaseInvariant
  import opened LeasePreservation
  import opened LeaseSteps
  import opened LeaseHistory
  import opened LeaseTheorems

  /** Step k of the run is event e of process i, which takes it from p to p'. */
  ghost predicate Took(fleet: Fleet, run: seq<System>, steps: seq<Step>, k: nat, i: nat, e: Event, p: Process, p': Process) {
    && IsRun(fleet, run, steps)
    && k < |steps|
    && steps[k] == Local(i, e)
    && i < |run[k].procs| == |run[k + 1].procs|
    && run[k].procs[i] == p
    && run[k + 1].procs[i] == p'
  }

  lemma TookFacts(fleet: Fleet, run: seq<System>, steps: seq<Step>, k: nat, i: nat, e: Event, p: Process, p': Process)
    requires Took(fleet, run, steps, k, i, e, p, p')
    ensures SystemOk(fleet, run[k]) && i < |fleet.configs| && WorldOk(fleet, WorldOf(run[k]))
    ensures ProcessOk(fleet, WorldOf(run[k]), i, p)
    ensures LocalNext(fleet, WorldOf(run[k]), i, p, e, p')
    ensures run[k + 1].log == run[k].log && run[k + 1].now == run[k].now
  {
    RunKeeps(fleet, run, steps, k);
    assert StepAt(fleet, run, steps, k);
  }

  lemma OnlyObservation(fleet: Fleet, w: World, i: nat, p: Process, e: Event, p': Process)
    requires i < |fleet.offsets| && LocalNext(fleet, w, i, p, e, p') && e.FinishReading?
    ensures FinishReadingStep(fleet, i, Clock(fleet, i, w.now), p, e.read, e.readAt, p')
  {
  }

  lemma OnlyAcquisition(fleet: Fleet, w: World, i: nat, p: Process, e: Event, p': Process)
    requires i < |fleet.offsets| && LocalNext(fleet, w, i, p, e, p')
    requires e.Require? || e.FreezeAcquisition? || e.ConfirmAcquired?
    ensures AcquisitionNext(fleet, w, i, p, e, p')
  {
  }

  // Reading ---------------------------------------------------------------------------------------------------------------

  // The read finishes with nothing newer observed since it started, and it fetched this.
  predicate ReadsNow(p: Process, r: nat, reply: ReadReply) {
    && r < |p.readOps|
    && p.readOps[r].startGen == p.client.generation
    && p.readOps[r].fetched.Some?
    && p.readOps[r].fetched.value.reply == reply
  }

  // What a finished read does to the client: it installs the commit it fetched, read now, and unchanged since before if that
  // version was observed already and since now if not; unless something newer was observed since it started.
  ghost predicate Installs(log: seq<Commit>, p: Process, r: nat, readAt: Time, p': Process) {
    && r < |p.readOps| && p.readOps[r].fetched.Some?
    && var (now, o) := (p.readOps[r].startGen == p.client.generation, p.client.observed);
       match p.readOps[r].fetched.value.reply
       case Object(record, v) =>
         && v < |log| && record == Rec(log, v)
         && (now ==>
               p'.client.observed
               == Some(Observed(record, v, if o.Some? && o.value.version == v then o.value.unchangedSince else readAt, readAt)))
         && (!now ==> p'.client == p.client)
       case Missing => p'.client == p.client && (now ==> o.None?)
       case _ => p'.client == p.client
  }

  // The caller of the read goes on with what is observed now; with nothing, if a missing object was read before anything was
  // observed; and not at all after a failure.
  predicate AnswersReader(p: Process, r: nat, p': Process)
    requires r < |p.readOps| && p.readOps[r].fetched.Some?
  {
    var now := p.readOps[r].startGen == p.client.generation;
    var reply := p.readOps[r].fetched.value.reply;
    match p.phase
    case RequireReading(read) =>
      if read != r then p'.phase == p.phase
      else if !now || reply.Object? then p'.client.observed.Some? && p'.phase == RequireRead(p'.client.observed)
      else p'.phase == if reply.Missing? then RequireRead(None) else Idle
    case ReconcileReading(q, read, afterConflict) =>
      if read != r then p'.phase == p.phase
      else if !now || reply.Object? then
        p'.client.observed.Some? && p'.phase == ReconcileRead(q, p'.client.observed.value, afterConflict)
      else p'.phase == Idle
    case _ => p'.phase == p.phase
  }

  lemma ReadingInstalls(fleet: Fleet, w: World, i: nat, p: Process, r: nat, readAt: Time, p': Process)
    requires FleetOk(fleet) && i < |fleet.configs| && WorldOk(fleet, w) && ProcessOk(fleet, w, i, p)
    requires FinishReadingStep(fleet, i, Clock(fleet, i, w.now), p, r, readAt, p')
    ensures Installs(w.log, p, r, readAt, p') && AnswersReader(p, r, p')
  {
    assert ReadOk(w, p.client, p.readOps[r]);
    if p.readOps[r].startGen == p.client.generation && p.readOps[r].fetched.value.reply.Object? {
      CommitIsAcceptable(fleet, w, i, p.client.observed, p.readOps[r].fetched.value.reply.version);
    }
  }

  /** A finished read installs what it fetched unless it was superseded, and its caller goes on with what is observed then. */
  lemma ReadInstalls(fleet: Fleet, run: seq<System>, steps: seq<Step>, k: nat, i: nat, r: nat, readAt: Time, p: Process,
                     p': Process)
    requires Took(fleet, run, steps, k, i, FinishReading(r, readAt), p, p')
    ensures Installs(run[k].log, p, r, readAt, p') && AnswersReader(p, r, p')
  {
    TookFacts(fleet, run, steps, k, i, FinishReading(r, readAt), p, p');
    OnlyObservation(fleet, WorldOf(run[k]), i, p, FinishReading(r, readAt), p');
    ReadingInstalls(fleet, WorldOf(run[k]), i, p, r, readAt, p');
  }

  // What a reader must not see: a malformed record, or one that contradicts what was observed before by its identity, by going
  // back, by other contents under the same counters, or by other contents under the same version.
  predicate Malformed(r: Record) {
    || r.apiVersion != API_VERSION || r.kind != KIND || r.uid == ""
    || r.createdAt == ZERO_TIME || r.acquireTime == ZERO_TIME || r.renewTime == ZERO_TIME
    || r.leaseDurationSeconds == 0 || r.leaseDurationSeconds > MAX_INT64 / SECOND
    || r.epochID == 0 || r.sequenceID == 0
  }

  predicate Contradicts(o: Observed, record: Record, version: Version) {
    var was := o.record;
    || record.uid != was.uid
    || record.epochID < was.epochID
    || (record.epochID == was.epochID && record.sequenceID < was.sequenceID)
    || (record.epochID == was.epochID && record.sequenceID == was.sequenceID && record != was)
    || (version == o.version && record != was)
  }

  // The client stops for this reason: it keeps what it observed, and its active lease is retired.
  predicate StopsFor(c: Client, c': Client, reason: Error) {
    && c'.terminal == Some(reason)
    && c'.observed == c.observed
    && |c'.leases| == |c.leases|
    && (c.active.Some? && c.active.value < |c.leases| ==> c'.leases[c.active.value].retired.Some?)
  }

  /**
   Whatever a store answers, also one that does not keep its contract: a read stops the client exactly if it shows a malformed or
   contradicting object, no version, or no object where one was observed; and it leaves a superseded or stopped client alone.
   */
  lemma ReadDetects(c: Client, startGen: nat, reply: ReadReply, readAt: Time)
    requires WellFormed(c) && startGen <= c.generation
    ensures var (c', answer) := FinishRead(c, startGen, reply, readAt);
            if c.terminal.Some? then c' == c && answer == Err(c.terminal.value)
            else if startGen != c.generation then c' == c && c.observed.Some? && answer == Ok(c.observed.value)
            else match reply
            case Object(record, v) =>
              if Malformed(record) || (c.observed.Some? && Contradicts(c.observed.value, record, v))
              then StopsFor(c, c', ProtocolViolation) && answer == Err(ProtocolViolation)
              else && c'.terminal.None? && c'.observed.Some? && answer == Ok(c'.observed.value)
                   && c'.observed.value.record == record && c'.observed.value.version == v && c'.observed.value.lastReadAt == readAt
            case Missing =>
              if c.observed.Some? then StopsFor(c, c', LeaseDisappeared) && answer == Err(LeaseDisappeared)
              else c' == c && answer == Err(NotFound)
            case Failed(e) => c' == c && answer == Err(e)
            case _ => StopsFor(c, c', ProtocolViolation) && answer == Err(ProtocolViolation)
  {
  }

  // Since when a version counts as unchanged ------------------------------------------------------------------------------

  predicate Observes(c: Client, v: Version) {
    c.observed.Some? && c.observed.value.version == v
  }

  predicate ObservesSince(c: Client, v: Version, t: Time) {
    Observes(c, v) && c.observed.value.unchangedSince == t
  }

  // The observation is commit v of the log as a write of the client's own, first sent at t; when it was last read stays.
  predicate ObservesOwn(log: seq<Commit>, c: Client, c': Client, v: Version, t: Time) {
    && v < |log|
    && c'.observed == Some(Observed(log[v].proposal.record, v, t,
                                    if c.observed.Some? then c.observed.value.lastReadAt else ZERO_TIME))
  }

  // Event e makes version v the observed one, as of t: it is read for the first time at t, or it is this client's own write,
  // first sent at t.
  predicate Begins(log: seq<Commit>, i: nat, p: Process, e: Event, v: Version, t: Time) {
    || (e.FinishReading? && e.readAt == t && !Observes(p.client, v))
    || (e.ConfirmAcquired? && p.phase.AcquireReplied? && OwnWrite(log, i, p.phase.proposal, v, t))
    || (e.ConfirmPending? && p.phase.PendingReplied? && OwnWrite(log, i, p.phase.proposal, v, t))
  }

  predicate OwnWrite(log: seq<Commit>, i: nat, q: Proposal, v: Version, t: Time) {
    CommittedAt(log, i, q, v) && q.firstSendAt == t
  }

  predicate SameObservation(p: Process, p': Process) {
    p'.client.observed == p.client.observed
  }

  lemma AcquiringDates(fleet: Fleet, w: World, i: nat, p: Process, e: Event, p': Process)
    requires FleetOk(fleet) && i < |fleet.configs| && ProcessOk(fleet, w, i, p)
    requires p.client.config.leaseDuration > 0 && AcquisitionNext(fleet, w, i, p, e, p')
    ensures SameObservation(p, p') || (p'.client.observed.Some? && Begins(w.log, i, p, e, p'.client.observed.value.version,
                                                                          p'.client.observed.value.unchangedSince))
  {
  }

  lemma ResolvingDates(fleet: Fleet, w: World, i: nat, p: Process, e: Event, p': Process)
    requires FleetOk(fleet) && i < |fleet.configs| && ProcessOk(fleet, w, i, p) && ResolutionNext(fleet, w, i, p, e, p')
    ensures SameObservation(p, p') || (p'.client.observed.Some? && Begins(w.log, i, p, e, p'.client.observed.value.version,
                                                                          p'.client.observed.value.unchangedSince))
  {
  }

  lemma OthersDate(fleet: Fleet, w: World, i: nat, p: Process, e: Event, p': Process)
    requires i < |fleet.offsets| && WellFormed(p.client)
    requires || FreezeNext(fleet, w, i, p, e, p')
             || SendNext(p, e, p')
             || ExpiryNext(Clock(fleet, i, w.now), p, e, p')
             || (!e.FinishReading? && ObservationNext(fleet, w, i, p, e, p'))
    ensures SameObservation(p, p')
  {
  }

  lemma EventDates(fleet: Fleet, w: World, i: nat, p: Process, e: Event, p': Process)
    requires FleetOk(fleet) && i < |fleet.configs| && WorldOk(fleet, w) && ProcessOk(fleet, w, i, p)
    requires LocalNext(fleet, w, i, p, e, p') && p'.client.observed.Some?
    ensures var o := p'.client.observed.value;
            ObservesSince(p.client, o.version, o.unchangedSince) || Begins(w.log, i, p, e, o.version, o.unchangedSince)
  {
    if e.FinishReading? {
      OnlyObservation(fleet, w, i, p, e, p');
      ReadingInstalls(fleet, w, i, p, e.read, e.readAt, p');
    } else if AcquisitionNext(fleet, w, i, p, e, p') {
      AcquiringDates(fleet, w, i, p, e, p');
    } else if ResolutionNext(fleet, w, i, p, e, p') {
      ResolvingDates(fleet, w, i, p, e, p');
    } else {
      OthersDate(fleet, w, i, p, e, p');
    }
  }

  // Step a makes process i observe version v as of t.
  ghost predicate BeginsAt(run: seq<System>, steps: seq<Step>, a: nat, i: nat, v: Version, t: Time)
    requires |run| == |steps| + 1
  {
    && a < |steps| && i < |run[a].procs| && steps[a].Local? && steps[a].process == i
    && Begins(run[a].log, i, run[a].procs[i], steps[a].event, v, t)
  }

  ghost predicate ObservedAt(run: seq<System>, m: nat, i: nat, v: Version, t: Time)
    requires m < |run|
  {
    i < |run[m].procs| && ObservesSince(run[m].procs[i].client, v, t)
  }

  lemma StepDates(fleet: Fleet, run: seq<System>, steps: seq<Step>, k: nat, i: nat)
    requires IsRun(fleet, run, steps) && k < |steps| && i < |run[k + 1].procs| && run[k + 1].procs[i].client.observed.Some?
    ensures i < |run[k].procs|
    ensures var o := run[k + 1].procs[i].client.observed.value;
            || ObservesSince(run[k].procs[i].client, o.version, o.unchangedSince)
            || BeginsAt(run, steps, k, i, o.version, o.unchangedSince)
  {
    RunKeeps(fleet, run, steps, k);
    assert StepAt(fleet, run, steps, k);
    if steps[k].Local? && steps[k].process == i {
      EventDates(fleet, WorldOf(run[k]), i, run[k].procs[i], steps[k].event, run[k + 1].procs[i]);
    }
  }

  /**
   Since when the observed version counts as unchanged: since one step, at which it was first read or confirmed as the client's
   own write, and from which on the same version was observed without a break and the date never moved.
   */
  lemma {:induction false} UnchangedSince(fleet: Fleet, run: seq<System>, steps: seq<Step>, k: nat, i: nat) returns (a: nat)
    requires IsRun(fleet, run, steps) && k < |run| && i < |run[k].procs| && run[k].procs[i].client.observed.Some?
    ensures a < k && a < |steps|
    ensures var o := run[k].procs[i].client.observed.value;
            && BeginsAt(run, steps, a, i, o.version, o.unchangedSince)
            && (forall m :: a < m <= k ==> ObservedAt(run, m, i, o.version, o.unchangedSince))
  {
    var o := run[k].procs[i].client.observed.value;
    assert k > 0;
    StepDates(fleet, run, steps, k - 1, i);
    if ObservesSince(run[k - 1].procs[i].client, o.version, o.unchangedSince) {
      a := UnchangedSince(fleet, run, steps, k - 1, i);
    } else {
      a := k - 1;
    }
  }

  /**
   While a client goes on observing one version, the date stays where it is, unless the client confirms that version as its own
   write: then it becomes the first send of that write. Reading it again never moves it.
   */
  lemma DateStays(fleet: Fleet, run: seq<System>, steps: seq<Step>, k: nat, i: nat, v: Version)
    requires IsRun(fleet, run, steps) && k < |steps| && i < |run[k].procs| && i < |run[k + 1].procs|
    requires Observes(run[k].procs[i].client, v) && Observes(run[k + 1].procs[i].client, v)
    ensures var (t, t') := (run[k].procs[i].client.observed.value.unchangedSince,
                            run[k + 1].procs[i].client.observed.value.unchangedSince);
            t' != t ==>
              && steps[k].Local? && steps[k].process == i && (steps[k].event.ConfirmAcquired? || steps[k].event.ConfirmPending?)
              && (exists q :: OwnWrite(run[k].log, i, q, v, t'))
  {
    StepDates(fleet, run, steps, k, i);
  }

  // Takeovers -------------------------------------------------------------------------------------------------------------

  lemma StepFindsObserved(fleet: Fleet, run: seq<System>, steps: seq<Step>, k: nat, i: nat)
    requires IsRun(fleet, run, steps) && k < |steps| && i < |run[k + 1].procs|
    requires run[k + 1].procs[i].phase.RequireRead? && run[k + 1].procs[i].phase.found.Some?
    ensures i < |run[k].procs|
    ensures || run[k + 1].procs[i].client.observed == run[k + 1].procs[i].phase.found
            || run[k].procs[i].phase == run[k + 1].procs[i].phase
  {
    RunKeeps(fleet, run, steps, k);
    assert StepAt(fleet, run, steps, k);
    if steps[k].Local? && steps[k].process == i {
      FindsObserved(fleet, WorldOf(run[k]), i, run[k].procs[i], steps[k].event, run[k + 1].procs[i]);
    }
  }

  /** What a Require that has read goes on with was the client's observation at some moment. */
  lemma {:induction false} FoundWasObserved(fleet: Fleet, run: seq<System>, steps: seq<Step>, k: nat, i: nat) returns (j: nat)
    requires IsRun(fleet, run, steps) && k < |run| && i < |run[k].procs|
    requires run[k].procs[i].phase.RequireRead? && run[k].procs[i].phase.found.Some?
    ensures j <= k && i < |run[j].procs| && run[j].procs[i].client.observed == run[k].procs[i].phase.found
  {
    assert k > 0;
    StepFindsObserved(fleet, run, steps, k - 1, i);
    if run[k].procs[i].client.observed == run[k].procs[i].phase.found {
      j := k;
    } else {
      j := FoundWasObserved(fleet, run, steps, k - 1, i);
    }
  }

  lemma AcquiringFindsNothing(fleet: Fleet, w: World, i: nat, p: Process, e: Event, p': Process)
    requires i < |fleet.offsets| && WellFormed(p.client) && p.client.config.leaseDuration > 0
    requires AcquisitionNext(fleet, w, i, p, e, p')
    ensures !p'.phase.RequireRead?
  {
  }

  lemma OthersFindNothing(fleet: Fleet, w: World, i: nat, p: Process, e: Event, p': Process)
    requires i < |fleet.offsets| && WellFormed(p.client)
    requires || SendNext(p, e, p')
             || ExpiryNext(Clock(fleet, i, w.now), p, e, p')
             || (!e.FinishReading? && ObservationNext(fleet, w, i, p, e, p'))
    ensures p'.phase.RequireRead? ==> p'.phase == p.phase
  {
  }

  lemma HoldingFindsNothing(fleet: Fleet, w: World, i: nat, p: Process, e: Event, p': Process)
    requires i < |fleet.offsets| && WellFormed(p.client)
    requires FreezeNext(fleet, w, i, p, e, p') || ResolutionNext(fleet, w, i, p, e, p')
    ensures !p'.phase.RequireRead?
  {
  }

  lemma FindsObserved(fleet: Fleet, w: World, i: nat, p: Process, e: Event, p': Process)
    requires FleetOk(fleet) && i < |fleet.configs| && WorldOk(fleet, w) && ProcessOk(fleet, w, i, p)
    requires LocalNext(fleet, w, i, p, e, p') && p'.phase.RequireRead?
    ensures p'.phase == p.phase || p'.phase.found.None? || p'.phase.found == p'.client.observed
  {
    if e.FinishReading? {
      OnlyObservation(fleet, w, i, p, e, p');
      ReadingInstalls(fleet, w, i, p, e.read, e.readAt, p');
    } else if AcquisitionNext(fleet, w, i, p, e, p') {
      AcquiringFindsNothing(fleet, w, i, p, e, p');
    } else if FreezeNext(fleet, w, i, p, e, p') || ResolutionNext(fleet, w, i, p, e, p') {
      HoldingFindsNothing(fleet, w, i, p, e, p');
    } else {
      OthersFindNothing(fleet, w, i, p, e, p');
    }
  }

  // Enough time has passed for a takeover of o, or none has to.
  predicate WaitedOut(o: Observed, now: Time) {
    o.record.clientID == "" || now >= o.unchangedSince + o.record.leaseDurationSeconds * SECOND
  }

  // The request q takes over version v, whose record is base, for a client of this configuration.
  predicate TakesOver(q: Proposal, v: Version, base: Record, config: Config) {
    && q.kind == ProposalKind.Acquire
    && q.expected == Some(v)
    && q.record.uid == base.uid
    && q.record.clientID == config.clientID
    && q.record.epochID == base.epochID + 1
    && q.record.sequenceID == 1
    && q.record.leaseDurationSeconds * SECOND == config.leaseDuration
  }

  // The request q creates the object, with this identity and time.
  predicate Creates(q: Proposal, config: Config, uid: string, wall: Time) {
    && q.kind == ProposalKind.Acquire
    && q.expected == None
    && q.record.uid == uid && q.record.name == config.metadataName
    && q.record.createdAt == q.record.acquireTime == q.record.renewTime == wall
    && q.record.clientID == config.clientID
    && q.record.epochID == 1
    && q.record.sequenceID == 1
    && q.record.leaseDurationSeconds * SECOND == config.leaseDuration
  }

  /**
   Which acquisitions are proposed: a create if nothing was found; and a takeover of what was found if and only if that is
   released or has been unchanged for as long as it advertises, and its epoch can grow. Otherwise Require ends, and the answer
   is that the client is not eligible exactly if it did not wait long enough.
   */
  lemma TakeoverProposed(fleet: Fleet, run: seq<System>, steps: seq<Step>, k: nat, i: nat, at: Time, wall: Time, uid: string,
                         p: Process, p': Process)
    requires Took(fleet, run, steps, k, i, FreezeAcquisition(at, wall, uid), p, p')
    ensures FleetOk(fleet) && i < |fleet.configs| && p.phase.RequireRead? && p'.client == p.client
    ensures match p.phase.found
            case None => p'.phase.AcquireFrozen? && Creates(p'.phase.proposal, fleet.configs[i], uid, wall)
            case Some(o) =>
              && o.version < |run[k].log| && o.record == Rec(run[k].log, o.version)
              && (if WaitedOut(o, at) && o.record.epochID < MAX_UINT64
                  then p'.phase.AcquireFrozen? && TakesOver(p'.phase.proposal, o.version, o.record, fleet.configs[i])
                  else p'.phase == Idle)
              && (ProposeAcquisition(fleet.configs[i], p.phase.found, uid, at, wall) == Err(NotEligible) <==> !WaitedOut(o, at))
    ensures p'.phase.AcquireFrozen? ==> p'.phase.proposal.firstSendAt == Clock(fleet, i, run[k].now)
  {
    TookFacts(fleet, run, steps, k, i, FreezeAcquisition(at, wall, uid), p, p');
    OnlyAcquisition(fleet, WorldOf(run[k]), i, p, FreezeAcquisition(at, wall, uid), p');
    AdvertisedExceedsDeadline(fleet.configs[i]);
    if p.phase.found.Some? { CommitsAccepted(fleet, run[k].log, p.phase.found.value.version); }
  }

  /**
   So an unreleased record that was first read at t, and read again unchanged since, is taken over if and only if it is at
   least as long after t as it advertises; and the same holds of a record of the client's own, from its first send on.
   */
  lemma TakeoverWaitsFromFirstRead(fleet: Fleet, run: seq<System>, steps: seq<Step>, k: nat, i: nat, at: Time, wall: Time,
                                   uid: string, p: Process, p': Process) returns (a: nat, j: nat, t: Time)
    requires Took(fleet, run, steps, k, i, FreezeAcquisition(at, wall, uid), p, p')
    requires p.phase.RequireRead? && p.phase.found.Some?
    requires p.phase.found.value.record.clientID != "" && p.phase.found.value.record.epochID < MAX_UINT64
    ensures var (v, record) := (p.phase.found.value.version, p.phase.found.value.record);
            && a < j <= k && BeginsAt(run, steps, a, i, v, t)
            && (forall m :: a < m <= j ==> ObservedAt(run, m, i, v, t))
            && v < |run[k].log| && record == Rec(run[k].log, v)
            && (p'.phase.AcquireFrozen? <==> at - t >= record.leaseDurationSeconds * SECOND)
            && (p'.phase == Idle <==> at - t < record.leaseDurationSeconds * SECOND)
  {
    j := FoundWasObserved(fleet, run, steps, k, i);
    a := UnchangedSince(fleet, run, steps, j, i);
    t := p.phase.found.value.unchangedSince;
    TakeoverProposed(fleet, run, steps, k, i, at, wall, uid, p, p');
  }

  // Grants ----------------------------------------------------------------------------------------------------------------

  /**
   A committed acquisition is granted if and only if it is confirmed before one renew deadline after its first send, the call
   was not canceled, and no later version was observed meanwhile. The new lease has the committed epoch, passes its check, and
   ends one renew deadline after the first send; a refusal changes nothing, and says whether it came late or too late.
   */
  lemma GrantedExactly(fleet: Fleet, run: seq<System>, steps: seq<Step>, k: nat, i: nat, canceled: bool, q: Proposal, v: Version,
                       p: Process, p': Process)
    requires Took(fleet, run, steps, k, i, ConfirmAcquired(canceled), p, p') && p.phase == AcquireReplied(q, v)
    ensures FleetOk(fleet) && i < |fleet.configs| && v < |run[k].log|
    ensures var (c, c', n, now) := (p.client, p'.client, |p.client.leases|, Clock(fleet, i, run[k].now));
            var ends := q.firstSendAt + fleet.configs[i].renewDeadline;
            var late := canceled || now >= ends;
            var newer := c.observed.Some? && c.observed.value.version > v;
            && p'.phase == Idle
            && (if !late && !newer then
                  && |c'.leases| == n + 1 && c'.leases[..n] == c.leases
                  && Holds(fleet, run[k + 1], i, n)
                  && c'.leases[n].epochID == Rec(run[k].log, v).epochID
                  && c'.leases[n].sequenceID == 1
                  && c'.leases[n].validUntil == ends
                  && c'.pending.None? && ObservesOwn(run[k].log, c, c', v, q.firstSendAt)
                else c' == c)
            && ConfirmAcquisition(c, q, v, now, canceled).1
               == (if late then Err(UnknownOutcome) else if newer then Err(OwnershipLost) else Ok(n))
  {
    TookFacts(fleet, run, steps, k, i, ConfirmAcquired(canceled), p, p');
    OnlyAcquisition(fleet, WorldOf(run[k]), i, p, ConfirmAcquired(canceled), p');
    var log := run[k].log;
    SupersededMeans(fleet, WorldOf(run[k]), i, p.client, v);
    assert EntryOk(fleet, log, v);
    CommitTerms(fleet, log, v);
  }

  lemma SupersededMeans(fleet: Fleet, w: World, i: nat, c: Client, v: Version)
    requires FleetOk(fleet) && i < |fleet.configs| && WorldOk(fleet, w) && ClientOk(fleet, w, i, c) && v < |w.log|
    ensures Superseded(c.observed, Rec(w.log, v), v) <==> c.observed.Some? && c.observed.value.version > v
  {
    if c.observed.Some? { NewerOrOlder(fleet, w.log, c.observed.value.version, v); }
  }

  // Versions are in the order of their records.
  lemma NewerOrOlder(fleet: Fleet, log: seq<Commit>, u: Version, v: Version)
    requires FleetOk(fleet) && LogOk(fleet, log) && u < |log| && v < |log|
    ensures Rec(log, u).uid == Rec(log, v).uid
    ensures u > v <==> Before(Rec(log, v), Rec(log, u))
    ensures u == v <==> Rec(log, u).epochID == Rec(log, v).epochID && Rec(log, u).sequenceID == Rec(log, v).sequenceID
  {
    if u < v { CommitsOrdered(fleet, log, u, v); }
    if v < u { CommitsOrdered(fleet, log, v, u); }
  }
}
