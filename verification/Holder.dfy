/**
 The lifecycle of one held lease: run the work, renew beside it, and shut down. The select loop takes its events from a
 script, and what the client, the clock and the work answer during shutdown is a parameter; both are arbitrary, so a claim
 for every script and every ending is a claim for every event order.
 */
module Holder {
  import opened Basics
  import opened Lifecycle

  datatype Failure = Client(error: Error) | Lost | WorkError | WorkNotStopped | ContextEnded | Auxiliary

  datatype Policy = Policy(releaseOnWorkReturn: bool, releaseOnCancel: bool)

  datatype StopCause = StopWorkReturned | StopCallerCanceled | StopLeaseLost | StopFatal

  // What the select statement picks. `canceled` tells whether the caller's context has ended by then.
  datatype Event =
    | WorkReturns(failure: Option<Failure>, canceled: bool)
    | CallerDone
    | LeaseDone
    | FatalError(failure: Option<Failure>)
    | TimerFires
    | RenewalReturns(outcome: Option<Error>, canceled: bool)

  // The world's answers during shutdown. Clock readings do not go back.
  datatype Ending = Ending(
    validUntil: Time,                  // the lease's deadline when the loop stops
    workReturns: Option<Option<Failure>>, // None: the work misses the shutdown timeout
    waitStart: Time,
    reply: Option<Option<Error>>,      // None: the renewal in flight does not return before the deadline
    waitEnd: Time,
    cleanupAt: Time,
    canceled: bool,
    cleanupRenew: Option<Error>,
    check: Option<Error>,
    releases: nat -> Option<Error>,
    cleanupOver: nat -> bool)

  // Waiting for a renewal ends without it only once the deadline has passed.
  predicate Clocked(e: Ending) {
    && e.waitStart <= e.waitEnd <= e.cleanupAt
    && (e.reply.None? ==> e.waitEnd >= e.validUntil)
  }

  // (pending, suppress release) once a stopped holder has the renewal's result.
  function StoppedRenewalState(outcome: Option<Error>, resolving: bool): (r: (bool, bool))
    ensures r.0 <==> outcome == Some(UnknownOutcome)
    ensures r.1 <==> resolving && outcome.Some? && !r.0
  {
    match outcome
    case None => (false, false)
    case Some(e) => if e == UnknownOutcome then (true, false) else (false, resolving)
  }

  // The running loop after one event: whether it stopped and why, and the renewal bookkeeping.
  datatype Loop = Loop(
    renewing: bool,
    resolving: bool,        // of the renewal in flight
    timerArmed: bool,
    renewalPending: bool,
    releaseSuppressed: bool,
    workJoined: bool,
    returned: Option<Failure>, // what the work returned
    cause: Option<StopCause>,
    primary: set<Failure>,
    calls: seq<Call>)

  /** While running, exactly one of a renewal in flight and an armed timer; the bookkeeping matches the calls made. */
  predicate LoopOk(s: Loop) {
    && Disciplined(s.calls, 3)
    && InFlight(s.calls) == s.renewing
    && Joined(s.calls) == s.workJoined
    && Releases(s.calls) == 0
    && CleanupRenews(s.calls) == 0
    && (s.cause.None? ==> && s.renewing != s.timerArmed && !s.workJoined && !s.releaseSuppressed
                          && s.renewalPending == Unresolved(s.calls))
    && (s.renewing ==> s.resolving == s.renewalPending)
    && (Unresolved(s.calls) ==> s.renewalPending || s.releaseSuppressed
                                || s.cause == Some(StopLeaseLost) || s.cause == Some(StopFatal))
    && (s.renewing ==> !s.releaseSuppressed && (Unresolved(s.calls) ==> s.resolving))
    && (s.cause == Some(StopWorkReturned) ==> s.workJoined)
    && (s.cause == Some(StopLeaseLost) ==> Lost in s.primary)
    && (s.cause == Some(StopCallerCanceled) ==> ContextEnded in s.primary)
  }

  // Whether, and why, a renewal's result ends the loop.
  function RenewalStops(outcome: Option<Error>, canceled: bool, resolving: bool): Option<StopCause> {
    if outcome.None? then None
    else if canceled then Some(StopCallerCanceled)
    else if outcome.value == UnknownOutcome || Retryable(outcome.value) then None
    else if !resolving && IsLeaseLoss(outcome.value) then Some(StopLeaseLost)
    else Some(StopFatal)
  }

  // What the loop makes of a script, told by the calls it made so far ----------------------------------------------------

  // Whether, and why, an event ends the loop.
  function Stops(calls: seq<Call>, e: Event): Option<StopCause> {
    match e
    case WorkReturns(_, canceled) => Some(if canceled then StopCallerCanceled else StopWorkReturned)
    case CallerDone => Some(StopCallerCanceled)
    case LeaseDone => Some(StopLeaseLost)
    case FatalError(failure) => if failure.Some? then Some(StopFatal) else None
    case TimerFires => None
    case RenewalReturns(outcome, canceled) =>
      if InFlight(calls) then RenewalStops(outcome, canceled, Unresolved(calls)) else None
  }

  // The calls an event adds.
  function Made(calls: seq<Call>, e: Event): seq<Call> {
    match e
    case WorkReturns(_, _) => [WorkJoined]
    case TimerFires => if InFlight(calls) then [] else [StartRenew(false)]
    case RenewalReturns(outcome, _) => if InFlight(calls) then [EndRenew(outcome)] else []
    case _ => []
  }

  function CallsOf(events: seq<Event>): seq<Call> {
    if events == [] then []
    else
      var before := CallsOf(events[..|events| - 1]);
      before + Made(before, events[|events| - 1])
  }

  predicate StopsAt(script: seq<Event>, n: nat)
    requires n < |script|
  {
    Stops(CallsOf(script[..n]), script[n]).Some?
  }

  // Of every event, whether it stops the loop.
  function Flags(script: seq<Event>): (stops: seq<bool>)
    ensures |stops| == |script|
  {
    seq(|script|, n requires 0 <= n < |script| => StopsAt(script, n))
  }

  function AtStop(script: seq<Event>): seq<Call> {
    TakenIsFirst(Flags(script), 0);
    CallsOf(script[..Taken(Flags(script), 0)])
  }

  // The last event taken stopped the loop.
  predicate Stopped(script: seq<Event>) {
    TakenIsFirst(Flags(script), 0);
    Taken(Flags(script), 0) > 0 && StopsAt(script, Taken(Flags(script), 0) - 1)
  }

  // A script that runs out ends with the caller's cancellation.
  function StoppingEvent(script: seq<Event>): Event {
    TakenIsFirst(Flags(script), 0);
    if Stopped(script) then script[Taken(Flags(script), 0) - 1] else CallerDone
  }

  function StopOf(script: seq<Event>): StopCause {
    TakenIsFirst(Flags(script), 0);
    if Stopped(script) then Stops(CallsOf(script[..Taken(Flags(script), 0) - 1]), StoppingEvent(script)).value
    else StopCallerCanceled
  }

  // The outcome of a renewal that returned as the loop stopped or while the holder waited for it.
  function LateOutcome(script: seq<Event>, end: Ending): Option<Option<Error>> {
    if StoppingEvent(script).RenewalReturns? then Some(StoppingEvent(script).outcome)
    else if InFlight(AtStop(script)) && end.waitStart < end.validUntil then end.reply
    else None
  }

  // Whether a renewal is left to be reconciled, and whether that is hopeless.
  function Settled(script: seq<Event>, end: Ending): (bool, bool) {
    match LateOutcome(script, end)
    case Some(outcome) => StoppedRenewalState(outcome, Unresolved(AtStop(script)))
    case None => (Unresolved(AtStop(script)), false)
  }

  predicate WorkStops(script: seq<Event>, end: Ending) {
    Joined(AtStop(script)) || end.workReturns.Some?
  }

  // The caller's context had ended when this event stopped the loop.
  predicate Cancels(e: Event) {
    e.CallerDone? || ((e.WorkReturns? || e.RenewalReturns?) && e.canceled)
  }

  // The policy asks for a release after this event.
  predicate Asked(e: Event, policy: Policy) {
    || (policy.releaseOnWorkReturn && e.WorkReturns? && !e.canceled)
    || (policy.releaseOnCancel && Cancels(e))
  }

  // Nothing stands in the way of a release: the work is joined, no renewal is under way or in doubt, there is time, and the lease
  // is good.
  predicate Untroubled(script: seq<Event>, end: Ending) {
    && (StoppingEvent(script).WorkReturns? || end.workReturns.Some?)
    && !InFlight(AtStop(script)) && !Unresolved(AtStop(script))
    && 0 != end.validUntil > end.cleanupAt
    && end.check.None?
  }

  // Until an event stops the loop, the work has not returned.
  lemma {:induction false} NotJoined(script: seq<Event>, n: nat)
    requires n <= |script| && forall m :: 0 <= m < n ==> !StopsAt(script, m)
    ensures !Joined(CallsOf(script[..n]))
  {
    if n > 0 {
      NotJoined(script, n - 1);
      assert script[..n][..n - 1] == script[..n - 1];
      var (calls, e) := (CallsOf(script[..n - 1]), script[n - 1]);
      assert !StopsAt(script, n - 1);
      assert CallsOf(script[..n]) == calls + Made(calls, e);
      assert !e.WorkReturns?;
      if Made(calls, e) == [] {
        assert calls + Made(calls, e) == calls;
      } else {
        assert Before(calls + Made(calls, e)) == calls && Last(calls + Made(calls, e)) == Made(calls, e)[0];
      }
    }
  }

  // The calls at the end are those before the stopping event, and its own.
  lemma StoppingCalls(script: seq<Event>) returns (calls: seq<Call>)
    requires Stopped(script)
    ensures AtStop(script) == calls + Made(calls, StoppingEvent(script)) && !Joined(calls)
    ensures Stops(calls, StoppingEvent(script)) == Some(StopOf(script))
  {
    TakenIsFirst(Flags(script), 0);
    var t := Taken(Flags(script), 0);
    assert script[..t][..t - 1] == script[..t - 1];
    calls := CallsOf(script[..t - 1]);
    forall m | 0 <= m < t - 1 ensures !StopsAt(script, m) { assert !Flags(script)[m]; }
    NotJoined(script, t - 1);
  }

  lemma NeverStopped(script: seq<Event>)
    requires !Stopped(script)
    ensures !Joined(AtStop(script)) && StoppingEvent(script) == CallerDone && StopOf(script) == StopCallerCanceled
  {
    TakenIsFirst(Flags(script), 0);
    var t := Taken(Flags(script), 0);
    forall m | 0 <= m < t ensures !StopsAt(script, m) { assert m < t - 1 ==> !Flags(script)[m]; }
    NotJoined(script, t);
  }

  /** Why the loop stopped, by the event that stopped it. */
  lemma StoppedBy(script: seq<Event>)
    ensures var (e, cause) := (StoppingEvent(script), StopOf(script));
            && (cause == StopWorkReturned <==> e.WorkReturns? && !e.canceled)
            && (cause == StopCallerCanceled <==> Cancels(e))
            && (e.WorkReturns? <==> Joined(AtStop(script)))
            && (e.RenewalReturns? ==> !InFlight(AtStop(script)))
            && (e.RenewalReturns? && e.outcome == Some(UnknownOutcome) ==> Unresolved(AtStop(script)))
  {
    if Stopped(script) {
      var calls := StoppingCalls(script);
      var made := Made(calls, StoppingEvent(script));
      if made == [] {
        assert AtStop(script) == calls;
      } else {
        assert Last(calls + made) == made[0] && Before(calls + made) == calls;
      }
    } else {
      NeverStopped(script);
    }
  }

  /** When a release is due, in the events of the script and the fields of the policy. */
  lemma DueWhenAsked(script: seq<Event>, policy: Policy, end: Ending)
    ensures ReleaseDue(script, policy, end) ==>
              && Asked(StoppingEvent(script), policy)
              && (StoppingEvent(script).WorkReturns? || end.workReturns.Some?)
              && 0 != end.validUntil > end.cleanupAt
              && end.check.None?
    ensures Asked(StoppingEvent(script), policy) && Untroubled(script, end) ==> ReleaseDue(script, policy, end)
  {
    StoppedBy(script);
  }

  // What the event that stopped the loop has to say.
  function Complaint(e: Event, cause: StopCause): set<Failure> {
    match e
    case WorkReturns(failure, canceled) =>
      if canceled then {ContextEnded} else if failure.Some? then {failure.value} else {}
    case CallerDone => {ContextEnded}
    case LeaseDone => {Lost}
    case FatalError(failure) => if failure.Some? then {failure.value} else {}
    case TimerFires => {}
    case RenewalReturns(outcome, canceled) =>
      if canceled then {ContextEnded}
      else (if cause == StopLeaseLost then {Lost} else {}) + (if outcome.Some? then {Client(outcome.value)} else {})
  }

  /**
   Which events stop the loop: the work's return, the caller, the lease's end, a reported fatal error, and a renewal's error if the
   caller is gone, if it is definite, or if it is definite about an earlier renewal in doubt. Only the lease's end, or a renewal that
   says so about a lease with nothing in doubt, counts as losing the lease.
   */
  lemma StopsExactly(calls: seq<Call>, e: Event)
    ensures Stops(calls, e).Some? <==>
              || e.WorkReturns? || e.CallerDone? || e.LeaseDone?
              || (e.FatalError? && e.failure.Some?)
              || (&& e.RenewalReturns? && InFlight(calls) && e.outcome.Some?
                  && (e.canceled || e.outcome.value !in {UnknownOutcome, Unavailable, DeadlineExceeded}))
    ensures Stops(calls, e) == Some(StopLeaseLost) <==>
              || e.LeaseDone?
              || (&& e.RenewalReturns? && InFlight(calls) && !e.canceled && !Unresolved(calls) && e.outcome.Some?
                  && e.outcome.value in {LeaseExpired, LeaseRetired, OwnershipLost, InvalidLease})
    ensures Stops(calls, e) == Some(StopFatal) ==> e.FatalError? || e.RenewalReturns?
  {
  }

  // What has to hold for a cleanup: the policy asks for it, nothing forbids it, and the deadline has not passed.
  predicate CleanupBegins(cause: StopCause, suppressed: bool, policy: Policy, end: Ending) {
    && ReleaseWanted(Some(cause), policy)
    && !suppressed
    && end.validUntil != ZERO_TIME
    && end.cleanupAt < end.validUntil
  }

  // And for a release in it.
  predicate ReleaseFollows(pending: bool, end: Ending) {
    (pending ==> end.cleanupRenew.None?) && end.check.None?
  }

  predicate CleanupRenewDue(script: seq<Event>, policy: Policy, end: Ending) {
    && WorkStops(script, end)
    && CleanupBegins(StopOf(script), Settled(script, end).1, policy, end)
    && Settled(script, end).0
  }

  predicate ReleaseDue(script: seq<Event>, policy: Policy, end: Ending) {
    && WorkStops(script, end)
    && CleanupBegins(StopOf(script), Settled(script, end).1, policy, end)
    && ReleaseFollows(Settled(script, end).0, end)
  }

  // The release was called n times, and is not called again: it was answered, or time is up.
  predicate ReleaseEnds(end: Ending, n: nat)
    requires n > 0
  {
    end.releases(n - 1) != Some(UnknownOutcome) || end.cleanupOver(n)
  }

  // How often a release is called that has to be.
  function ReleaseCalls(end: Ending): nat {
    if ReleaseEnds(end, 1) then 1 else if ReleaseEnds(end, 2) then 2 else 3
  }

  /** Until it ends, or three times. */
  lemma ReleaseCallsMeans(end: Ending)
    ensures 1 <= ReleaseCalls(end) <= 3
    ensures forall n :: 1 <= n < ReleaseCalls(end) ==> !ReleaseEnds(end, n)
    ensures ReleaseCalls(end) < 3 ==> ReleaseEnds(end, ReleaseCalls(end))
  {
  }

  method HandleRenewal(s: Loop, outcome: Option<Error>, canceled: bool) returns (s': Loop)
    requires LoopOk(s) && s.cause.None? && s.renewing
    ensures LoopOk(s') && s'.calls == s.calls + [EndRenew(outcome)]
    ensures s'.cause == RenewalStops(outcome, canceled, s.resolving)
    ensures s'.cause.Some? ==> s'.primary == Complaint(RenewalReturns(outcome, canceled), s'.cause.value)
    ensures s'.cause.None? ==> s'.renewalPending == (outcome == Some(UnknownOutcome) || (outcome.Some? && s.resolving))
    ensures KnowsWhatIsLeft(s', RenewalReturns(outcome, canceled))
  {
    s' := s.(renewing := false, calls := s.calls + [EndRenew(outcome)]);
    Appended(s.calls, EndRenew(outcome), 3);
    match outcome
    case None => s' := s'.(renewalPending := false, timerArmed := true);
    case Some(e) =>
      if canceled {
        var (pending, suppress) := StoppedRenewalState(outcome, s.resolving);
        s' := s'.(cause := Some(StopCallerCanceled), primary := {ContextEnded}, renewalPending := pending,
                  releaseSuppressed := suppress);
      } else if e == UnknownOutcome {
        s' := s'.(renewalPending := true, timerArmed := true);
      } else if Retryable(e) {
        s' := s'.(renewalPending := s.resolving, timerArmed := true);
      } else if s.resolving {
        s' := s'.(cause := Some(StopFatal), primary := {Client(e)});
      } else if IsLeaseLoss(e) {
        s' := s'.(cause := Some(StopLeaseLost), primary := {Lost, Client(e)});
      } else {
        s' := s'.(cause := Some(StopFatal), primary := {Client(e)});
      }
  }

  // What the renewal bookkeeping must be once an event stopped the loop and a release may still be wanted.
  predicate KnowsWhatIsLeft(s: Loop, e: Event) {
    s.cause == Some(StopWorkReturned) || s.cause == Some(StopCallerCanceled) ==>
      (s.renewalPending, s.releaseSuppressed)
      == if e.RenewalReturns? then StoppedRenewalState(e.outcome, Unresolved(s.calls)) else (Unresolved(s.calls), false)
  }

  method HandleEvent(s: Loop, e: Event) returns (s': Loop)
    requires LoopOk(s) && s.cause.None?
    ensures LoopOk(s') && s'.calls == s.calls + Made(s.calls, e)
    ensures s'.cause == Stops(s.calls, e)
    ensures s'.cause.Some? ==> s'.primary == Complaint(e, s'.cause.value)
    ensures KnowsWhatIsLeft(s', e)
  {
    s' := s;
    match e
    case WorkReturns(failure, canceled) =>
      Appended(s.calls, WorkJoined, 3);
      s' := s.(workJoined := true, returned := failure, calls := s.calls + [WorkJoined],
               cause := Some(if canceled then StopCallerCanceled else StopWorkReturned),
               primary := if canceled then {ContextEnded} else if failure.Some? then {failure.value} else {});
    case CallerDone => s' := s.(cause := Some(StopCallerCanceled), primary := {ContextEnded});
    case LeaseDone => s' := s.(cause := Some(StopLeaseLost), primary := {Lost});
    case FatalError(failure) =>
      if failure.Some? { s' := s.(cause := Some(StopFatal), primary := {failure.value}); }
    case TimerFires =>
      if s.timerArmed {
        Appended(s.calls, StartRenew(false), 3);
        s' := s.(timerArmed := false, renewing := true, resolving := s.renewalPending,
                 calls := s.calls + [StartRenew(false)]);
      }
    case RenewalReturns(outcome, canceled) =>
      if s.renewing { s' := HandleRenewal(s, outcome, canceled); }
  }

  // Nothing stopped the loop before the n-th event.
  predicate Reached(script: seq<Event>, n: nat) {
    && n <= |script|
    && Taken(Flags(script), n) == Taken(Flags(script), 0)
    && forall m :: 0 <= m < n ==> !StopsAt(script, m)
  }

  lemma ReachedNext(script: seq<Event>, n: nat)
    requires n < |script| && Reached(script, n)
    ensures CallsOf(script[..n + 1]) == CallsOf(script[..n]) + Made(CallsOf(script[..n]), script[n])
    ensures Stops(CallsOf(script[..n]), script[n]).None? ==> Reached(script, n + 1)
  {
    assert script[..n + 1][..n] == script[..n];
  }

  // What the script comes to when its n-th event stops the loop.
  lemma StopFacts(script: seq<Event>, n: nat)
    requires Reached(script, n) && n < |script| && StopsAt(script, n)
    ensures StoppingEvent(script) == script[n]
    ensures AtStop(script) == CallsOf(script[..n]) + Made(CallsOf(script[..n]), script[n])
    ensures StopOf(script) == Stops(CallsOf(script[..n]), script[n]).value
  {
    assert script[..n + 1][..n] == script[..n];
  }

  // What it comes to when no event does.
  lemma EndFacts(script: seq<Event>)
    requires Reached(script, |script|)
    ensures AtStop(script) == CallsOf(script) && StoppingEvent(script) == CallerDone && StopOf(script) == StopCallerCanceled
  {
    assert script[..|script|] == script;
  }

  // The select loop. A script that runs out ends with the caller's cancellation.
  method RunLoop(script: seq<Event>) returns (s: Loop)
    ensures LoopOk(s) && s.calls == AtStop(script) && s.cause == Some(StopOf(script))
    ensures KnowsWhatIsLeft(s, StoppingEvent(script))
    ensures StoppingEvent(script).RenewalReturns? ==> !s.renewing
    ensures s.primary == Complaint(StoppingEvent(script), StopOf(script))
  {
    s := Loop(false, false, true, false, false, false, None, None, {}, []);
    for n := 0 to |script|
      invariant LoopOk(s) && s.cause.None? && s.calls == CallsOf(script[..n])
      invariant Reached(script, n)
    {
      if StopsAt(script, n) { StopFacts(script, n); }
      ReachedNext(script, n);
      s := HandleEvent(s, script[n]);
      if s.cause.Some? { return; }
    }
    EndFacts(script);
    assert script[..|script|] == script;
    s := HandleEvent(s, CallerDone);
  }

  // The renewal in flight returns while the holder shuts down.
  method EndInFlight(s: Loop, outcome: Option<Error>) returns (s': Loop)
    requires LoopOk(s) && s.cause.Some? && s.renewing
    ensures LoopOk(s') && !s'.renewing && s'.cause == s.cause && s'.workJoined == s.workJoined
    ensures s'.calls == s.calls + [EndRenew(outcome)] && s'.primary == s.primary
    ensures (s'.renewalPending, s'.releaseSuppressed) == StoppedRenewalState(outcome, s.resolving)
  {
    var (pending, suppress) := StoppedRenewalState(outcome, s.resolving);
    Appended(s.calls, EndRenew(outcome), 3);
    s' := s.(renewing := false, calls := s.calls + [EndRenew(outcome)], renewalPending := pending,
             releaseSuppressed := suppress);
  }

  // The work returns within the shutdown timeout, or has returned before.
  method JoinWork(s: Loop, end: Ending) returns (s': Loop)
    requires LoopOk(s) && s.cause.Some? && (s.workJoined || end.workReturns.Some?)
    ensures LoopOk(s') && s'.workJoined && s'.cause == s.cause
    ensures s'.calls == s.calls + (if s.workJoined then [] else [WorkJoined]) && s.primary <= s'.primary
    ensures !s.workJoined && end.workReturns.value.Some? && !(end.canceled && end.workReturns.value.value == ContextEnded) ==>
              end.workReturns.value.value in s'.primary
    ensures s.cause == Some(StopWorkReturned) ==> s'.primary == s.primary
    ensures (s'.renewing, s'.resolving) == (s.renewing, s.resolving)
    ensures (s'.renewalPending, s'.releaseSuppressed) == (s.renewalPending, s.releaseSuppressed)
  {
    s' := s;
    if !s.workJoined {
      Appended(s.calls, WorkJoined, 3);
      s' := s.(workJoined := true, returned := end.workReturns.value, calls := s.calls + [WorkJoined]);
    }
    if s'.returned.Some? && s.cause != Some(StopWorkReturned)
       && !(end.canceled && s'.returned == Some(ContextEnded)) {
      s' := s'.(primary := s'.primary + {s'.returned.value});
    }
  }

  // Waits for a renewal still in flight, but only until the deadline.
  method AwaitRenewal(s: Loop, end: Ending) returns (s': Loop, renewal: set<Failure>)
    requires LoopOk(s) && s.cause.Some? && s.workJoined && Clocked(end)
    ensures LoopOk(s') && s'.workJoined && s'.cause == s.cause && s.calls <= s'.calls
    ensures s'.renewing ==> end.cleanupAt >= end.validUntil
    ensures Releases(s'.calls) == CleanupRenews(s'.calls) == 0 && s'.primary == s.primary
    ensures !s.renewing ==> renewal == {}
    ensures (s'.renewalPending, s'.releaseSuppressed) ==
            if s.renewing && end.waitStart < end.validUntil && end.reply.Some?
            then StoppedRenewalState(end.reply.value, s.resolving) else (s.renewalPending, s.releaseSuppressed)
  {
    s', renewal := s, {};
    if s.renewing {
      if end.waitStart >= end.validUntil || end.reply.None? {
        renewal := {Client(LeaseExpired)};
      } else {
        s' := EndInFlight(s, end.reply.value);
        renewal := if end.reply.value.Some? then {Client(end.reply.value.value)} else {};
      }
    }
  }

  // Joins the work and awaits the renewal: what is left of it then is what the script and the ending say.
  method Drain(script: seq<Event>, s: Loop, end: Ending) returns (s': Loop, renewal: set<Failure>)
    requires LoopOk(s) && s.calls == AtStop(script) && s.cause == Some(StopOf(script))
    requires KnowsWhatIsLeft(s, StoppingEvent(script))
    requires (StoppingEvent(script).RenewalReturns? ==> !InFlight(s.calls))
    requires WorkStops(script, end) && Clocked(end)
    ensures LoopOk(s') && s'.workJoined && s'.cause == s.cause && s.calls <= s'.calls && s.primary <= s'.primary
    ensures s'.renewing ==> end.cleanupAt >= end.validUntil
    ensures Releases(s'.calls) == CleanupRenews(s'.calls) == 0
    ensures !s.renewing ==> renewal == {}
    ensures s.cause == Some(StopWorkReturned) ==> s'.primary == s.primary
    ensures s.cause == Some(StopWorkReturned) || s.cause == Some(StopCallerCanceled) ==>
              (s'.renewalPending, s'.releaseSuppressed) == Settled(script, end)
  {
    s' := JoinWork(s, end);
    s', renewal := AwaitRenewal(s', end);
  }

  predicate ReleaseWanted(cause: Option<StopCause>, policy: Policy) {
    || (cause == Some(StopWorkReturned) && policy.releaseOnWorkReturn)
    || (cause == Some(StopCallerCanceled) && policy.releaseOnCancel)
  }

  // Releases, and reconciles an unknown release a bounded number of times.
  method ReleaseLease(calls: seq<Call>, end: Ending) returns (calls': seq<Call>, outcome: Option<Error>)
    requires Disciplined(calls, 3) && !InFlight(calls) && Joined(calls) && !Unresolved(calls) && Releases(calls) == 0
    ensures Disciplined(calls', 3) && calls < calls'
    ensures 1 <= Releases(calls') == ReleaseCalls(end) <= 3
    ensures forall n :: 1 <= n < Releases(calls') ==> !ReleaseEnds(end, n)
    ensures Releases(calls') < 3 ==> ReleaseEnds(end, Releases(calls'))
    ensures outcome == end.releases(Releases(calls') - 1)
    ensures CleanupRenews(calls') == CleanupRenews(calls)
  {
    Appended(calls, Release(end.releases(0)), 3);
    outcome := end.releases(0);
    calls' := calls + [Release(outcome)];
    var attempt := 1;
    while attempt < 3 && outcome == Some(UnknownOutcome) && !end.cleanupOver(attempt)
      invariant 1 <= attempt <= 3 && Releases(calls') == attempt <= ReleaseCalls(end)
      invariant outcome == end.releases(attempt - 1)
      invariant Disciplined(calls', 3) && calls < calls' && Last(calls') == Release(outcome)
      invariant !InFlight(calls') && Joined(calls') && !Unresolved(calls')
      invariant CleanupRenews(calls') == CleanupRenews(calls)
    {
      Appended(calls', Release(end.releases(attempt)), 3);
      outcome := end.releases(attempt);
      calls' := calls' + [Release(outcome)];
      attempt := attempt + 1;
    }
  }

  // The one cleanup renewal, which reconciles a pending one.
  method CleanupRenew(s: Loop, outcome: Option<Error>) returns (calls: seq<Call>)
    requires LoopOk(s) && s.workJoined && !s.renewing
    ensures Disciplined(calls, 3) && s.calls < calls && Releases(calls) == 0 && CleanupRenews(calls) == 1
    ensures Joined(calls) && !InFlight(calls) && (outcome.None? ==> !Unresolved(calls))
  {
    Appended(s.calls, StartRenew(true), 3);
    calls := s.calls + [StartRenew(true)];
    Appended(calls, EndRenew(outcome), 3);
    calls := calls + [EndRenew(outcome)];
  }

  // Everything after the work joined and the renewal was awaited.
  function Answer(outcome: Option<Error>): set<Failure> {
    if outcome.Some? then {Client(outcome.value)} else {}
  }

  method CleanUp(s: Loop, policy: Policy, end: Ending, awaited: set<Failure>)
    returns (calls: seq<Call>, failures: set<Failure>)
    requires LoopOk(s) && s.cause.Some? && s.workJoined && (s.renewing ==> end.cleanupAt >= end.validUntil)
    ensures Disciplined(calls, 3) && s.calls <= calls && Joined(calls) && s.primary <= failures
    ensures var begins := CleanupBegins(s.cause.value, s.releaseSuppressed, policy, end);
            && Releases(calls) == (if begins && ReleaseFollows(s.renewalPending, end) then ReleaseCalls(end) else 0)
            && CleanupRenews(calls) == (if begins && s.renewalPending then 1 else 0)
            && (!begins ==> calls == s.calls)
            && (begins && end.check.Some? && (s.renewalPending ==> end.cleanupRenew.None?) ==>
                  {Lost, Client(end.check.value)} <= failures)
            && (begins && !s.renewalPending && end.check.None? ==>
                  failures == s.primary + awaited + Answer(end.releases(ReleaseCalls(end) - 1)))
    ensures !ReleaseWanted(s.cause, policy) ==> failures == s.primary + awaited
  {
    calls := s.calls;
    var renewal := awaited;
    if !ReleaseWanted(s.cause, policy) || s.releaseSuppressed { return calls, s.primary + renewal; }
    if end.validUntil == ZERO_TIME || end.cleanupAt >= end.validUntil {
      return calls, s.primary + renewal + {Lost, Client(LeaseExpired)};
    }
    if s.renewalPending {
      calls := CleanupRenew(s, end.cleanupRenew);
      if end.cleanupRenew.Some? { return calls, s.primary + renewal + {Client(end.cleanupRenew.value)}; }
      renewal := {};
    }
    if end.check.Some? { return calls, s.primary + renewal + {Lost, Client(end.check.value)}; }
    var outcome;
    calls, outcome := ReleaseLease(calls, end);
    failures := s.primary + renewal + (if outcome.Some? then {Client(outcome.value)} else {});
  }

  // The calls and the result of a lifecycle are those its script and its answers call for.
  ghost predicate CallsAsDue(script: seq<Event>, policy: Policy, end: Ending, calls: seq<Call>) {
    && AtStop(script) <= calls
    && (Joined(calls) <==> WorkStops(script, end))
    && Releases(calls) == (if ReleaseDue(script, policy, end) then ReleaseCalls(end) else 0)
    && CleanupRenews(calls) == (if CleanupRenewDue(script, policy, end) then 1 else 0)
  }

  // It complains about what stopped it and about work that does not stop, and about nothing if all went well.
  predicate Reports(script: seq<Event>, policy: Policy, end: Ending, failures: set<Failure>) {
    && Complaint(StoppingEvent(script), StopOf(script)) <= failures
    && (!WorkStops(script, end) ==> WorkNotStopped in failures)
    && (&& StoppingEvent(script) == WorkReturns(None, false)
        && Untroubled(script, end)
        && (policy.releaseOnWorkReturn ==> end.releases(ReleaseCalls(end) - 1).None?)
        ==> failures == {})
  }

  // Calls that are as due are made when they are asked for.
  lemma DueCallsAreAsked(script: seq<Event>, policy: Policy, end: Ending, calls: seq<Call>)
    requires CallsAsDue(script, policy, end, calls)
    ensures Releases(calls) > 0 ==>
              && Asked(StoppingEvent(script), policy)
              && (StoppingEvent(script).WorkReturns? || end.workReturns.Some?)
              && 0 != end.validUntil > end.cleanupAt
              && end.check.None?
    ensures Asked(StoppingEvent(script), policy) && Untroubled(script, end) ==> Releases(calls) > 0
  {
    DueWhenAsked(script, policy, end);
  }

  // Everything after the loop.
  method ShutDown(script: seq<Event>, s: Loop, policy: Policy, end: Ending)
    returns (calls: seq<Call>, failures: set<Failure>)
    requires LoopOk(s) && s.calls == AtStop(script) && s.cause == Some(StopOf(script)) && Clocked(end)
    requires KnowsWhatIsLeft(s, StoppingEvent(script)) && (StoppingEvent(script).RenewalReturns? ==> !s.renewing)
    requires s.primary == Complaint(StoppingEvent(script), StopOf(script))
    ensures Disciplined(calls, 3) && CallsAsDue(script, policy, end, calls) && Reports(script, policy, end, failures)
  {
    StoppedBy(script);
    if !s.workJoined && end.workReturns.None? { return s.calls, s.primary + {WorkNotStopped}; }
    var drained, renewal := Drain(script, s, end);
    calls, failures := CleanUp(drained, policy, end, renewal);
  }

  /**
   One lifecycle. It makes the calls the script asks for until the first event that stops it, and every call keeps the
   discipline: no overlap, a release only after the work joined and with no renewal possibly unresolved. It makes one
   cleanup renewal exactly when that is due, and releases exactly when that is due, as often as the answers call for.
   */
  method Run(check0: Option<Error>, script: seq<Event>, policy: Policy, end: Ending)
    returns (calls: seq<Call>, failures: set<Failure>)
    requires Clocked(end)
    ensures Disciplined(calls, 3)
    ensures check0.Some? ==> calls == [] && failures == {Lost, Client(check0.value)}
    ensures check0.None? ==> CallsAsDue(script, policy, end, calls) && Reports(script, policy, end, failures)
    // whose release it is: the policy's, for a work that returned or for a cancellation, in time, for a good lease
    ensures Releases(calls) > 0 ==>
              && Asked(StoppingEvent(script), policy)
              && (StoppingEvent(script).WorkReturns? || end.workReturns.Some?)
              && 0 != end.validUntil > end.cleanupAt
              && end.check.None?
    ensures check0.None? && Asked(StoppingEvent(script), policy) && Untroubled(script, end) ==> Releases(calls) > 0
  {
    if check0.Some? { return [], {Lost, Client(check0.value)}; }
    var s := RunLoop(script);
    calls, failures := ShutDown(script, s, policy, end);
    DueCallsAreAsked(script, policy, end, calls);
  }
}
