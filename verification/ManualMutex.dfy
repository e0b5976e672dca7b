/**
 The manual half of the mutex: the renewal loop of one acquisition, and the release that takes over from it. As for the
 holder, events and answers are scripted and arbitrary.
 */
module ManualMutex {
  import opened Basics
  import opened Lifecycle

  // What the loop's select statement picks; a renewal is called and awaited within one event.
  datatype Event =
    | Canceled
    | LeaseDone
    | Renewal(outcome: Option<Error>, canceled: bool)

  datatype LoopResult = LoopResult(pending: bool, suppressRelease: bool, authorityWasLost: bool, failed: bool)

  function StoppedManualRenewalState(resolving: bool, outcome: Option<Error>): LoopResult {
    match outcome
    case None => LoopResult(false, false, false, false)
    case Some(e) =>
      if e == UnknownOutcome then LoopResult(true, false, false, false)
      else if IsLeaseLoss(e) then LoopResult(false, false, true, true)
      else if resolving then LoopResult(false, true, false, true)
      else LoopResult(false, false, false, false)
  }

  // The result is honest about the calls made: without a failure it says exactly whether a renewal may be unresolved, and
  // a failure suppresses the release if one is, unless authority is gone anyway.
  predicate Honest(calls: seq<Call>, r: LoopResult) {
    && (r.pending || r.suppressRelease ==> Unresolved(calls))
    && (!r.failed ==> r.pending == Unresolved(calls) && !r.suppressRelease && !r.authorityWasLost)
    && (r.failed ==> !r.pending && (Unresolved(calls) ==> r.suppressRelease || r.authorityWasLost))
  }

  predicate OnlyRenewals(calls: seq<Call>) {
    Disciplined(calls, 1) && !InFlight(calls) && !Joined(calls) && Releases(calls) == 0 && CleanupRenews(calls) == 0
  }

  // One renewal, called and awaited.
  method RenewOnce(calls: seq<Call>, outcome: Option<Error>) returns (calls': seq<Call>)
    requires OnlyRenewals(calls)
    ensures OnlyRenewals(calls') && calls' == calls + [StartRenew(false), EndRenew(outcome)]
    ensures Unresolved(calls') == if outcome.None? then false
                                  else outcome == Some(UnknownOutcome) || Unresolved(calls)
  {
    Appended(calls, StartRenew(false), 1);
    calls' := calls + [StartRenew(false)];
    Appended(calls', EndRenew(outcome), 1);
    calls' := calls' + [EndRenew(outcome)];
  }

  // What the loop makes of a script, told by the calls it made so far ----------------------------------------------------

  function CallsOf(events: seq<Event>): seq<Call> {
    if events == [] then []
    else
      var e := events[|events| - 1];
      CallsOf(events[..|events| - 1]) + if e.Renewal? then [StartRenew(false), EndRenew(e.outcome)] else []
  }

  predicate ReportsLoss(e: Event) {
    e.LeaseDone? || (e.Renewal? && e.outcome.Some? && IsLeaseLoss(e.outcome.value))
  }

  // A renewal fails for another definite reason: one that is not worth a retry, or any that leaves an earlier renewal in
  // doubt. After a cancellation only the doubt matters.
  predicate GivesUp(unresolved: bool, e: Event) {
    && e.Renewal? && e.outcome.Some? && e.outcome.value != UnknownOutcome && !ReportsLoss(e)
    && (unresolved || (!e.canceled && !Retryable(e.outcome.value)))
  }

  predicate StopsAt(script: seq<Event>, n: nat)
    requires n < |script|
  {
    var e := script[n];
    e.Canceled? || (e.Renewal? && e.canceled) || ReportsLoss(e) || GivesUp(Unresolved(CallsOf(script[..n])), e)
  }

  // Of every event, whether it stops the loop.
  function Flags(script: seq<Event>): (stops: seq<bool>)
    ensures |stops| == |script|
  {
    seq(|script|, n requires 0 <= n < |script| => StopsAt(script, n))
  }

  function AtStop(script: seq<Event>): seq<Call> {
    TakenIsFirst(Flags(script), 0);
    CallsOf(script[..Taken(Flags(script), 0)])
  }

  // What the loop has to report: a loss or a failure if the last event it took says so, and otherwise whether a renewal may
  // be unresolved.
  function Report(script: seq<Event>): LoopResult {
    TakenIsFirst(Flags(script), 0);
    var t := Taken(Flags(script), 0);
    var lost := t > 0 && ReportsLoss(script[t - 1]);
    var failed := t > 0 && GivesUp(Unresolved(CallsOf(script[..t - 1])), script[t - 1]);
    var doubt := Unresolved(AtStop(script));
    LoopResult(doubt && !lost && !failed, doubt && failed, lost, lost || failed)
  }

  // One more event that is taken.
  lemma OneMore(script: seq<Event>, n: nat)
    requires n < |script|
    ensures CallsOf(script[..n + 1]) ==
            CallsOf(script[..n]) + if script[n].Renewal? then [StartRenew(false), EndRenew(script[n].outcome)] else []
    ensures Taken(Flags(script), n) == if StopsAt(script, n) then n + 1 else Taken(Flags(script), n + 1)
  {
    assert script[..n + 1][..n] == script[..n];
  }

  // What the script comes to when its n-th event is the last one taken.
  lemma Ended(script: seq<Event>, n: nat)
    requires n < |script| && Taken(Flags(script), 0) == n + 1
    ensures var lost := ReportsLoss(script[n]);
            var failed := GivesUp(Unresolved(CallsOf(script[..n])), script[n]);
            var doubt := Unresolved(CallsOf(script[..n + 1]));
            && AtStop(script) == CallsOf(script[..n + 1])
            && Report(script) == LoopResult(doubt && !lost && !failed, doubt && failed, lost, lost || failed)
  {
  }

  /** The renewal loop. A script that runs out ends with cancellation. */
  method RenewLoop(script: seq<Event>) returns (calls: seq<Call>, r: LoopResult)
    ensures calls == AtStop(script) && r == Report(script)
    ensures OnlyRenewals(calls) && Honest(calls, r)
  {
    calls := [];
    var pending := false;
    for n := 0 to |script|
      invariant OnlyRenewals(calls) && pending == Unresolved(calls)
      invariant calls == CallsOf(script[..n]) && Taken(Flags(script), n) == Taken(Flags(script), 0)
      invariant n > 0 ==> !StopsAt(script, n - 1)
    {
      OneMore(script, n);
      if StopsAt(script, n) { Ended(script, n); }
      match script[n]
      case Canceled => return calls, LoopResult(pending, false, false, false);
      case LeaseDone => return calls, LoopResult(false, false, true, true);
      case Renewal(outcome, canceled) =>
        var resolving := pending;
        calls := RenewOnce(calls, outcome);
        if canceled { return calls, StoppedManualRenewalState(resolving, outcome); }
        if outcome.None? {
          pending := false;
        } else if outcome.value == UnknownOutcome {
          pending := true;
        } else if IsLeaseLoss(outcome.value) {
          return calls, LoopResult(false, false, true, true);
        } else if resolving {
          return calls, LoopResult(false, true, false, true);
        } else if Retryable(outcome.value) {
          pending := false;
        } else {
          return calls, LoopResult(false, false, false, true);
        }
    }
    r := LoopResult(pending, false, false, false);
  }

  // What Release meets after the loop was told to stop.
  datatype Ending = Ending(
    waitGivenUp: bool,           // the caller's context ended before the loop reported
    inTime: bool,                // the deadline had not passed when the cleanup began
    cleanupRenew: Option<Error>,
    check: Option<Error>,
    release: Option<Error>)

  // Once the loop reported the lease as lost, its check fails; LeaseLoss proves that of the client.
  predicate LossShows(r: LoopResult, end: Ending) {
    r.authorityWasLost ==> end.check.Some?
  }

  // What has to hold for a cleanup: the loop was waited for, nothing forbids it, and the deadline has not passed.
  predicate CleanupBegins(r: LoopResult, end: Ending) {
    !end.waitGivenUp && !r.suppressRelease && end.inTime
  }

  predicate ReleaseDue(r: LoopResult, end: Ending) {
    CleanupBegins(r, end) && (r.pending ==> end.cleanupRenew.None?) && end.check.None?
  }

  // The one cleanup renewal, which reconciles a pending one.
  method CleanupRenew(calls: seq<Call>, outcome: Option<Error>) returns (calls': seq<Call>)
    requires Disciplined(calls, 1) && !InFlight(calls) && Joined(calls)
    requires Releases(calls) == 0 && CleanupRenews(calls) == 0
    ensures Disciplined(calls', 1) && calls < calls' && Releases(calls') == 0 && CleanupRenews(calls') == 1
    ensures Joined(calls') && !InFlight(calls') && (outcome.None? ==> !Unresolved(calls'))
  {
    Appended(calls, StartRenew(true), 1);
    calls' := calls + [StartRenew(true)];
    Appended(calls', EndRenew(outcome), 1);
    calls' := calls' + [EndRenew(outcome)];
  }

  /**
   Release of one manual acquisition, whose caller has stopped its work: a cleanup renewal and a release exactly when they
   are due, neither of them before the loop reported, and no release while a renewal may be unresolved.
   */
  method ReleaseManual(calls: seq<Call>, r: LoopResult, end: Ending) returns (calls': seq<Call>)
    requires OnlyRenewals(calls) && Honest(calls, r) && LossShows(r, end)
    ensures Disciplined(calls', 1) && calls <= calls'
    ensures Releases(calls') == if ReleaseDue(r, end) then 1 else 0
    ensures CleanupRenews(calls') == if CleanupBegins(r, end) && r.pending then 1 else 0
  {
    Appended(calls, WorkJoined, 1);
    calls' := calls + [WorkJoined];
    if end.waitGivenUp || r.suppressRelease || !end.inTime { return; }
    if r.pending {
      calls' := CleanupRenew(calls', end.cleanupRenew);
      if end.cleanupRenew.Some? { return; }
    }
    if end.check.Some? { return; }
    Appended(calls', Release(end.release), 1);
    calls' := calls' + [Release(end.release)];
  }

  // Whether renewals went without an error, as far as the loop took events.
  ghost predicate Smooth(script: seq<Event>) {
    TakenIsFirst(Flags(script), 0);
    forall n :: 0 <= n < Taken(Flags(script), 0) ==>
                  script[n].Canceled? || (script[n].Renewal? && script[n].outcome.None?)
  }

  lemma {:induction false} SmoothIsSettled(script: seq<Event>, n: nat)
    requires n <= |script|
    requires forall m :: 0 <= m < n ==> script[m].Canceled? || (script[m].Renewal? && script[m].outcome.None?)
    ensures !Unresolved(CallsOf(script[..n]))
  {
    if n > 0 {
      SmoothIsSettled(script, n - 1);
      OneMore(script, n - 1);
      var calls := CallsOf(script[..n - 1]);
      if script[n - 1].Renewal? {
        assert Last(calls + [StartRenew(false), EndRenew(None)]) == EndRenew(None);
      } else {
        assert CallsOf(script[..n]) == calls;
      }
    }
  }

  lemma SmoothReports(script: seq<Event>)
    requires Smooth(script)
    ensures Report(script) == LoopResult(false, false, false, false)
  {
    TakenIsFirst(Flags(script), 0);
    SmoothIsSettled(script, Taken(Flags(script), 0));
  }

  /**
   Which events end the loop: a cancellation, also one found when a renewal returns; the lease's end; and a renewal's definite
   error, or any error but an unknown outcome that leaves an earlier renewal in doubt.
   */
  lemma StopsExactly(script: seq<Event>, n: nat)
    requires n < |script|
    ensures var (e, doubt) := (script[n], Unresolved(CallsOf(script[..n])));
            StopsAt(script, n) <==>
              || e.Canceled? || e.LeaseDone?
              || (&& e.Renewal?
                  && (|| e.canceled
                      || (&& e.outcome.Some? && e.outcome.value != UnknownOutcome
                          && (doubt || e.outcome.value !in {Unavailable, DeadlineExceeded}))))
    ensures ReportsLoss(script[n]) <==>
              || script[n].LeaseDone?
              || (&& script[n].Renewal? && script[n].outcome.Some?
                  && script[n].outcome.value in {LeaseExpired, LeaseRetired, OwnershipLost, InvalidLease})
  {
  }

  /** One manual acquisition from its first renewal to its release, as its script and its ending determine it. */
  method Lifetime(script: seq<Event>, end: Ending) returns (calls: seq<Call>, r: LoopResult)
    requires LossShows(Report(script), end)
    ensures r == Report(script) && AtStop(script) <= calls && Honest(AtStop(script), r)
    ensures Disciplined(calls, 1)
    ensures Releases(calls) == if ReleaseDue(Report(script), end) then 1 else 0
    ensures CleanupRenews(calls) == if CleanupBegins(Report(script), end) && Report(script).pending then 1 else 0
    // a release comes after the loop, in time, for a good lease; and if the renewals went well, always then
    ensures Releases(calls) > 0 ==> !end.waitGivenUp && end.inTime && end.check.None? && !r.suppressRelease
    ensures !end.waitGivenUp && end.inTime && end.check.None? && Smooth(script) ==> Releases(calls) == 1
  {
    if Smooth(script) { SmoothReports(script); }
    calls, r := RenewLoop(script);
    calls := ReleaseManual(calls, r, end);
  }
}
