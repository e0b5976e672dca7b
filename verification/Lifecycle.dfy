/** What a recipe asks of the lease client while it holds one lease, and the discipline those calls must keep. */
module Lifecycle {
  import opened Basics

  // A renewal is two events, because a recipe can lose patience with it; a release is called and awaited.
  datatype Call =
    | WorkJoined
    | StartRenew(cleanup: bool)
    | EndRenew(outcome: Option<Error>)
    | Release(outcome: Option<Error>)

  function Last(calls: seq<Call>): Call
    requires calls != []
  {
    calls[|calls| - 1]
  }

  function Before(calls: seq<Call>): seq<Call>
    requires calls != []
  {
    calls[..|calls| - 1]
  }

  // A renewal was started and has not returned.
  predicate InFlight(calls: seq<Call>) {
    calls != [] &&
    match Last(calls)
    case StartRenew(_) => true
    case EndRenew(_) => false
    case _ => InFlight(Before(calls))
  }

  // A renewal ended with an unknown outcome and none has succeeded since: its write may still be unresolved.
  predicate Unresolved(calls: seq<Call>) {
    calls != [] &&
    match Last(calls)
    case EndRenew(None) => false
    case EndRenew(Some(e)) => e == UnknownOutcome || Unresolved(Before(calls))
    case _ => Unresolved(Before(calls))
  }

  predicate Joined(calls: seq<Call>) {
    calls != [] && (Last(calls).WorkJoined? || Joined(Before(calls)))
  }

  function Releases(calls: seq<Call>): nat {
    if calls == [] then 0 else Releases(Before(calls)) + (if Last(calls).Release? then 1 else 0)
  }

  function CleanupRenews(calls: seq<Call>): nat {
    if calls == [] then 0 else CleanupRenews(Before(calls)) + (if Last(calls) == StartRenew(true) then 1 else 0)
  }

  /** The next call is allowed after these. */
  predicate Allowed(calls: seq<Call>, next: Call, limit: nat) {
    match next
    case WorkJoined => !Joined(calls)
    case StartRenew(cleanup) =>
      && !InFlight(calls)
      && Releases(calls) == 0
      && (cleanup ==> Joined(calls) && CleanupRenews(calls) == 0)
      && (!cleanup ==> CleanupRenews(calls) == 0)
    case EndRenew(_) => InFlight(calls)
    case Release(_) =>
      && !InFlight(calls)
      && Joined(calls)
      && !Unresolved(calls)
      && Releases(calls) < limit
      && (Releases(calls) > 0 ==> Last(calls) == Release(Some(UnknownOutcome)))
  }

  /**
   Renewals never overlap each other or a release; a release comes only after the work joined, only when no renewal can
   still be unresolved, at most `limit` times, and again only to resolve its own unknown outcome; no renewal follows one.
   */
  predicate Disciplined(calls: seq<Call>, limit: nat) {
    calls != [] ==> Disciplined(Before(calls), limit) && Allowed(Before(calls), Last(calls), limit)
  }

  // The discipline, read at any position of the whole record of calls.
  lemma {:induction false} DisciplinedAt(calls: seq<Call>, limit: nat, k: nat)
    requires Disciplined(calls, limit) && k < |calls|
    ensures Allowed(calls[..k], calls[k], limit)
    decreases |calls|
  {
    if k < |calls| - 1 {
      DisciplinedAt(Before(calls), limit, k);
      assert Before(calls)[..k] == calls[..k];
    }
  }

  /** Between two renewals that start there is one that ends: at no point are two in flight. */
  lemma {:induction false} RenewalsDisjoint(calls: seq<Call>, limit: nat, j: nat, k: nat)
    requires Disciplined(calls, limit) && j < k < |calls| && calls[j].StartRenew?
    requires calls[k].StartRenew? || calls[k].Release?
    ensures exists m :: j < m < k && calls[m].EndRenew?
  {
    DisciplinedAt(calls, limit, k);
    var m := LastRenewalEvent(calls[..k], j);
    assert calls[m].EndRenew?;
  }

  // With a renewal started at j and none in flight at the end, some renewal ended after j.
  lemma {:induction false} LastRenewalEvent(calls: seq<Call>, j: nat) returns (m: nat)
    requires j < |calls| && calls[j].StartRenew? && !InFlight(calls)
    ensures j < m < |calls| && calls[m].EndRenew?
    decreases |calls|
  {
    if Last(calls).EndRenew? {
      m := |calls| - 1;
    } else {
      m := LastRenewalEvent(Before(calls), j);
    }
  }

  /** What one more allowed call changes. */
  lemma Appended(calls: seq<Call>, next: Call, limit: nat)
    requires Disciplined(calls, limit) && Allowed(calls, next, limit)
    ensures Disciplined(calls + [next], limit) && Last(calls + [next]) == next
    ensures InFlight(calls + [next]) == (next.StartRenew? || (!next.EndRenew? && InFlight(calls)))
    ensures Unresolved(calls + [next]) == if next == EndRenew(None) then false
                                          else next == EndRenew(Some(UnknownOutcome)) || Unresolved(calls)
    ensures Joined(calls + [next]) == (next.WorkJoined? || Joined(calls))
    ensures Releases(calls + [next]) == Releases(calls) + if next.Release? then 1 else 0
    ensures CleanupRenews(calls + [next]) == CleanupRenews(calls) + if next == StartRenew(true) then 1 else 0
  {
    assert Before(calls + [next]) == calls;
  }

  // A loop that takes events until one stops it: of events marked with whether they stop it, the number taken, n of which
  // have been taken already.
  function Taken(stops: seq<bool>, n: nat): nat
    requires n <= |stops|
    decreases |stops| - n
  {
    if n == |stops| then n else if stops[n] then n + 1 else Taken(stops, n + 1)
  }

  /** The loop takes the events up to the first that stops it, or all of them. */
  lemma {:induction false} TakenIsFirst(stops: seq<bool>, n: nat)
    requires n <= |stops|
    ensures n <= Taken(stops, n) <= |stops|
    ensures forall m :: n <= m < Taken(stops, n) - 1 ==> !stops[m]
    ensures Taken(stops, n) == |stops| || (n < Taken(stops, n) && stops[Taken(stops, n) - 1])
    decreases |stops| - n
  {
    if n < |stops| && !stops[n] { TakenIsFirst(stops, n + 1); }
  }

  predicate Retryable(e: Error) {
    e == Unavailable || e == DeadlineExceeded
  }

  predicate IsLeaseLoss(e: Error) {
    e == LeaseExpired || e == LeaseRetired || e == OwnershipLost || e == InvalidLease
  }
}
