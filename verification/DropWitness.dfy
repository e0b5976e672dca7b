/**
 A second concrete run: a renewal whose outcome is unknown is sent again, the second request is answered by a definite
 error, and the client goes on to freeze another renewal while the first one may still commit, and then does.
 */
module DropWitness {
  import opened Basics
  import opened LeaseRecords
  import opened LeaseClient
  import opened LeaseSystem
  import opened LeaseTheorems
  import opened LeaseRetention
  import opened LeaseWitness

  function Renewal(id: nat, wall: Time): Proposal {
    Proposal(id, ProposalKind.Renew, 0, Created().(renewTime := wall, sequenceID := 2), Some(0), 10, 10 + SECOND)
  }

  function First(): Proposal { Renewal(1, 2) }

  function Second(): Proposal { Renewal(2, 3) }

  function Both(): set<Write> { {Write(0, Create()), Write(0, First())} }

  // Process 0 after reading its own record again.
  function Reader(): Client {
    Holder().(pending := Some(First()), observed := Some(Observed(Created(), 0, 10, 10)), generation := 2)
  }

  // Process 0 from its grant on.
  function R(k: nat): Process {
    var (none, seen, begun) := (ReadMissing(), ReadOf(1, Created(), 0), Snapshot(Created(), 0, 10 + SECOND));
    var (unsure, cleared) := (Holder().(pending := Some(First())), Reader().(pending := None));
    match k
    case 0 => Process(Holder(), [none], Idle, 1)
    case 1 => Process(Holder(), [none], RenewAdmitted(0), 1)
    case 2 => Process(Holder(), [none], RenewBegun(0, begun), 1)
    case 3 => Process(Holder(), [none], RenewBuilt(First()), 2)
    case 4 => Process(unsure, [none], PendingReady(First()), 2)
    case 5 => Process(unsure, [none], PendingSent(First()), 2)
    case 6 => Process(unsure, [none], Idle, 2)
    case 7 => Process(unsure, [none], Reconciling(First(), false), 2)
    case 8 => Process(unsure, [none, Read(1, None, false)], ReconcileReading(First(), 1, false), 2)
    case 9 => Process(unsure, [none, seen.(done := false)], ReconcileReading(First(), 1, false), 2)
    case 10 => Process(Reader(), [none, seen], ReconcileRead(First(), Reader().observed.value, false), 2)
    case 11 => Process(Reader(), [none, seen], PendingReady(First()), 2)
    case 12 => Process(Reader(), [none, seen], PendingSent(First()), 2)
    case 13 => Process(cleared, [none, seen], Idle, 2)
    case 14 => Process(cleared, [none, seen], RenewAdmitted(0), 2)
    case 15 => Process(cleared, [none, seen], RenewBegun(0, begun), 2)
    case 16 => Process(cleared, [none, seen], RenewBuilt(Second()), 3)
    case _ => Process(cleared.(pending := Some(Second())), [none, seen], PendingReady(Second()), 3)
  }

  // Process 0 starts a renewal.
  lemma Validates() returns (run: seq<System>, steps: seq<Step>)
    ensures RunTo(run, steps, At(Log(1), Sent(1), R(2), Q(0)))
  {
    run, steps := Acquires();
    run, steps := Moves(run, steps, Log(1), Sent(1), R(0), Q(0), 0, Event.Renew(0), R(1), Sent(1));
    run, steps := Moves(run, steps, Log(1), Sent(1), R(1), Q(0), 0, ValidateRenewal, R(2), Sent(1));
  }

  // It freezes the first one.
  lemma Freezes() returns (run: seq<System>, steps: seq<Step>)
    ensures RunTo(run, steps, At(Log(1), Sent(1), R(4), Q(0)))
  {
    run, steps := Validates();
    run, steps := Moves(run, steps, Log(1), Sent(1), R(2), Q(0), 0, BuildRenewal(2), R(3), Sent(1));
    run, steps := Moves(run, steps, Log(1), Sent(1), R(3), Q(0), 0, FreezeRenewal, R(4), Sent(1));
  }

  // It sends it, and is not told what became of it.
  lemma Asks() returns (run: seq<System>, steps: seq<Step>)
    ensures RunTo(run, steps, At(Log(1), Both(), R(6), Q(0)))
  {
    run, steps := Freezes();
    run, steps := Moves(run, steps, Log(1), Sent(1), R(4), Q(0), 0, SendPending, R(5), Both());
    run, steps := Moves(run, steps, Log(1), Both(), R(5), Q(0), 0, PendingReply(OutcomeUnknown), R(6), Both());
  }

  // It comes back to it.
  lemma Returns() returns (run: seq<System>, steps: seq<Step>)
    ensures RunTo(run, steps, At(Log(1), Both(), R(7), Q(0)))
  {
    run, steps := Asks();
    run, steps := Moves(run, steps, Log(1), Both(), R(6), Q(0), 0, Event.Renew(0), R(7), Both());
  }

  // It reads first.
  lemma Reconciles() returns (run: seq<System>, steps: seq<Step>)
    ensures RunTo(run, steps, At(Log(1), Both(), R(8), Q(0)))
  {
    run, steps := Returns();
    run, steps := Moves(run, steps, Log(1), Both(), R(7), Q(0), 0, StartReconcileRead(10), R(8), Both());
  }

  // The store answers.
  lemma Rereads() returns (run: seq<System>, steps: seq<Step>)
    ensures RunTo(run, steps, At(Log(1), Both(), R(9), Q(0)))
  {
    run, steps := Reconciles();
    run, steps := Moves(run, steps, Log(1), Both(), R(8), Q(0), 0, FetchObject(1), R(9), Both());
  }

  // It finds its predecessor still stored.
  lemma Resolves() returns (run: seq<System>, steps: seq<Step>)
    ensures RunTo(run, steps, At(Log(1), Both(), R(10), Q(0)))
  {
    run, steps := Rereads();
    assert FinishRead(R(9).client, 1, Object(Created(), 0), 10).0 == Reader();
    assert ObservationNext(Pair(), World(0, Log(1), Both()), 0, R(9), FinishReading(1, 10), R(10));
    run, steps := Moves(run, steps, Log(1), Both(), R(9), Q(0), 0, FinishReading(1, 10), R(10), Both());
  }

  // It is about to send the same bytes again.
  lemma Readies() returns (run: seq<System>, steps: seq<Step>)
    ensures RunTo(run, steps, At(Log(1), Both(), R(11), Q(0)))
  {
    run, steps := Resolves();
    run, steps := Moves(run, steps, Log(1), Both(), R(10), Q(0), 0, ResolveReadback, R(11), Both());
  }

  // It sends them.
  lemma Resends() returns (run: seq<System>, steps: seq<Step>)
    ensures RunTo(run, steps, At(Log(1), Both(), R(12), Q(0)))
  {
    run, steps := Readies();
    run, steps := Moves(run, steps, Log(1), Both(), R(11), Q(0), 0, SendPending, R(12), Both());
  }

  // The run from its d-th step on, which drops the first renewal.
  ghost predicate DroppedAt(run: seq<System>, steps: seq<Step>, d: nat) {
    && d < |steps| && |run| == |steps| + 1
    && run[d] == At(Log(1), Both(), R(12), Q(0))
    && steps[d] == Local(0, PendingReply(OtherFailure))
  }

  // The second request is denied.
  lemma IsDenied() returns (run: seq<System>, steps: seq<Step>, d: nat)
    ensures RunTo(run, steps, At(Log(1), Both(), R(13), Q(0))) && DroppedAt(run, steps, d)
  {
    run, steps := Resends();
    d := |steps|;
    run, steps := Moves(run, steps, Log(1), Both(), R(12), Q(0), 0, PendingReply(OtherFailure), R(13), Both());
  }

  // It starts another renewal.
  lemma AdmitsAnother() returns (run: seq<System>, steps: seq<Step>, d: nat)
    ensures RunTo(run, steps, At(Log(1), Both(), R(14), Q(0))) && DroppedAt(run, steps, d)
  {
    run, steps, d := IsDenied();
    run, steps := Moves(run, steps, Log(1), Both(), R(13), Q(0), 0, Event.Renew(0), R(14), Both());
  }

  // Its lease is good.
  lemma ValidatesAnother() returns (run: seq<System>, steps: seq<Step>, d: nat)
    ensures RunTo(run, steps, At(Log(1), Both(), R(15), Q(0))) && DroppedAt(run, steps, d)
  {
    run, steps, d := AdmitsAnother();
    run, steps := Moves(run, steps, Log(1), Both(), R(14), Q(0), 0, ValidateRenewal, R(15), Both());
  }

  // It builds one.
  lemma BuildsAnother() returns (run: seq<System>, steps: seq<Step>, d: nat)
    ensures RunTo(run, steps, At(Log(1), Both(), R(16), Q(0))) && DroppedAt(run, steps, d)
  {
    run, steps, d := ValidatesAnother();
    run, steps := Moves(run, steps, Log(1), Both(), R(15), Q(0), 0, BuildRenewal(3), R(16), Both());
  }

  // It freezes it.
  lemma FreezesAnother() returns (run: seq<System>, steps: seq<Step>, d: nat)
    ensures RunTo(run, steps, At(Log(1), Both(), R(17), Q(0))) && DroppedAt(run, steps, d)
  {
    run, steps, d := BuildsAnother();
    run, steps := Moves(run, steps, Log(1), Both(), R(16), Q(0), 0, FreezeRenewal, R(17), Both());
  }

  /**
   The rule is broken in a reachable state: the lease is good, another renewal is pending, and the first one, sent and
   dropped, is the very next write the store may accept; and it can.
   */
  lemma AnotherWhileOpen() returns (run: seq<System>, steps: seq<Step>, d: nat)
    ensures IsRun(Pair(), run, steps) && d < |steps| - 1
    ensures |run[d].procs| == |run[|steps| - 1].procs| == 2
    ensures Pends(run[d].procs[0].client, First()) && OutcomeOpen(run[d], 0, First())
    ensures RuleBroken(run, steps, d, |steps| - 1, 0, First())
    ensures run[|steps| - 1].procs[0].client.pending == Some(Second()) && Second() != First()
    ensures Holds(Pair(), run[|steps| - 1], 0, 0) && OutcomeOpen(run[|steps| - 1], 0, First())
    ensures steps[|steps| - 1] == Deliver(Write(0, First())) && CommittedAt(run[|steps|].log, 0, First(), 1)
  {
    run, steps, d := FreezesAnother();
    var b := |steps|;
    var (s, q) := (At(Log(1), Both(), R(17), Q(0)), First());
    assert DropsRenewal(run[d], steps[d], 0, q);
    RuleBreaksByDropping(Pair(), run, steps, d, b, 0, q);
    var (run0, steps0) := (run, steps);
    run, steps := Extend(run, steps, s, Deliver(Write(0, q)), s.(log := s.log + [Commit(0, q, 0)]));
    assert RuleBroken(run, steps, d, b, 0, q) by {
      forall k | d <= k < b ensures !ConfirmsRenewal(run[k], steps[k], 0, q) {
        assert !ConfirmsRenewal(run0[k], steps0[k], 0, q);
      }
    }
  }
}
