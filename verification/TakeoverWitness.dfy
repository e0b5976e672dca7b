/**
 Concrete runs that end with a second process granted: by taking over what the first one released, and by waiting out a lease
 that was not released, read once before the wait and once after it.
 */
module TakeoverWitness {
  import opened Basics
  import opened LeaseRecords
  import opened LeaseClient
  import opened LeaseSystem
  import opened LeaseTheorems
  import opened LeaseWitness

  // One event of process i.
  lemma Turn(run: seq<System>, steps: seq<Step>, s: System, i: nat, e: Event, after: Process)
    returns (run': seq<System>, steps': seq<Step>, s': System)
    requires RunTo(run, steps, s) && |s.procs| == 2 && i < 2
    requires LocalNext(Pair(), WorldOf(s), i, s.procs[i], e, after)
    ensures s' == s.(procs := s.procs[i := after], sent := s.sent + Emitted(i, s.procs[i], e))
    ensures RunTo(run', steps', s') && run < run' && steps' == steps + [Local(i, e)]
  {
    s' := s.(procs := s.procs[i := after], sent := s.sent + Emitted(i, s.procs[i], e));
    run', steps' := Extend(run, steps, s, Local(i, e), s');
  }

  // After a release ---------------------------------------------------------------------------------------------------------

  lemma TakeoverIsAnswered() returns (run: seq<System>, steps: seq<Step>, s: System)
    ensures RunTo(run, steps, s) && s.now == 0 && s.log == Log(3) && |s.procs| == 2
    ensures s.procs[1] == Process(Successor(), [ReadOf(0, Released(), 1)], AcquireReplied(TakeOver(), 2), 1)
  {
    run, steps := TakesOver();
    run, steps, s := Turn(run, steps, At(Log(3), Sent(3), P(13), Q(6)), 1, AcquisitionReply(Committed(2)),
                          Process(Successor(), [ReadOf(0, Released(), 1)], AcquireReplied(TakeOver(), 2), 1));
  }

  function Granted(c: Client, q: Proposal, v: Version): Process {
    Process(ConfirmAcquisition(c, q, v, 20, false).0, [ReadOf(0, Released(), 1)], Idle, 1)
  }

  /** A second process holds a lease of the next epoch. */
  lemma SecondIsGranted() returns (run: seq<System>, steps: seq<Step>)
    ensures IsRun(Pair(), run, steps) && |run[|steps|].procs| == 2
    ensures Holds(Pair(), run[|steps|], 1, 0) && run[|steps|].procs[1].client.leases[0].epochID == 2
  {
    var s;
    run, steps, s := TakeoverIsAnswered();
    run, steps, s := Turn(run, steps, s, 1, ConfirmAcquired(false), Granted(Successor(), TakeOver(), 2));
  }

  // After a wait --------------------------------------------------------------------------------------------------------------

  // Process 1 after reading the held record at local time `readAt`, having read it first at 20.
  function Reader(generation: nat, readAt: Time): Client {
    NewClient(ConfigOf("b")).(observed := Some(Observed(Created(), 0, 20, readAt)), generation := generation)
  }

  function Early(): Read { ReadOf(0, Created(), 0) }

  function Late(): Read { Read(1, Some(Fetch(Object(Created(), 0), 2 * SECOND)), true) }

  function TakeLate(): Proposal {
    Proposal(0, Acquire, 0,
             Created().(clientID := "b", acquireTime := 3, renewTime := 3, epochID := 2, sequenceID := 1), Some(0),
             20 + 2 * SECOND, ZERO_TIME)
  }

  // Process 1 after each of its steps.
  function W(k: nat): Process {
    var unborn := NewClient(ConfigOf("b"));
    match k
    case 0 => Process(unborn, [], Idle, 0)
    case 1 => Process(unborn, [], RequirePrepared, 0)
    case 2 => Process(unborn, [Read(0, None, false)], RequireReading(0), 0)
    case 3 => Process(unborn, [Early().(done := false)], RequireReading(0), 0)
    case 4 => Process(Reader(1, 20), [Early()], RequireRead(Reader(1, 20).observed), 0)
    case 5 => Process(Reader(1, 20), [Early()], Idle, 0)
    case 6 => Process(Reader(1, 20), [Early()], RequirePrepared, 0)
    case 7 => Process(Reader(1, 20), [Early(), Read(1, None, false)], RequireReading(1), 0)
    case 8 => Process(Reader(1, 20), [Early(), Late().(done := false)], RequireReading(1), 0)
    case 9 => Process(Reader(2, 20 + 2 * SECOND), [Early(), Late()], RequireRead(Reader(2, 20 + 2 * SECOND).observed), 0)
    case 10 => Process(Reader(2, 20 + 2 * SECOND), [Early(), Late()], AcquireFrozen(TakeLate()), 1)
    case 11 => Process(Reader(2, 20 + 2 * SECOND), [Early(), Late()], AcquireSent(TakeLate()), 1)
    case 12 => Process(Reader(2, 20 + 2 * SECOND), [Early(), Late()], AcquireReplied(TakeLate(), 1), 1)
    case _ => Process(ConfirmAcquisition(Reader(2, 20 + 2 * SECOND), TakeLate(), 1, 20 + 2 * SECOND, false).0,
                      [Early(), Late()], Idle, 1)
  }

  function Waiting(now: Time, k: nat): System {
    System(now, Log(1), Sent(1), [P(8), W(k)])
  }

  lemma Asks() returns (run: seq<System>, steps: seq<Step>)
    ensures RunTo(run, steps, Waiting(0, 2))
  {
    var s := Waiting(0, 0);
    run, steps := Acquires();
    assert s == At(Log(1), Sent(1), P(8), Q(0));
    run, steps, s := Turn(run, steps, s, 1, Require, W(1));
    run, steps, s := Turn(run, steps, s, 1, StartRequireRead, W(2));
  }

  lemma FetchesHeld() returns (run: seq<System>, steps: seq<Step>)
    ensures RunTo(run, steps, Waiting(0, 3))
  {
    var s := Waiting(0, 2);
    run, steps := Asks();
    run, steps, s := Turn(run, steps, s, 1, FetchObject(0), W(3));
  }

  lemma ReadsHeld() returns (run: seq<System>, steps: seq<Step>)
    ensures RunTo(run, steps, Waiting(0, 4))
  {
    var s := Waiting(0, 3);
    run, steps := FetchesHeld();
    run, steps, s := Turn(run, steps, s, 1, FinishReading(0, 20), W(4));
  }

  // It is not eligible, and waits.
  lemma Waits() returns (run: seq<System>, steps: seq<Step>)
    ensures RunTo(run, steps, Waiting(2 * SECOND, 5))
  {
    var s := Waiting(0, 4);
    run, steps := ReadsHeld();
    run, steps, s := Turn(run, steps, s, 1, FreezeAcquisition(20, 3, "v"), W(5));
    run, steps := Extend(run, steps, s, Tick(2 * SECOND), Waiting(2 * SECOND, 5));
  }

  lemma AsksAgain() returns (run: seq<System>, steps: seq<Step>)
    ensures RunTo(run, steps, Waiting(2 * SECOND, 7))
  {
    var s := Waiting(2 * SECOND, 5);
    run, steps := Waits();
    run, steps, s := Turn(run, steps, s, 1, Require, W(6));
    run, steps, s := Turn(run, steps, s, 1, StartRequireRead, W(7));
  }

  lemma FetchesUnchanged() returns (run: seq<System>, steps: seq<Step>)
    ensures RunTo(run, steps, Waiting(2 * SECOND, 8))
  {
    var s := Waiting(2 * SECOND, 7);
    run, steps := AsksAgain();
    run, steps, s := Turn(run, steps, s, 1, FetchObject(1), W(8));
  }

  lemma ReadsUnchanged() returns (run: seq<System>, steps: seq<Step>)
    ensures RunTo(run, steps, Waiting(2 * SECOND, 9))
  {
    var s := Waiting(2 * SECOND, 8);
    run, steps := FetchesUnchanged();
    assert FinishRead(W(8).client, 1, Object(Created(), 0), 20 + 2 * SECOND).0 == Reader(2, 20 + 2 * SECOND);
    run, steps, s := Turn(run, steps, s, 1, FinishReading(1, 20 + 2 * SECOND), W(9));
  }

  lemma ProposesLate() returns (run: seq<System>, steps: seq<Step>)
    ensures RunTo(run, steps, Waiting(2 * SECOND, 11).(sent := Sent(1) + {Write(1, TakeLate())}))
  {
    var s := Waiting(2 * SECOND, 9);
    run, steps := ReadsUnchanged();
    run, steps, s := Turn(run, steps, s, 1, FreezeAcquisition(20 + 2 * SECOND, 3, "v"), W(10));
    run, steps, s := Turn(run, steps, s, 1, SendAcquisition, W(11));
  }

  // The takeover has committed, and process 1 has got so far.
  function Taken(k: nat): System {
    System(2 * SECOND, Log(1) + [Commit(1, TakeLate(), 2 * SECOND)], Sent(1) + {Write(1, TakeLate())}, [P(8), W(k)])
  }

  lemma IsTakenLate() returns (run: seq<System>, steps: seq<Step>)
    ensures RunTo(run, steps, Taken(12))
  {
    var s := Waiting(2 * SECOND, 11).(sent := Sent(1) + {Write(1, TakeLate())});
    run, steps := ProposesLate();
    run, steps := Extend(run, steps, s, Deliver(Write(1, TakeLate())), Taken(11));
    run, steps, s := Turn(run, steps, Taken(11), 1, AcquisitionReply(Committed(1)), W(12));
  }

  /** The waiting process holds a lease, and the first one does not any more. */
  lemma WaiterIsGranted() returns (run: seq<System>, steps: seq<Step>)
    ensures IsRun(Pair(), run, steps) && |run[|steps|].procs| == 2
    ensures Holds(Pair(), run[|steps|], 1, 0) && run[|steps|].procs[1].client.leases[0].epochID == 2
    ensures !Holds(Pair(), run[|steps|], 0, 0)
  {
    var s;
    run, steps := IsTakenLate();
    run, steps, s := Turn(run, steps, Taken(12), 1, ConfirmAcquired(false), W(13));
  }
}
