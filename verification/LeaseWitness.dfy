/**
 A concrete run of two processes. It shows that leases really are granted in the model, and that the one exception to the
 order of observations really happens: process 0 releases its lease, observes its successor before it is told that the
 release committed, and then puts the older record back.
 */
module LeaseWitness {
  import opened Basics
  import opened LeaseRecords
  import opened LeaseClient
  import opened LeaseSystem
  import opened LeaseLog
  import opened LeaseInvariant
  import opened LeaseHistory
  import opened LeaseTheorems

  function ConfigOf(clientID: string): Config {
    Config("bucket", "key", clientID, "name", 2 * SECOND, SECOND, 1)
  }

  function Pair(): Fleet {
    Fleet([ConfigOf("a"), ConfigOf("b")], [10, 20])
  }

  // The three records committed, and the proposals that carry them.
  function Created(): Record { InitialRecord(ConfigOf("a"), "u", 1) }

  function Released(): Record { Created().(clientID := "", renewTime := 2, sequenceID := 2) }

  function TakenOver(): Record {
    Released().(clientID := "b", acquireTime := 3, renewTime := 3, epochID := 2, sequenceID := 1)
  }

  function Create(): Proposal { Proposal(0, Acquire, 0, Created(), None, 10, ZERO_TIME) }

  function GiveUp(): Proposal { Proposal(1, ProposalKind.Release, 0, Released(), Some(0), 10, 10 + SECOND) }

  function TakeOver(): Proposal { Proposal(0, Acquire, 0, TakenOver(), Some(1), 20, ZERO_TIME) }

  function Log(n: nat): seq<Commit> {
    var (a, b, c) := (Commit(0, Create(), 0), Commit(0, GiveUp(), 0), Commit(1, TakeOver(), 0));
    if n == 0 then [] else if n == 1 then [a] else if n == 2 then [a, b] else [a, b, c]
  }

  function Sent(n: nat): set<Write> {
    var (a, b, c) := (Write(0, Create()), Write(0, GiveUp()), Write(1, TakeOver()));
    if n == 0 then {} else if n == 1 then {a} else if n == 2 then {a, b} else {a, b, c}
  }

  function LeaseA(): LeaseState {
    LeaseState("u", "a", 1, 1, 10 + SECOND, None, 0, Some(10 + SECOND))
  }

  // Process 0 holding its lease.
  function Holder(): Client {
    Client(ConfigOf("a"), Some(Observed(Created(), 0, 10, 0)), 1, Some(0), None, None, [LeaseA()])
  }

  // Process 0 with its lease retired for the release.
  function Releaser(): Client {
    Holder().(active := None, leases := [LeaseA().(retired := Some(LeaseRetired), doneClosed := 1, timer := None)])
  }

  // Process 0 after observing its successor.
  function Overtaken(): Client {
    Releaser().(pending := Some(GiveUp()), observed := Some(Observed(TakenOver(), 2, 10, 10)), generation := 2)
  }

  // Process 1 after reading the released record.
  function Successor(): Client {
    NewClient(ConfigOf("b")).(observed := Some(Observed(Released(), 1, 20, 20)), generation := 1)
  }

  function At(log: seq<Commit>, sent: set<Write>, p: Process, q: Process): System {
    System(0, log, sent, [p, q])
  }

  function ReadMissing(): Read { Read(0, Some(Fetch(Missing, 0)), true) }

  function ReadOf(startGen: nat, record: Record, version: Version): Read {
    Read(startGen, Some(Fetch(Object(record, version), 0)), true)
  }

  // Process 0 after each of its steps.
  function P(k: nat): Process {
    var (unborn, none, seen) := (NewClient(ConfigOf("a")), ReadMissing(), ReadOf(1, TakenOver(), 2));
    var unsure := Releaser().(pending := Some(GiveUp()));
    match k
    case 0 => Process(unborn, [], Idle, 0)
    case 1 => Process(unborn, [], RequirePrepared, 0)
    case 2 => Process(unborn, [Read(0, None, false)], RequireReading(0), 0)
    case 3 => Process(unborn, [none.(done := false)], RequireReading(0), 0)
    case 4 => Process(unborn, [none], RequireRead(None), 0)
    case 5 => Process(unborn, [none], AcquireFrozen(Create()), 1)
    case 6 => Process(unborn, [none], AcquireSent(Create()), 1)
    case 7 => Process(unborn, [none], AcquireReplied(Create(), 0), 1)
    case 8 => Process(Holder(), [none], Idle, 1)
    case 9 => Process(Holder(), [none], ReleaseAdmitted(0), 1)
    case 10 => Process(Releaser(), [none], ReleaseBegun(0, Snapshot(Created(), 0, 10 + SECOND)), 1)
    case 11 => Process(Releaser(), [none], ReleaseBuilt(GiveUp()), 2)
    case 12 => Process(unsure, [none], PendingReady(GiveUp()), 2)
    case 13 => Process(unsure, [none], PendingSent(GiveUp()), 2)
    case 14 => Process(unsure, [none, Read(1, None, false)], PendingSent(GiveUp()), 2)
    case 15 => Process(unsure, [none, seen.(done := false)], PendingSent(GiveUp()), 2)
    case 16 => Process(Overtaken(), [none, seen], PendingSent(GiveUp()), 2)
    case 17 => Process(Overtaken(), [none, seen], PendingReplied(GiveUp(), 1), 2)
    case _ => Process(ConfirmRelease(Overtaken(), GiveUp(), 1).0, [none, seen], Idle, 2)
  }

  // Process 1 after each of its steps.
  function Q(k: nat): Process {
    var (unborn, seen) := (NewClient(ConfigOf("b")), ReadOf(0, Released(), 1));
    match k
    case 0 => Process(unborn, [], Idle, 0)
    case 1 => Process(unborn, [], RequirePrepared, 0)
    case 2 => Process(unborn, [Read(0, None, false)], RequireReading(0), 0)
    case 3 => Process(unborn, [seen.(done := false)], RequireReading(0), 0)
    case 4 => Process(Successor(), [seen], RequireRead(Successor().observed), 0)
    case 5 => Process(Successor(), [seen], AcquireFrozen(TakeOver()), 1)
    case _ => Process(Successor(), [seen], AcquireSent(TakeOver()), 1)
  }

  ghost predicate RunTo(run: seq<System>, steps: seq<Step>, s: System) {
    IsRun(Pair(), run, steps) && run[|steps|] == s
  }

  lemma Extend(run: seq<System>, steps: seq<Step>, s: System, step: Step, s': System)
    returns (run': seq<System>, steps': seq<Step>)
    requires RunTo(run, steps, s) && |s.procs| == |s'.procs| == 2 && Next(Pair(), s, step, s')
    ensures RunTo(run', steps', s') && run' == run + [s'] && steps' == steps + [step]
  {
    run', steps' := run + [s'], steps + [step];
    forall k | 0 <= k < |steps'| ensures StepAt(Pair(), run', steps', k) {
      if k < |steps| { assert StepAt(Pair(), run, steps, k); }
    }
  }

  // One step of process 0 or of process 1.
  lemma Moves(run: seq<System>, steps: seq<Step>, log: seq<Commit>, sent: set<Write>, p: Process, q: Process,
              i: nat, e: Event, after: Process, sent': set<Write>)
    returns (run': seq<System>, steps': seq<Step>)
    requires i < 2 && RunTo(run, steps, At(log, sent, p, q))
    requires LocalNext(Pair(), World(0, log, sent), i, if i == 0 then p else q, e, after)
    requires sent' == sent + Emitted(i, if i == 0 then p else q, e)
    ensures RunTo(run', steps', if i == 0 then At(log, sent', after, q) else At(log, sent', p, after))
    ensures run < run' && steps' == steps + [Local(i, e)]
  {
    var s' := if i == 0 then At(log, sent', after, q) else At(log, sent', p, after);
    run', steps' := Extend(run, steps, At(log, sent, p, q), Local(i, e), s');
  }

  lemma PairOk()
    ensures FleetOk(Pair())
  {
    assert !IsSpace("bucket"[0]) && !IsSpace("a"[0]) && !IsSpace("b"[0]);
  }

  lemma Start() returns (run: seq<System>, steps: seq<Step>)
    ensures RunTo(run, steps, At(Log(0), Sent(0), P(0), Q(0)))
  {
    PairOk();
    run, steps := [At(Log(0), Sent(0), P(0), Q(0))], [];
  }

  // Process 0 looks for the object.
  lemma StartsReading() returns (run: seq<System>, steps: seq<Step>)
    ensures RunTo(run, steps, At(Log(0), Sent(0), P(2), Q(0)))
  {
    run, steps := Start();
    run, steps := Moves(run, steps, Log(0), Sent(0), P(0), Q(0), 0, Require, P(1), Sent(0));
    run, steps := Moves(run, steps, Log(0), Sent(0), P(1), Q(0), 0, StartRequireRead, P(2), Sent(0));
  }

  // There is none yet.
  lemma FindsNothing() returns (run: seq<System>, steps: seq<Step>)
    ensures RunTo(run, steps, At(Log(0), Sent(0), P(4), Q(0)))
  {
    run, steps := StartsReading();
    run, steps := Moves(run, steps, Log(0), Sent(0), P(2), Q(0), 0, FetchObject(0), P(3), Sent(0));
    run, steps := Moves(run, steps, Log(0), Sent(0), P(3), Q(0), 0, FinishReading(0, 10), P(4), Sent(0));
  }

  // Process 0 creates it.
  lemma Creates() returns (run: seq<System>, steps: seq<Step>)
    ensures RunTo(run, steps, At(Log(1), Sent(1), P(6), Q(0)))
  {
    run, steps := FindsNothing();
    run, steps := Moves(run, steps, Log(0), Sent(0), P(4), Q(0), 0, FreezeAcquisition(10, 1, "u"), P(5), Sent(0));
    run, steps := Moves(run, steps, Log(0), Sent(0), P(5), Q(0), 0, SendAcquisition, P(6), Sent(1));
    run, steps := Extend(run, steps, At(Log(0), Sent(1), P(6), Q(0)), Deliver(Write(0, Create())), At(Log(1), Sent(1), P(6), Q(0)));
  }

  /** Process 0 is granted a lease, and holds it. */
  lemma Acquires() returns (run: seq<System>, steps: seq<Step>)
    ensures RunTo(run, steps, At(Log(1), Sent(1), P(8), Q(0)))
    ensures Holds(Pair(), run[|steps|], 0, 0)
  {
    run, steps := Creates();
    run, steps := Moves(run, steps, Log(1), Sent(1), P(6), Q(0), 0, AcquisitionReply(Committed(0)), P(7), Sent(1));
    run, steps := Moves(run, steps, Log(1), Sent(1), P(7), Q(0), 0, ConfirmAcquired(false), P(8), Sent(1));
  }

  // Process 0 retires its lease to release it.
  lemma Retires() returns (run: seq<System>, steps: seq<Step>)
    ensures RunTo(run, steps, At(Log(1), Sent(1), P(10), Q(0)))
  {
    run, steps := Acquires();
    run, steps := Moves(run, steps, Log(1), Sent(1), P(8), Q(0), 0, Event.Release(0), P(9), Sent(1));
    run, steps := Moves(run, steps, Log(1), Sent(1), P(9), Q(0), 0, ValidateRelease, P(10), Sent(1));
  }

  // It builds the release.
  lemma BuildsRelease() returns (run: seq<System>, steps: seq<Step>)
    ensures RunTo(run, steps, At(Log(1), Sent(1), P(11), Q(0)))
  {
    run, steps := Retires();
    run, steps := Moves(run, steps, Log(1), Sent(1), P(10), Q(0), 0, BuildRelease(2), P(11), Sent(1));
  }

  // It freezes it.
  lemma FreezesRelease() returns (run: seq<System>, steps: seq<Step>)
    ensures RunTo(run, steps, At(Log(1), Sent(1), P(12), Q(0)))
  {
    run, steps := BuildsRelease();
    run, steps := Moves(run, steps, Log(1), Sent(1), P(11), Q(0), 0, FreezeRelease, P(12), Sent(1));
  }

  // The release commits, and process 0 is not told yet.
  lemma Releases() returns (run: seq<System>, steps: seq<Step>)
    ensures RunTo(run, steps, At(Log(2), Sent(2), P(13), Q(0)))
  {
    run, steps := FreezesRelease();
    run, steps := Moves(run, steps, Log(1), Sent(1), P(12), Q(0), 0, SendPending, P(13), Sent(2));
    run, steps := Extend(run, steps, At(Log(1), Sent(2), P(13), Q(0)), Deliver(Write(0, GiveUp())), At(Log(2), Sent(2), P(13), Q(0)));
  }

  // Process 1 looks for the object.
  lemma LooksAgain() returns (run: seq<System>, steps: seq<Step>)
    ensures RunTo(run, steps, At(Log(2), Sent(2), P(13), Q(2)))
  {
    run, steps := Releases();
    run, steps := Moves(run, steps, Log(2), Sent(2), P(13), Q(0), 1, Require, Q(1), Sent(2));
    run, steps := Moves(run, steps, Log(2), Sent(2), P(13), Q(1), 1, StartRequireRead, Q(2), Sent(2));
  }

  // It finds the released record.
  lemma FindsReleased() returns (run: seq<System>, steps: seq<Step>)
    ensures RunTo(run, steps, At(Log(2), Sent(2), P(13), Q(4)))
  {
    run, steps := LooksAgain();
    run, steps := Moves(run, steps, Log(2), Sent(2), P(13), Q(2), 1, FetchObject(0), Q(3), Sent(2));
    run, steps := Moves(run, steps, Log(2), Sent(2), P(13), Q(3), 1, FinishReading(0, 20), Q(4), Sent(2));
  }

  // It takes the object over.
  lemma TakesOver() returns (run: seq<System>, steps: seq<Step>)
    ensures RunTo(run, steps, At(Log(3), Sent(3), P(13), Q(6)))
  {
    run, steps := FindsReleased();
    run, steps := Moves(run, steps, Log(2), Sent(2), P(13), Q(4), 1, FreezeAcquisition(20, 3, "v"), Q(5), Sent(2));
    run, steps := Moves(run, steps, Log(2), Sent(2), P(13), Q(5), 1, SendAcquisition, Q(6), Sent(3));
    run, steps := Extend(run, steps, At(Log(2), Sent(3), P(13), Q(6)), Deliver(Write(1, TakeOver())), At(Log(3), Sent(3), P(13), Q(6)));
  }

  // Process 0 observes.
  lemma Observes() returns (run: seq<System>, steps: seq<Step>)
    ensures RunTo(run, steps, At(Log(3), Sent(3), P(14), Q(6)))
  {
    run, steps := TakesOver();
    run, steps := Moves(run, steps, Log(3), Sent(3), P(13), Q(6), 0, Observe, P(14), Sent(3));
  }

  // The store answers.
  lemma Fetches() returns (run: seq<System>, steps: seq<Step>)
    ensures RunTo(run, steps, At(Log(3), Sent(3), P(15), Q(6)))
  {
    run, steps := Observes();
    run, steps := Moves(run, steps, Log(3), Sent(3), P(14), Q(6), 0, FetchObject(1), P(15), Sent(3));
  }

  // It sees its successor.
  lemma SeesSuccessor() returns (run: seq<System>, steps: seq<Step>)
    ensures RunTo(run, steps, At(Log(3), Sent(3), P(16), Q(6)))
  {
    run, steps := Fetches();
    assert FinishRead(P(15).client, 1, Object(TakenOver(), 2), 10).0 == Overtaken();
    assert ObservationNext(Pair(), World(0, Log(3), Sent(3)), 0, P(15), FinishReading(1, 10), P(16));
    run, steps := Moves(run, steps, Log(3), Sent(3), P(15), Q(6), 0, FinishReading(1, 10), P(16), Sent(3));
  }

  // It is told that the release committed.
  lemma IsTold() returns (run: seq<System>, steps: seq<Step>)
    ensures RunTo(run, steps, At(Log(3), Sent(3), P(17), Q(6)))
  {
    run, steps := SeesSuccessor();
    assert ResolutionNext(Pair(), World(0, Log(3), Sent(3)), 0, P(16), PendingReply(Committed(1)), P(17));
    run, steps := Moves(run, steps, Log(3), Sent(3), P(16), Q(6), 0, PendingReply(Committed(1)), P(17), Sent(3));
  }

  /** The observation goes back in a reachable state: the last step of this run replaces a newer record by an older one. */
  lemma ReleaseReplacesNewer() returns (run: seq<System>, steps: seq<Step>)
    ensures IsRun(Pair(), run, steps) && |steps| > 0
    ensures |run[|steps| - 1].procs| == |run[|steps|].procs| == 2
    ensures var (p, p') := (run[|steps| - 1].procs[0], run[|steps|].procs[0]);
            && p.client.observed.Some? && p'.client.observed.Some?
            && Before(p'.client.observed.value.record, p.client.observed.value.record)
  {
    run, steps := IsTold();
    run, steps := Moves(run, steps, Log(3), Sent(3), P(17), Q(6), 0, ConfirmPending, P(18), Sent(3));
  }
}
