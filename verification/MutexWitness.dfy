/**
 A run of one mutex: a lock's release gives up waiting for a renewal that is inside the lease client, the lease ends, and the
 next caller comes. It is what remains of overlap between two holders.
 */
module MutexWitness {
  import opened Basics
  import opened MutexOwnership

  lemma Extend(run: seq<State>, steps: seq<Step>, step: Step, s': State) returns (run': seq<State>, steps': seq<Step>)
    requires IsRun(run, steps) && Next(run[|steps|], step, s')
    ensures IsRun(run', steps') && run' == run + [s'] && steps' == steps + [step]
  {
    run', steps' := run + [s'], steps + [step];
    forall k | 0 <= k < |steps'| ensures StepAt(run', steps', k) {
      if k < |steps| { assert StepAt(run, steps, k); }
    }
  }

  function First(loop: LoopPhase, released: bool, gaveUp: bool): LockState {
    LockState(0, loop, released, gaveUp, gaveUp)
  }

  function Gone(lease: nat): CallState {
    CallState(Through, Some(lease), false, false)
  }

  function Waiting(lease: Option<nat>): CallState {
    CallState(Entered, lease, false, false)
  }

  function Renewal(): Mutation {
    Mutation(LoopOf(0), Some(0))
  }

  function Acquisition(call: nat): Mutation {
    Mutation(MainOf(call), None)
  }

  lemma LockIsHeld() returns (run: seq<State>, steps: seq<Step>)
    ensures IsRun(run, steps)
    ensures run[|steps|] == State(Shared(true, Some(0), false), [Gone(0)], [First(Resting, false, false)], Client(false, {}, 1))
  {
    var (m, free) := (Shared(true, None, false), Client(false, {}, 1));
    run, steps := [State(Cleared(), [], [], Client(false, {}, 0))], [];
    run, steps := Extend(run, steps, EnterCall, State(m, [Waiting(None)], [], Client(false, {}, 0)));
    run, steps := Extend(run, steps, Admit(Acquisition(0)),
                         State(m, [Waiting(None)], [], Client(true, {Acquisition(0)}, 0)));
    run, steps := Extend(run, steps, Grant(MainOf(0)), State(m, [Waiting(Some(0))], [], free));
    run, steps := Extend(run, steps, TryLockSucceeds(0),
                         State(m.(manual := Some(0)), [Gone(0)], [First(Resting, false, false)], free));
  }

  // It renews.
  lemma RenewalIsInside() returns (run: seq<State>, steps: seq<Step>)
    ensures IsRun(run, steps)
    ensures run[|steps|] == State(Shared(true, Some(0), false), [Gone(0)], [First(Renewing, false, false)],
                                  Client(true, {Renewal()}, 1))
  {
    var (m, locks) := (Shared(true, Some(0), false), [First(Renewing, false, false)]);
    run, steps := LockIsHeld();
    run, steps := Extend(run, steps, StartRenewal(0), State(m, [Gone(0)], locks, Client(false, {}, 1)));
    run, steps := Extend(run, steps, Admit(Renewal()), State(m, [Gone(0)], locks, Client(true, {Renewal()}, 1)));
  }

  // Its release gives up waiting.
  lemma ReleaseGivesUp() returns (run: seq<State>, steps: seq<Step>)
    ensures IsRun(run, steps)
    ensures run[|steps|] == State(Shared(true, Some(0), true), [Gone(0)], [First(Renewing, true, true)],
                                  Client(true, {Renewal()}, 1))
  {
    var (m, c) := (Shared(true, Some(0), true), Client(true, {Renewal()}, 1));
    run, steps := RenewalIsInside();
    run, steps := Extend(run, steps, BeginRelease(0), State(m, [Gone(0)], [First(Renewing, true, false)], c));
    run, steps := Extend(run, steps, GiveUp(0), State(m, [Gone(0)], [First(Renewing, true, true)], c));
  }

  // Its lease ends, and another call enters.
  lemma AnotherEnters() returns (run: seq<State>, steps: seq<Step>)
    ensures IsRun(run, steps)
    ensures run[|steps|] == State(Shared(true, None, false), [Gone(0), Waiting(None)], [First(Renewing, true, true)],
                                  Client(true, {Renewal()}, 1))
  {
    var (locks, c) := ([First(Renewing, true, true)], Client(true, {Renewal()}, 1));
    run, steps := ReleaseGivesUp();
    run, steps := Extend(run, steps, Clear(0), State(Cleared(), [Gone(0)], locks, c));
    run, steps := Extend(run, steps, EnterCall, State(Shared(true, None, false), [Gone(0), Waiting(None)], locks, c));
  }

  /** While the stale renewal is inside the client, the call is refused its Require. */
  lemma RequireIsRefused() returns (run: seq<State>, steps: seq<Step>)
    ensures IsRun(run, steps)
    ensures var s := run[|steps|];
            && |s.locks| == 1 && s.locks[0].gaveUp && Renewal() in s.client.inside && Calls(s, Acquisition(1))
            && forall s' :: Next(s, Admit(Acquisition(1)), s') ==> s' == s
  {
    run, steps := AnotherEnters();
    var s := run[|steps|];
    assert !Inside(s, MainOf(1));
  }

  // It left, and the Require is admitted.
  lemma RequireIsAdmitted() returns (run: seq<State>, steps: seq<Step>)
    ensures IsRun(run, steps)
    ensures run[|steps|] == State(Shared(true, None, false), [Gone(0), Waiting(None)], [First(Renewing, true, true)],
                                  Client(true, {Acquisition(1)}, 1))
  {
    var (m, calls, locks) := (Shared(true, None, false), [Gone(0), Waiting(None)], [First(Renewing, true, true)]);
    run, steps := AnotherEnters();
    run, steps := Extend(run, steps, Leave(Renewal()), State(m, calls, locks, Client(false, {}, 1)));
    run, steps := Extend(run, steps, Admit(Acquisition(1)), State(m, calls, locks, Client(true, {Acquisition(1)}, 1)));
  }

  /** Then the next lock is granted, and whatever the stale loop still asks for is refused. */
  lemma StaleLoopIsRefused() returns (run: seq<State>, steps: seq<Step>)
    ensures IsRun(run, steps)
    ensures var s := run[|steps|];
            && SoleOwner(s, ByLock(1)) && s.locks[0].loop == Renewing && Calls(s, Renewal())
            && forall s' :: Next(s, Admit(Renewal()), s') ==> s' == s
  {
    var (m, locks, c) := (Shared(true, None, false), [First(Renewing, true, true)], Client(false, {}, 2));
    run, steps := RequireIsAdmitted();
    run, steps := Extend(run, steps, Grant(MainOf(1)), State(m, [Gone(0), Waiting(Some(1))], locks, c));
    run, steps := Extend(run, steps, TryLockSucceeds(1),
                         State(m.(manual := Some(1)), [Gone(0), Gone(1)],
                               locks + [LockState(1, Resting, false, false, false)], c));
  }
}
