/**
 Who may change the shared state of a mutex, and who may be inside the lease client. WithLock calls, TryLock calls and the
 locks they leave behind run concurrently; each lock-protected block is one step, and a stale lock may repeat its blocks at
 any later time. All of them, and anybody else who has the same client, compete for its mutation lock.
 */
module MutexOwnership {
  import opened Basics

  datatype Shared = Shared(busy: bool, manual: Option<nat>, releasing: bool)

  // A call that has entered: acquiring, holding a lease for its work, left to drain, given up on, or through (its token
  // cleared or handed on).
  datatype CallPhase = Entered | Holding | Draining | Stuck | Through

  // The lease the call was granted, whether a renewal it called has not returned to it, and whether it went on without it.
  datatype CallState = CallState(phase: CallPhase, lease: Option<nat>, renewing: bool, left: bool)

  // The renewal loop of a lock: between renewals, with one called and not returned, or returned itself.
  datatype LoopPhase = Resting | Renewing | Reported

  // The renewal loop, whether a release began, whether the handle was abandoned, and whether that release had given up
  // waiting for the loop.
  datatype LockState = LockState(lease: nat, loop: LoopPhase, released: bool, abandoned: bool, gaveUp: bool)

  // The goroutines that call Require, Renew or Release: a call's own and its renewer, a lock's loop and its release, and
  // anybody else with this client.
  datatype Mutator = MainOf(call: nat) | RenewerOf(call: nat) | LoopOf(lock: nat) | ReleaserOf(lock: nat) | Outsider(id: nat)

  // None: a Require; otherwise a Renew or Release of that lease. Leases are numbered in the order they were granted.
  datatype Mutation = Mutation(caller: Mutator, lease: Option<nat>)

  // `held` is the client's mutation lock; `inside` are the mutations between taking and leaving it.
  datatype Client = Client(held: bool, inside: set<Mutation>, granted: nat)

  datatype State = State(shared: Shared, calls: seq<CallState>, locks: seq<LockState>, client: Client)

  datatype Step =
    | EnterCall
    | AcquireFails(call: nat)          // WithLock or TryLock goes on without a lease
    | TryLockSucceeds(call: nat)
    | HoldsLease(call: nat)            // WithLock starts its work
    | StartCallRenewal(call: nat)
    | EndCallRenewal(call: nat)
    | WithLockFinishes(call: nat, workStuck: bool, leaseLive: bool)
    | DrainEnds(call: nat)             // the drained grant's done channel closed
    | StartRenewal(lock: nat)
    | EndRenewal(lock: nat)
    | LoopReports(lock: nat)
    | BeginRelease(lock: nat)
    | GiveUp(lock: nat)                // a release whose caller's context ends before the loop reports
    | Abandon(lock: nat)               // by the loop's end, or by a release after it
    | Clear(lock: nat)                 // by the loop's end, a finished release or the watcher of an abandoned lock
    | Admit(mutation: Mutation)        // a mutation tries the client's lock
    | Leave(mutation: Mutation)
    | Grant(caller: Mutator)               // a Require leaves with a lease

  function Cleared(): Shared {
    Shared(false, None, false)
  }

  // The lock-protected blocks ---------------------------------------------------------------------------------------------

  function Enter(m: Shared): (Shared, bool) {
    if m.busy then (m, false) else (m.(busy := true), true)
  }

  function BeginReleaseOf(m: Shared, l: nat): (Shared, bool) {
    if !m.busy || m.manual != Some(l) || m.releasing then (m, false) else (m.(releasing := true), true)
  }

  function AbandonOf(m: Shared, l: nat): Shared {
    if m.manual == Some(l) then m.(releasing := true) else m
  }

  function ClearOf(m: Shared, l: nat): Shared {
    if m.manual == Some(l) then Cleared() else m
  }

  // The client admits one mutation at a time, and a Renew or Release proceeds only on the lease granted last; any other is
  // refused at once.
  function AdmitTo(c: Client, m: Mutation): Client {
    if c.held || (m.lease.Some? && m.lease.value + 1 != c.granted) then c else c.(held := true, inside := c.inside + {m})
  }

  function LeaveFrom(c: Client, m: Mutation): Client {
    c.(held := false, inside := c.inside - {m})
  }

  // Steps -----------------------------------------------------------------------------------------------------------------

  predicate Inside(s: State, caller: Mutator) {
    exists m :: m in s.client.inside && m.caller == caller
  }

  // This goroutine may call this mutation now.
  predicate Calls(s: State, m: Mutation) {
    !Inside(s, m.caller) &&
    match m.caller
    case MainOf(c) =>
      && c < |s.calls| && m.lease == s.calls[c].lease
      && (m.lease.None? ==> s.calls[c].phase == Entered)
      && (m.lease.Some? ==> s.calls[c].phase == Holding && !s.calls[c].renewing)
    case RenewerOf(c) => c < |s.calls| && s.calls[c].renewing && m.lease == s.calls[c].lease && m.lease.Some?
    case LoopOf(l) => l < |s.locks| && s.locks[l].loop == Renewing && m.lease == Some(s.locks[l].lease)
    case ReleaserOf(l) =>
      l < |s.locks| && s.locks[l].released && s.locks[l].loop == Reported && m.lease == Some(s.locks[l].lease)
    case Outsider(_) => true
  }

  predicate CallNext(s: State, step: Step, s': State) {
    match step
    case EnterCall =>
      var (m, ok) := Enter(s.shared);
      s' == s.(shared := m, calls := if ok then s.calls + [CallState(Entered, None, false, false)] else s.calls)
    case AcquireFails(c) =>
      && c < |s.calls| && s.calls[c].phase == Entered && !Inside(s, MainOf(c))
      && s' == SetCall(s, c, s.calls[c].(phase := Through)).(shared := Cleared())
    case TryLockSucceeds(c) =>
      && c < |s.calls| && s.calls[c].phase == Entered && s.calls[c].lease.Some? && !Inside(s, MainOf(c))
      && s' == SetCall(s, c, s.calls[c].(phase := Through))
                 .(shared := s.shared.(manual := Some(|s.locks|)),
                   locks := s.locks + [LockState(s.calls[c].lease.value, Resting, false, false, false)])
    case HoldsLease(c) =>
      && c < |s.calls| && s.calls[c].phase == Entered && s.calls[c].lease.Some? && !Inside(s, MainOf(c))
      && s' == SetCall(s, c, s.calls[c].(phase := Holding))
    case StartCallRenewal(c) =>
      && c < |s.calls| && s.calls[c].phase == Holding && !s.calls[c].renewing && !Inside(s, MainOf(c))
      && s' == SetCall(s, c, s.calls[c].(renewing := true))
    case EndCallRenewal(c) =>
      && c < |s.calls| && s.calls[c].renewing && !Inside(s, RenewerOf(c))
      && s' == SetCall(s, c, s.calls[c].(renewing := false))
    case WithLockFinishes(c, workStuck, leaseLive) =>
      && c < |s.calls| && s.calls[c].phase == Holding && !Inside(s, MainOf(c))
      && var done := s.calls[c].(left := s.calls[c].renewing);
         s' == if workStuck then SetCall(s, c, done.(phase := Stuck))
               else if leaseLive then SetCall(s, c, done.(phase := Draining))
               else SetCall(s, c, done.(phase := Through)).(shared := Cleared())
    case DrainEnds(c) =>
      && c < |s.calls| && s.calls[c].phase == Draining
      && s' == SetCall(s, c, s.calls[c].(phase := Through)).(shared := Cleared())
    case _ => false
  }

  predicate LockNext(s: State, step: Step, s': State) {
    match step
    case StartRenewal(l) => l < |s.locks| && s.locks[l].loop == Resting && s' == SetLock(s, l, s.locks[l].(loop := Renewing))
    case EndRenewal(l) =>
      && l < |s.locks| && s.locks[l].loop == Renewing && !Inside(s, LoopOf(l))
      && s' == SetLock(s, l, s.locks[l].(loop := Resting))
    case LoopReports(l) => l < |s.locks| && s.locks[l].loop == Resting && s' == SetLock(s, l, s.locks[l].(loop := Reported))
    case BeginRelease(l) =>
      && l < |s.locks|
      && var (m, ok) := BeginReleaseOf(s.shared, l);
         s' == if ok then SetLock(s, l, s.locks[l].(released := true)).(shared := m) else s
    case GiveUp(l) =>
      && l < |s.locks| && s.locks[l].released
      && s' == SetLock(s, l, s.locks[l].(abandoned := true, gaveUp := true)).(shared := AbandonOf(s.shared, l))
    case Abandon(l) =>
      && l < |s.locks| && s.locks[l].loop == Reported
      && s' == SetLock(s, l, s.locks[l].(abandoned := true)).(shared := AbandonOf(s.shared, l))
    case Clear(l) =>
      && l < |s.locks| && (s.locks[l].loop == Reported || s.locks[l].abandoned)
      && s' == s.(shared := ClearOf(s.shared, l))
    case _ => false
  }

  predicate ClientNext(s: State, step: Step, s': State) {
    match step
    case Admit(m) => Calls(s, m) && s' == s.(client := AdmitTo(s.client, m))
    case Leave(m) => m in s.client.inside && s' == s.(client := LeaveFrom(s.client, m))
    case Grant(caller) =>
      && Mutation(caller, None) in s.client.inside
      && var left := LeaveFrom(s.client, Mutation(caller, None)).(granted := s.client.granted + 1);
         if caller.MainOf? then
           caller.call < |s.calls|
           && s' == SetCall(s, caller.call, s.calls[caller.call].(lease := Some(s.client.granted))).(client := left)
         else s' == s.(client := left)
    case _ => false
  }

  predicate Next(s: State, step: Step, s': State) {
    CallNext(s, step, s') || LockNext(s, step, s') || ClientNext(s, step, s')
  }

  function SetCall(s: State, c: nat, call: CallState): State
    requires c < |s.calls|
  {
    s.(calls := s.calls[c := call])
  }

  function SetLock(s: State, l: nat, lock: LockState): State
    requires l < |s.locks|
  {
    s.(locks := s.locks[l := lock])
  }

  predicate Init(s: State) {
    s == State(Cleared(), [], [], Client(false, {}, 0))
  }

  predicate StepAt(run: seq<State>, steps: seq<Step>, k: nat)
    requires k < |steps| && |run| == |steps| + 1
  {
    Next(run[k], steps[k], run[k + 1])
  }

  predicate IsRun(run: seq<State>, steps: seq<Step>) {
    |run| == |steps| + 1 && Init(run[0]) && forall k :: 0 <= k < |steps| ==> StepAt(run, steps, k)
  }

  // Ownership -------------------------------------------------------------------------------------------------------------

  datatype Token = ByCall(call: nat) | ByLock(lock: nat)

  predicate Owns(s: State, t: Token) {
    match t
    case ByCall(c) => c < |s.calls| && s.calls[c].phase != Through
    case ByLock(l) => l < |s.locks| && s.shared.manual == Some(l)
  }

  /** The mutex is busy exactly while it has an owner, and it never has two. */
  ghost predicate OwnershipOk(s: State) {
    && (forall t, u :: Owns(s, t) && Owns(s, u) ==> t == u)
    && (s.shared.busy <==> exists t :: Owns(s, t))
    && (s.shared.manual.Some? ==> s.shared.manual.value < |s.locks|)
    && (s.shared.releasing ==> s.shared.manual.Some?)
  }

  function Actor(step: Step): Option<Token> {
    match step
    case EnterCall => None
    case AcquireFails(c) => Some(ByCall(c))
    case TryLockSucceeds(c) => Some(ByCall(c))
    case HoldsLease(c) => Some(ByCall(c))
    case StartCallRenewal(c) => Some(ByCall(c))
    case EndCallRenewal(c) => Some(ByCall(c))
    case WithLockFinishes(c, _, _) => Some(ByCall(c))
    case DrainEnds(c) => Some(ByCall(c))
    case StartRenewal(l) => Some(ByLock(l))
    case EndRenewal(l) => Some(ByLock(l))
    case LoopReports(l) => Some(ByLock(l))
    case BeginRelease(l) => Some(ByLock(l))
    case GiveUp(l) => Some(ByLock(l))
    case Abandon(l) => Some(ByLock(l))
    case Clear(l) => Some(ByLock(l))
    case _ => None
  }

  predicate SoleOwner(s: State, t: Token) {
    && (match t
        case ByCall(c) => c < |s.calls| && s.calls[c].phase != Through && s.shared.manual.None?
        case ByLock(l) => l < |s.locks| && s.shared.manual == Some(l))
    && forall c :: 0 <= c < |s.calls| && s.calls[c].phase != Through ==> t == ByCall(c)
  }

  predicate Nobody(s: State) {
    s.shared.manual.None? && forall c :: 0 <= c < |s.calls| ==> s.calls[c].phase == Through
  }

  ghost predicate OwnedByAtMostOne(s: State) {
    && (s.shared.releasing ==> s.shared.manual.Some?)
    && if s.shared.busy then exists t :: SoleOwner(s, t) else Nobody(s)
  }

  // Ownership, by who the owner is.
  lemma OwnershipCases(s: State)
    ensures OwnershipOk(s) <==> OwnedByAtMostOne(s)
  {
    assert s.shared.manual.Some? ==> Owns(s, ByLock(s.shared.manual.value)) || s.shared.manual.value >= |s.locks|;
    assert forall c: nat :: c < |s.calls| && s.calls[c].phase != Through ==> Owns(s, ByCall(c));
    assert forall t :: SoleOwner(s, t) ==> Owns(s, t);
    assert forall t :: OwnershipOk(s) && Owns(s, t) ==> SoleOwner(s, t);
  }

  lemma CallStepKeeps(s: State, step: Step, s': State)
    requires OwnedByAtMostOne(s) && CallNext(s, step, s')
    ensures OwnedByAtMostOne(s')
  {
    if s.shared.busy {
      var t :| SoleOwner(s, t);
      if step.TryLockSucceeds? {
        assert SoleOwner(s', ByLock(|s.locks|));
      } else {
        assert SoleOwner(s', t) || Nobody(s');
      }
    } else if step.EnterCall? {
      assert SoleOwner(s', ByCall(|s.calls|));
    }
  }

  lemma OtherStepKeeps(s: State, step: Step, s': State)
    requires OwnedByAtMostOne(s) && (LockNext(s, step, s') || ClientNext(s, step, s'))
    ensures OwnedByAtMostOne(s')
  {
    if t :| SoleOwner(s, t) {
      assert SoleOwner(s', t) || Nobody(s');
    }
  }

  lemma NextKeeps(s: State, step: Step, s': State)
    requires OwnershipOk(s) && Next(s, step, s')
    ensures OwnershipOk(s')
  {
    OwnershipCases(s);
    OwnershipCases(s');
    if CallNext(s, step, s') { CallStepKeeps(s, step, s'); } else { OtherStepKeeps(s, step, s'); }
  }

  lemma {:induction false} RunKeeps(run: seq<State>, steps: seq<Step>, k: nat)
    requires IsRun(run, steps) && k < |run|
    ensures OwnershipOk(run[k])
  {
    if k > 0 {
      RunKeeps(run, steps, k - 1);
      assert StepAt(run, steps, k - 1);
      NextKeeps(run[k - 1], steps[k - 1], run[k]);
    }
  }

  // The step leaves the shared state alone, or is the owner's, or a call entering an idle mutex; others keep what they own.
  predicate Excludes(s: State, step: Step, s': State) {
    && (s'.shared != s.shared ==>
          if Actor(step).Some? then SoleOwner(s, Actor(step).value)
          else step.EnterCall? && !s.shared.busy && s'.shared == Shared(true, None, false))
  }

  lemma CallExcludes(s: State, step: Step, s': State, t: Token)
    requires SoleOwner(s, t) && CallNext(s, step, s') && s.shared.busy
    ensures Excludes(s, step, s') && (Actor(step) != Some(t) ==> SoleOwner(s', t))
  {
  }

  lemma OtherExcludes(s: State, step: Step, s': State, t: Token)
    requires SoleOwner(s, t) && (LockNext(s, step, s') || ClientNext(s, step, s'))
    ensures Excludes(s, step, s') && (Actor(step) != Some(t) ==> SoleOwner(s', t))
  {
  }

  lemma NobodyExcludes(s: State, step: Step, s': State)
    requires Nobody(s) && !s.shared.busy && !s.shared.releasing && Next(s, step, s')
    ensures Excludes(s, step, s')
  {
  }

  /**
   Only the owner changes busy, manual and releasing, except that a call may enter an idle mutex: whatever a stale lock
   repeats leaves them as they are, and an owner that does not act stays the owner.
   */
  lemma OwnerExcludes(run: seq<State>, steps: seq<Step>, k: nat)
    requires IsRun(run, steps) && k < |steps|
    ensures run[k + 1].shared != run[k].shared ==>
              if Actor(steps[k]).Some? then SoleOwner(run[k], Actor(steps[k]).value)
              else steps[k].EnterCall? && !run[k].shared.busy && run[k + 1].shared == Shared(true, None, false)
    ensures forall t :: SoleOwner(run[k], t) && Actor(steps[k]) != Some(t) ==> SoleOwner(run[k + 1], t)
  {
    RunKeeps(run, steps, k);
    OwnershipCases(run[k]);
    var (s, step, s') := (run[k], steps[k], run[k + 1]);
    assert StepAt(run, steps, k);
    if s.shared.busy {
      forall t | SoleOwner(s, t) ensures Excludes(s, step, s') && (Actor(step) != Some(t) ==> SoleOwner(s', t)) {
        if CallNext(s, step, s') { CallExcludes(s, step, s', t); } else { OtherExcludes(s, step, s', t); }
      }
    } else {
      NobodyExcludes(s, step, s');
    }
  }

  lemma StuckStays(s: State, step: Step, s': State, c: nat)
    requires Next(s, step, s') && c < |s.calls| && s.calls[c].phase == Stuck
    ensures c < |s'.calls| && s'.calls[c].phase == Stuck
  {
  }

  /** A mutex whose work did not stop stays busy for the rest of the run. */
  lemma {:induction false} StuckStaysBusy(run: seq<State>, steps: seq<Step>, a: nat, b: nat, c: nat)
    requires IsRun(run, steps) && a <= b < |run| && c < |run[a].calls| && run[a].calls[c].phase == Stuck
    ensures c < |run[b].calls| && run[b].calls[c].phase == Stuck && run[b].shared.busy
    decreases b
  {
    RunKeeps(run, steps, b);
    if a < b {
      StuckStaysBusy(run, steps, a, b - 1, c);
      assert StepAt(run, steps, b - 1);
      StuckStays(run[b - 1], steps[b - 1], run[b], c);
    }
    assert Owns(run[b], ByCall(c));
  }

  // Entering and releasing ------------------------------------------------------------------------------------------------

  // A lock that is still the current one, though its release began or it was abandoned, is marked as releasing.
  predicate ReleasingOk(s: State) {
    forall l :: 0 <= l < |s.locks| && (s.locks[l].released || s.locks[l].abandoned) && s.shared.manual == Some(l) ==>
                  s.shared.releasing
  }

  // Conversely it is so marked only then.
  predicate ReleasingMeans(s: State) {
    s.shared.releasing && s.shared.manual.Some? && s.shared.manual.value < |s.locks| ==>
      s.locks[s.shared.manual.value].released || s.locks[s.shared.manual.value].abandoned
  }

  lemma ReleasingKeepsByCall(s: State, step: Step, s': State)
    requires OwnedByAtMostOne(s) && ReleasingOk(s) && ReleasingMeans(s) && CallNext(s, step, s')
    ensures ReleasingOk(s') && ReleasingMeans(s')
  {
  }

  lemma ReleasingKeepsByLock(s: State, step: Step, s': State)
    requires OwnedByAtMostOne(s) && ReleasingOk(s) && ReleasingMeans(s) && LockNext(s, step, s')
    ensures ReleasingOk(s') && ReleasingMeans(s')
  {
  }

  lemma {:induction false} RunReleasingOk(run: seq<State>, steps: seq<Step>, k: nat)
    requires IsRun(run, steps) && k < |run|
    ensures ReleasingOk(run[k]) && ReleasingMeans(run[k])
  {
    if k > 0 {
      var (s, step, s') := (run[k - 1], steps[k - 1], run[k]);
      RunReleasingOk(run, steps, k - 1);
      RunKeeps(run, steps, k - 1);
      OwnershipCases(s);
      assert StepAt(run, steps, k - 1);
      if CallNext(s, step, s') {
        ReleasingKeepsByCall(s, step, s');
      } else if LockNext(s, step, s') {
        ReleasingKeepsByLock(s, step, s');
      }
    }
  }

  /**
   A release of a lock begins exactly if it is the current lock, none of its releases began before, and it was not abandoned;
   otherwise nothing changes. So a lock begins one release at most, and an abandoned one none.
   */
  lemma ReleaseBeginsOnce(run: seq<State>, steps: seq<Step>, k: nat, l: nat)
    requires IsRun(run, steps) && k < |steps| && steps[k] == BeginRelease(l)
    ensures l < |run[k].locks| == |run[k + 1].locks|
    ensures var (lock, lock') := (run[k].locks[l], run[k + 1].locks[l]);
            if run[k].shared.manual == Some(l) && !lock.released && !lock.abandoned
            then lock' == lock.(released := true) && run[k + 1].shared.releasing
            else run[k + 1] == run[k]
  {
    RunReleasingOk(run, steps, k);
    RunKeeps(run, steps, k);
    assert StepAt(run, steps, k);
    assert run[k].shared.manual == Some(l) ==> Owns(run[k], ByLock(l));
  }

  /** A call enters exactly if the mutex has no owner. */
  lemma EntersWhenFree(run: seq<State>, steps: seq<Step>, k: nat)
    requires IsRun(run, steps) && k < |steps| && steps[k] == EnterCall
    ensures if exists t :: Owns(run[k], t) then run[k + 1] == run[k]
            else |run[k + 1].calls| == |run[k].calls| + 1 && SoleOwner(run[k + 1], ByCall(|run[k].calls|))
  {
    RunKeeps(run, steps, k);
    OwnershipCases(run[k]);
    assert StepAt(run, steps, k);
  }

  /** When the current lock is cleared, or a call ends without handing on, the mutex has no owner. */
  lemma ClearingFrees(run: seq<State>, steps: seq<Step>, k: nat)
    requires IsRun(run, steps) && k < |steps|
    requires || (steps[k].Clear? && run[k].shared.manual == Some(steps[k].lock))
             || steps[k].AcquireFails? || steps[k].DrainEnds?
             || (steps[k].WithLockFinishes? && !steps[k].workStuck && !steps[k].leaseLive)
    ensures !run[k + 1].shared.busy && Nobody(run[k + 1])
  {
    RunKeeps(run, steps, k);
    OwnershipCases(run[k]);
    assert StepAt(run, steps, k);
    var (s, t) := (run[k], Actor(steps[k]).value);
    assert Owns(s, t);
    var u :| SoleOwner(s, u);
    assert Owns(s, u);
  }

  // Renewals of different holders -----------------------------------------------------------------------------------------

  /** The mutation lock is held exactly by the one mutation inside, and a Renew or Release inside is of the newest lease. */
  predicate ClientOk(c: Client) {
    && (c.held <==> c.inside != {})
    && (forall m, n :: m in c.inside && n in c.inside ==> m == n)
    && (forall m :: m in c.inside && m.lease.Some? ==> m.lease.value + 1 == c.granted)
  }

  lemma {:induction false} RunClientOk(run: seq<State>, steps: seq<Step>, k: nat)
    requires IsRun(run, steps) && k < |run|
    ensures ClientOk(run[k].client)
  {
    if k > 0 {
      RunClientOk(run, steps, k - 1);
      assert StepAt(run, steps, k - 1);
      ClientStepKeeps(run[k - 1], steps[k - 1], run[k]);
    }
  }

  lemma ClientStepKeeps(s: State, step: Step, s': State)
    requires ClientOk(s.client) && Next(s, step, s')
    ensures ClientOk(s'.client) && s.client.granted <= s'.client.granted
  {
    if step.Leave? { assert s'.client.inside == {}; }
    if step.Grant? { assert s'.client.inside == {}; }
  }

  /** In every reachable state at most one mutation is inside the client, whoever called it. */
  lemma OneMutationInside(run: seq<State>, steps: seq<Step>, k: nat, m: Mutation, n: Mutation)
    requires IsRun(run, steps) && k < |run| && m in run[k].client.inside && n in run[k].client.inside
    ensures m == n
  {
    RunClientOk(run, steps, k);
  }

  /** A lease is granted only while no renewal or release is inside, and none is inside right after. */
  lemma GrantsAlone(run: seq<State>, steps: seq<Step>, k: nat)
    requires IsRun(run, steps) && k < |steps| && run[k + 1].client.granted != run[k].client.granted
    ensures steps[k].Grant? && run[k].client.inside == {Mutation(steps[k].caller, None)}
    ensures run[k + 1].client.inside == {} && run[k + 1].client.granted == run[k].client.granted + 1
  {
    RunClientOk(run, steps, k);
    assert StepAt(run, steps, k);
  }

  lemma {:induction false} GrantsGrow(run: seq<State>, steps: seq<Step>, a: nat, b: nat)
    requires IsRun(run, steps) && a <= b < |run|
    ensures run[a].client.granted <= run[b].client.granted
    decreases b
  {
    if a < b {
      GrantsGrow(run, steps, a, b - 1);
      RunClientOk(run, steps, b - 1);
      assert StepAt(run, steps, b - 1);
      ClientStepKeeps(run[b - 1], steps[b - 1], run[b]);
    }
  }

  /** Once a lease was granted, no renewal or release of an earlier one is ever inside the client again. */
  lemma NoEarlierLeaseInside(run: seq<State>, steps: seq<Step>, a: nat, b: nat, granted: nat, m: Mutation)
    requires IsRun(run, steps) && a <= b < |run| && granted < run[a].client.granted
    requires m in run[b].client.inside && m.lease.Some?
    ensures m.lease.value >= granted
  {
    RunClientOk(run, steps, b);
    GrantsGrow(run, steps, a, b);
  }

  // A holder that has not gone on without its renewal still owns the mutex.
  predicate LoopsOk(s: State) {
    forall l :: 0 <= l < |s.locks| ==>
      && (s.locks[l].abandoned ==> s.locks[l].loop == Reported || s.locks[l].gaveUp)
      && (s.locks[l].loop == Reported || s.locks[l].gaveUp || s.shared.manual == Some(l))
  }

  predicate RenewersOk(s: State) {
    forall c :: 0 <= c < |s.calls| ==>
      && (s.calls[c].phase == Entered ==> !s.calls[c].renewing)
      && (s.calls[c].renewing ==> (s.calls[c].left <==> s.calls[c].phase != Holding))
      && (s.calls[c].phase == Entered || s.calls[c].phase == Holding ==> !s.calls[c].left)
  }

  lemma LoopsKeepByCall(s: State, step: Step, s': State)
    requires OwnedByAtMostOne(s) && LoopsOk(s) && CallNext(s, step, s')
    ensures LoopsOk(s')
  {
    if t :| SoleOwner(s, t) {
      assert t.ByLock? ==> s'.shared == s.shared && s'.locks == s.locks;
    }
  }

  lemma LoopsKeepByLock(s: State, step: Step, s': State)
    requires OwnedByAtMostOne(s) && LoopsOk(s) && LockNext(s, step, s')
    ensures LoopsOk(s')
  {
  }

  lemma LoopsKeep(s: State, step: Step, s': State)
    requires OwnershipOk(s) && LoopsOk(s) && Next(s, step, s')
    ensures LoopsOk(s')
  {
    OwnershipCases(s);
    if CallNext(s, step, s') {
      LoopsKeepByCall(s, step, s');
    } else if LockNext(s, step, s') {
      LoopsKeepByLock(s, step, s');
    }
  }

  lemma RenewersKeepByCall(s: State, step: Step, s': State)
    requires RenewersOk(s) && CallNext(s, step, s')
    ensures RenewersOk(s')
  {
  }

  lemma RenewersKeep(s: State, step: Step, s': State)
    requires RenewersOk(s) && Next(s, step, s')
    ensures RenewersOk(s')
  {
    if CallNext(s, step, s') { RenewersKeepByCall(s, step, s'); }
  }

  lemma {:induction false} RunHoldersOk(run: seq<State>, steps: seq<Step>, k: nat)
    requires IsRun(run, steps) && k < |run|
    ensures LoopsOk(run[k]) && RenewersOk(run[k])
  {
    if k > 0 {
      RunHoldersOk(run, steps, k - 1);
      RunKeeps(run, steps, k - 1);
      assert StepAt(run, steps, k - 1);
      LoopsKeep(run[k - 1], steps[k - 1], run[k]);
      RenewersKeep(run[k - 1], steps[k - 1], run[k]);
    }
  }

  /**
   A renewal that was called and has not returned belongs to the one owner of the mutex, unless its holder went on without
   it: the release of a lock gave up waiting, or a WithLock call did.
   */
  lemma RenewalBelongsToOwner(run: seq<State>, steps: seq<Step>, k: nat)
    requires IsRun(run, steps) && k < |run|
    ensures forall l: nat :: l < |run[k].locks| && run[k].locks[l].loop == Renewing ==>
              run[k].locks[l].gaveUp || SoleOwner(run[k], ByLock(l))
    ensures forall c: nat :: c < |run[k].calls| && run[k].calls[c].renewing ==>
              run[k].calls[c].left || (run[k].calls[c].phase == Holding && SoleOwner(run[k], ByCall(c)))
  {
    RunHoldersOk(run, steps, k);
    RunKeeps(run, steps, k);
    OwnershipCases(run[k]);
    assert forall t, u :: Owns(run[k], t) && SoleOwner(run[k], u) ==> t == u;
    assert forall l: nat :: l < |run[k].locks| && run[k].shared.manual == Some(l) ==> Owns(run[k], ByLock(l));
    assert forall c: nat :: c < |run[k].calls| && run[k].calls[c].phase != Through ==> Owns(run[k], ByCall(c));
  }

  // The objects -----------------------------------------------------------------------------------------------------------

  // Why a release does not begin.
  datatype Refusal = LockNotHeld | RecipeBusy

  /** One manual acquisition's public handle. */
  class Lock {
    ghost const id: nat
    const origin: Mutex
    var terminal: Option<Error>
    var doneClosed: nat

    constructor (origin: Mutex, ghost id: nat)
      ensures this.origin == origin && this.id == id && terminal.None? && doneClosed == 0
    {
      this.origin, this.id, terminal, doneClosed := origin, id, None, 0;
    }

    // The first cause sticks and done closes once, however often the handle is retired.
    method Retire(cause: Option<Error>)
      requires doneClosed <= 1
      modifies this
      ensures terminal == (if old(terminal).Some? then old(terminal) else cause) && doneClosed == 1
    {
      if terminal.None? { terminal := cause; }
      if doneClosed == 0 { doneClosed := 1; }
    }
  }

  class Mutex {
    var busy: bool
    var manual: Lock?
    var releasing: bool
    ghost var locks: seq<Lock>

    ghost predicate Valid()
      reads this
    {
      && (forall k :: 0 <= k < |locks| ==> locks[k].id == k && locks[k].origin == this)
      && (manual != null ==> Issued(manual))
    }

    ghost predicate Issued(l: Lock)
      reads this
    {
      l.id < |locks| && locks[l.id] == l
    }

    ghost function Value(): Shared
      reads this
    {
      Shared(busy, if manual == null then None else Some(manual.id), releasing)
    }

    constructor ()
      ensures Valid() && Value() == Cleared() && locks == []
    {
      busy, manual, releasing, locks := false, null, false, [];
    }

    method TryEnter() returns (ok: bool)
      requires Valid()
      modifies this`busy
      ensures Valid() && (Value(), ok) == Enter(old(Value()))
    {
      if busy { return false; }
      busy := true;
      ok := true;
    }

    method ClearBusy()
      requires Valid()
      modifies this`busy, this`manual, this`releasing
      ensures Valid() && Value() == Cleared()
    {
      busy, manual, releasing := false, null, false;
    }

    method IssueLock() returns (held: Lock)
      requires Valid()
      modifies this`manual, this`locks
      ensures Valid() && fresh(held) && locks == old(locks) + [held]
      ensures Value() == old(Value()).(manual := Some(|old(locks)|))
    {
      held := new Lock(this, |locks|);
      locks := locks + [held];
      manual := held;
    }

    /** Only the current lock of this mutex begins a release, and only once. */
    method BeginReleaseBy(held: Lock?) returns (refused: Option<Refusal>)
      requires Valid() && (held != null && held.origin == this ==> Issued(held))
      modifies this`releasing
      ensures Valid()
      ensures held == null || held.origin != this ==> refused == Some(LockNotHeld) && Value() == old(Value())
      ensures held != null && held.origin == this ==> (Value(), refused.None?) == BeginReleaseOf(old(Value()), held.id)
      ensures refused == Some(RecipeBusy) <==> held != null && held.origin == this && busy && manual == held && old(releasing)
    {
      if held == null || held.origin != this { return Some(LockNotHeld); }
      if !busy || manual != held { return Some(LockNotHeld); }
      if releasing { return Some(RecipeBusy); }
      releasing := true;
      refused := None;
    }

    method AbandonManual(held: Lock, cause: Option<Error>)
      requires Valid() && Issued(held) && held.doneClosed <= 1
      modifies this`releasing, held
      ensures Valid() && Value() == AbandonOf(old(Value()), held.id)
      ensures held.doneClosed == 1 && held.terminal == (if old(held.terminal).Some? then old(held.terminal) else cause)
    {
      held.Retire(cause);
      if manual == held { releasing := true; }
    }

    method ClearManual(held: Lock)
      requires Valid() && Issued(held)
      modifies this`busy, this`manual, this`releasing
      ensures Valid() && Value() == ClearOf(old(Value()), held.id)
    {
      if manual == held { busy, manual, releasing := false, null, false; }
    }
  }
}
