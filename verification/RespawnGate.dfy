/**
  The deep-sleep respawn gate (vllm/v1/engine/async_llm.py, `add_request` and
  `_await_deep_sleep_respawn`).

  Request coroutines and one detached respawn task share two flags, a lock and a task slot. A step is
  what runs between two awaits: the body under the lock has none, so taking the lock, checking again and
  creating or joining the task are one step. A request can be cancelled wherever it waits.
 */
module RespawnGate {
  import opened Prelude

  /**
    A respawn task: making attempts, past a `respawn_engine()` that succeeded, or finished. A finished
    task records at which step it finished.
   */
  datatype Task = Attempting | Respawned | Succeeded(at: nat) | Failed(at: nat) {
    predicate Done() { Succeeded? || Failed? }
  }

  /** A request in the gate, or how it left. A waiter records since which step it waits. */
  datatype Request =
    | AtLock
    | Waiting(task: nat, since: nat)
    | PassedClear
    | PassedAfter(task: nat, since: nat)
    | Left

  /** `sleeps` counts sleep episodes, `coldStarts` successful respawns, `failures` failed tasks. */
  datatype Gate = Gate(
    engineSleeping: bool,
    pending: bool,
    slot: Option<nat>,
    tasks: seq<Task>,
    requests: map<nat, Request>,
    time: nat,
    sleeps: nat,
    coldStarts: nat,
    failures: nat)

  datatype Step =
    | EngineSleeps
    | Arrive(request: nat)
    | TakeLock(request: nat)
    | Cancel(request: nat)
    | ResumeWaiter(request: nat)
    | RespawnReturns(task: nat)
    | TaskSucceeds(task: nat)
    | TaskFails(task: nat)

  function Initial(): Gate { Gate(false, false, None, [], map[], 0, 0, 0, 0) }

  predicate Open(g: Gate) { !g.engineSleeping && !g.pending }

  predicate Is(g: Gate, t: nat, task: Task) { t < |g.tasks| && g.tasks[t] == task }

  predicate IsDone(g: Gate, t: nat) { t < |g.tasks| && g.tasks[t].Done() }

  predicate WaitsOn(g: Gate, r: nat) { r in g.requests && g.requests[r].Waiting? }

  function Moved(g: Gate, r: nat, state: Request): Gate { g.(requests := g.requests[r := state]) }

  /** The `finally` clause: whoever sees the task finished clears the slot, if it still holds that task. */
  function Cleared(g: Gate, t: nat): Gate {
    if IsDone(g, t) && g.slot == Some(t) then g.(slot := None) else g
  }

  /** Under the lock: leave if the gate has opened, else join the unfinished task or start one. */
  function Joined(g: Gate, r: nat): Gate {
    if Open(g) then Moved(g, r, PassedClear)
    else if g.slot.Some? && g.slot.value < |g.tasks| && !g.tasks[g.slot.value].Done() then
      Moved(g, r, Waiting(g.slot.value, g.time))
    else
      Moved(g.(tasks := g.tasks + [Attempting], slot := Some(|g.tasks|)), r, Waiting(|g.tasks|, g.time))
  }

  function Effect(g: Gate, s: Step): Gate {
    match s
    case EngineSleeps => if g.engineSleeping then g else g.(engineSleeping := true, sleeps := g.sleeps + 1)
    case Arrive(r) => if r in g.requests then g else Moved(g, r, if Open(g) then PassedClear else AtLock)
    case TakeLock(r) => if r in g.requests && g.requests[r] == AtLock then Joined(g, r) else g
    case Cancel(r) =>
      if r in g.requests && g.requests[r] == AtLock then Moved(g, r, Left)
      else if WaitsOn(g, r) then Moved(Cleared(g, g.requests[r].task), r, Left)
      else g
    case ResumeWaiter(r) =>
      if WaitsOn(g, r) && IsDone(g, g.requests[r].task) then
        var t := g.requests[r].task;
        Moved(Cleared(g, t), r, if g.tasks[t].Succeeded? then PassedAfter(t, g.requests[r].since) else Left)
      else g
    case RespawnReturns(t) =>
      if Is(g, t, Attempting)
      then g.(tasks := g.tasks[t := Respawned], engineSleeping := false, coldStarts := g.coldStarts + 1)
      else g
    case TaskSucceeds(t) =>
      if Is(g, t, Respawned) then g.(tasks := g.tasks[t := Succeeded(g.time)], pending := false) else g
    case TaskFails(t) =>
      if Is(g, t, Attempting)
      then g.(tasks := g.tasks[t := Failed(g.time)], pending := true, failures := g.failures + 1)
      else g
  }

  function Next(g: Gate, s: Step): Gate { Effect(g, s).(time := g.time + 1) }

  function Run(g: Gate, steps: seq<Step>): Gate
    decreases |steps|
  {
    if steps == [] then g else Run(Next(g, steps[0]), steps[1..])
  }

  // ------------------------------------------------------------------
  // The invariant
  // ------------------------------------------------------------------

  /** The unfinished tasks are at most one, and that one is in the slot. */
  ghost predicate SlotHoldsTheTask(g: Gate) {
    && (g.slot.Some? ==> g.slot.value < |g.tasks|)
    && forall t :: 0 <= t < |g.tasks| && !g.tasks[t].Done() ==> g.slot == Some(t)
  }

  predicate SlotIs(g: Gate, task: Task) { g.slot.Some? && Is(g, g.slot.value, task) }

  /** What the flags mean: a task makes attempts only while the engine sleeps, and one is owed only then. */
  ghost predicate FlagsMatch(g: Gate) {
    && (SlotIs(g, Attempting) ==> g.engineSleeping)
    && (g.pending && !g.engineSleeping ==> SlotIs(g, Respawned))
  }

  /** Every sleep episode is ended by one cold start, and every task is one cold start or one failure. */
  ghost predicate Balanced(g: Gate) {
    && g.sleeps == g.coldStarts + (if g.engineSleeping then 1 else 0)
    && |g.tasks| == g.coldStarts + g.failures + (if SlotIs(g, Attempting) then 1 else 0)
  }

  /** What a request that waits, or that left after a task, may rely on. */
  ghost predicate RequestSound(g: Gate, request: Request) {
    match request
    case Waiting(t, since) =>
      t < |g.tasks| && since < g.time && (g.tasks[t].Done() ==> since < g.tasks[t].at)
    case PassedAfter(t, since) => t < |g.tasks| && g.tasks[t].Succeeded? && since < g.tasks[t].at
    case _ => true
  }

  ghost predicate Inv(g: Gate) {
    && SlotHoldsTheTask(g)
    && FlagsMatch(g)
    && Balanced(g)
    && (forall r <- g.requests :: RequestSound(g, g.requests[r]))
    && (forall t :: 0 <= t < |g.tasks| && g.tasks[t].Done() ==> g.tasks[t].at < g.time)
  }

  // A step that only moves requests, and perhaps empties the slot of a finished task.
  lemma MoveKeeps(g: Gate, g': Gate, r: nat, state: Request)
    requires Inv(g)
    requires g' == Moved(g, r, state).(slot := g'.slot, time := g.time + 1)
    requires g'.slot == g.slot || (g'.slot.None? && g.slot.Some? && IsDone(g, g.slot.value))
    requires RequestSound(g', state)
    ensures Inv(g')
  {
    forall q <- g'.requests
      ensures RequestSound(g', g'.requests[q])
    {
      if q != r {
        assert RequestSound(g, g.requests[q]);
      }
    }
  }

  lemma LockStepKeeps(g: Gate, r: nat)
    requires Inv(g) && r in g.requests && g.requests[r] == AtLock
    ensures Inv(Next(g, TakeLock(r)))
  {
    var g' := Next(g, TakeLock(r));
    if |g'.tasks| == |g.tasks| {
      MoveKeeps(g, g', r, g'.requests[r]);
    } else {
      forall q <- g'.requests
        ensures RequestSound(g', g'.requests[q])
      {
        if q != r {
          assert RequestSound(g, g.requests[q]);
        }
      }
    }
  }

  lemma ArriveKeeps(g: Gate, r: nat)
    requires Inv(g)
    ensures Inv(Next(g, Arrive(r)))
  {
    if r !in g.requests {
      MoveKeeps(g, Next(g, Arrive(r)), r, if Open(g) then PassedClear else AtLock);
    } else {
      IdleKeeps(g);
    }
  }

  lemma CancelAtLockKeeps(g: Gate, r: nat)
    requires Inv(g) && r in g.requests && g.requests[r] == AtLock
    ensures Inv(Next(g, Cancel(r)))
  {
    MoveKeeps(g, Next(g, Cancel(r)), r, Left);
  }

  lemma CancelWaitingKeeps(g: Gate, r: nat)
    requires Inv(g) && WaitsOn(g, r)
    ensures Inv(Next(g, Cancel(r)))
  {
    MoveKeeps(g, Next(g, Cancel(r)), r, Left);
  }

  lemma CancelKeeps(g: Gate, r: nat)
    requires Inv(g)
    ensures Inv(Next(g, Cancel(r)))
  {
    if r in g.requests && g.requests[r] == AtLock {
      CancelAtLockKeeps(g, r);
    } else if WaitsOn(g, r) {
      CancelWaitingKeeps(g, r);
    } else {
      IdleKeeps(g);
    }
  }

  lemma ResumeKeeps(g: Gate, r: nat)
    requires Inv(g)
    ensures Inv(Next(g, ResumeWaiter(r)))
  {
    if WaitsOn(g, r) && IsDone(g, g.requests[r].task) {
      assert RequestSound(g, g.requests[r]);
      var g' := Next(g, ResumeWaiter(r));
      MoveKeeps(g, g', r, g'.requests[r]);
    } else {
      IdleKeeps(g);
    }
  }

  // A step of an unfinished task keeps what requests rely on.
  lemma TaskMoveKeepsRequests(g: Gate, g': Gate, t: nat, task: Task)
    requires Inv(g) && t < |g.tasks| && !g.tasks[t].Done() && (task.Done() ==> task.at == g.time)
    requires g'.requests == g.requests && g'.tasks == g.tasks[t := task] && g'.time == g.time + 1
    ensures forall r <- g'.requests :: RequestSound(g', g'.requests[r])
  {
    forall r <- g'.requests
      ensures RequestSound(g', g'.requests[r])
    {
      assert RequestSound(g, g.requests[r]);
    }
  }

  lemma ReturnKeeps(g: Gate, t: nat)
    requires Inv(g) && Is(g, t, Attempting)
    ensures Inv(Next(g, RespawnReturns(t)))
  {
    TaskMoveKeepsRequests(g, Next(g, RespawnReturns(t)), t, Respawned);
  }

  lemma SuccessKeeps(g: Gate, t: nat)
    requires Inv(g) && Is(g, t, Respawned)
    ensures Inv(Next(g, TaskSucceeds(t)))
  {
    TaskMoveKeepsRequests(g, Next(g, TaskSucceeds(t)), t, Succeeded(g.time));
  }

  lemma FailureKeeps(g: Gate, t: nat)
    requires Inv(g) && Is(g, t, Attempting)
    ensures Inv(Next(g, TaskFails(t)))
  {
    TaskMoveKeepsRequests(g, Next(g, TaskFails(t)), t, Failed(g.time));
  }

  lemma SleepKeeps(g: Gate)
    requires Inv(g)
    ensures Inv(Next(g, EngineSleeps))
  {
    assert forall r <- g.requests :: RequestSound(g, g.requests[r]);
  }

  // Time alone.
  lemma IdleKeeps(g: Gate)
    requires Inv(g)
    ensures Inv(g.(time := g.time + 1))
  {
    assert forall r <- g.requests :: RequestSound(g, g.requests[r]);
  }

  lemma TaskStepKeeps(g: Gate, s: Step)
    requires Inv(g) && (s.RespawnReturns? || s.TaskSucceeds? || s.TaskFails?)
    ensures Inv(Next(g, s))
  {
    match s
    case RespawnReturns(t) =>
      if Is(g, t, Attempting) {
        ReturnKeeps(g, t);
      } else {
        IdleKeeps(g);
      }
    case TaskSucceeds(t) =>
      if Is(g, t, Respawned) {
        SuccessKeeps(g, t);
      } else {
        IdleKeeps(g);
      }
    case TaskFails(t) =>
      if Is(g, t, Attempting) {
        FailureKeeps(g, t);
      } else {
        IdleKeeps(g);
      }
  }

  lemma TakeLockKeeps(g: Gate, r: nat)
    requires Inv(g)
    ensures Inv(Next(g, TakeLock(r)))
  {
    if r in g.requests && g.requests[r] == AtLock {
      LockStepKeeps(g, r);
    } else {
      IdleKeeps(g);
    }
  }

  lemma NextKeeps(g: Gate, s: Step)
    requires Inv(g)
    ensures Inv(Next(g, s))
  {
    match s
    case EngineSleeps => SleepKeeps(g);
    case Arrive(r) => ArriveKeeps(g, r);
    case TakeLock(r) => TakeLockKeeps(g, r);
    case Cancel(r) => CancelKeeps(g, r);
    case ResumeWaiter(r) => ResumeKeeps(g, r);
    case _ => TaskStepKeeps(g, s);
  }

  lemma {:induction false} RunKeeps(g: Gate, steps: seq<Step>)
    requires Inv(g)
    ensures Inv(Run(g, steps))
    decreases |steps|
  {
    if steps != [] {
      NextKeeps(g, steps[0]);
      RunKeeps(Next(g, steps[0]), steps[1..]);
    }
  }

  // ------------------------------------------------------------------
  // Single flight
  // ------------------------------------------------------------------

  // Under any interleaving of arrivals, cancellations, completions and sleeps at most one respawn task is
  // unfinished, the slot has not lost it, and every successful cold start ends its own sleep episode: their
  // number never exceeds the episodes, and lags behind by at most the current one. No number of requests
  // arriving together starts a task beyond one per cold start and one per failure.
  lemma SingleFlight(steps: seq<Step>)
    ensures var g := Run(Initial(), steps);
            && (forall t, u :: 0 <= t < u < |g.tasks| ==> g.tasks[t].Done() || g.tasks[u].Done())
            && (forall t :: 0 <= t < |g.tasks| && !g.tasks[t].Done() ==> g.slot == Some(t))
            && g.coldStarts <= g.sleeps <= g.coldStarts + 1
            && |g.tasks| <= g.coldStarts + g.failures + 1
  {
    RunKeeps(Initial(), steps);
  }

  // ------------------------------------------------------------------
  // Sound, and never wedged
  // ------------------------------------------------------------------

  /** How a request may be let through by a step from g: the gate is open, or a task it waited for succeeded. */
  ghost predicate LetThrough(g: Gate, r: nat, left: Request) {
    && (left.PassedClear? ==> Open(g))
    && (left.PassedAfter? ==>
          && WaitsOn(g, r) && g.requests[r].task == left.task && g.requests[r].since == left.since
          && IsDone(g, left.task) && g.tasks[left.task].Succeeded? && left.since < g.tasks[left.task].at)
  }

  lemma ResumedSoundly(g: Gate, r: nat)
    requires Inv(g) && WaitsOn(g, r) && IsDone(g, g.requests[r].task)
    ensures LetThrough(g, r, Next(g, ResumeWaiter(r)).requests[r])
  {
    assert RequestSound(g, g.requests[r]);
  }

  predicate Changes(g: Gate, s: Step, r: nat) {
    r in Next(g, s).requests && (r in g.requests ==> g.requests[r] != Next(g, s).requests[r])
  }

  lemma LockedSoundly(g: Gate, r: nat)
    requires r in g.requests && g.requests[r] == AtLock
    ensures LetThrough(g, r, Joined(g, r).requests[r])
  {
  }

  // Only a step of its own moves a request.
  lemma OwnStep(g: Gate, s: Step, r: nat)
    requires Changes(g, s, r)
    ensures s == Arrive(r) || s == TakeLock(r) || s == Cancel(r) || s == ResumeWaiter(r)
  {
  }

  lemma StepLetsThrough(g: Gate, s: Step, r: nat)
    requires Inv(g) && Changes(g, s, r)
    ensures LetThrough(g, r, Next(g, s).requests[r])
  {
    OwnStep(g, s, r);
    match s
    case TakeLock(_) => LockedSoundly(g, r);
    case ResumeWaiter(_) => ResumedSoundly(g, r);
    case _ =>
  }

  // A request leaves the gate normally only by a step at which it saw both flags clear, or because a task
  // it waited for finished, successfully, after it began to wait.
  lemma GateSound(steps: seq<Step>, s: Step, r: nat)
    requires Changes(Run(Initial(), steps), s, r)
    ensures LetThrough(Run(Initial(), steps), r, Next(Run(Initial(), steps), s).requests[r])
  {
    RunKeeps(Initial(), steps);
    StepLetsThrough(Run(Initial(), steps), s, r);
  }

  lemma {:induction false} StaysAwake(g: Gate, steps: seq<Step>)
    requires !g.engineSleeping && EngineSleeps !in steps
    ensures !Run(g, steps).engineSleeping
    decreases |steps|
  {
    if steps != [] {
      assert steps[0] != EngineSleeps;
      StaysAwake(Next(g, steps[0]), steps[1..]);
    }
  }

  // A waiter is let through for what its task did, which may be over by then. It finds the engine awake if and only
  // if every sleep episode that began since its task's own cold start has been ended by a later cold start; in
  // particular if none began.
  lemma PassesAwakeIff(steps: seq<Step>, t: nat, later: seq<Step>, r: nat)
    requires Is(Run(Initial(), steps), t, Attempting)
    requires var g := Run(Next(Run(Initial(), steps), RespawnReturns(t)), later);
             WaitsOn(g, r) && g.requests[r].task == t && IsDone(g, t)
    ensures var started := Next(Run(Initial(), steps), RespawnReturns(t));
            var g := Run(started, later);
            var g' := Next(g, ResumeWaiter(r));
            && g'.engineSleeping == g.engineSleeping && !started.engineSleeping
            && (!g'.engineSleeping <==> g.sleeps - started.sleeps == g.coldStarts - started.coldStarts)
            && (EngineSleeps !in later ==> !g'.engineSleeping)
  {
    var started := Next(Run(Initial(), steps), RespawnReturns(t));
    RunKeeps(Initial(), steps);
    NextKeeps(Run(Initial(), steps), RespawnReturns(t));
    RunKeeps(started, later);
    if EngineSleeps !in later {
      StaysAwake(started, later);
    }
  }

  predicate PassedAsleep(g: Gate, r: nat) { g.engineSleeping && r in g.requests && g.requests[r].PassedAfter? }

  lemma RunFirst(g: Gate, s: Step, rest: seq<Step>)
    ensures Run(g, [s] + rest) == Run(Next(g, s), rest)
  {
    assert ([s] + rest)[1..] == rest;
  }

  /** Request 0 waits for its task, and then has slept through both ends of an episode. */
  const WAITS: Gate := Gate(true, false, Some(0), [Attempting], map[0 := Waiting(0, 2)], 3, 1, 0, 0)

  const SLEEPS_AGAIN: Gate := Gate(true, false, Some(0), [Succeeded(4)], map[0 := Waiting(0, 2)], 6, 2, 1, 0)

  lemma RequestWaits()
    ensures Next(Next(Next(Initial(), EngineSleeps), Arrive(0)), TakeLock(0)) == WAITS
  {
    assert Next(Next(Initial(), EngineSleeps), Arrive(0))
        == Gate(true, false, None, [], map[0 := AtLock], 2, 1, 0, 0);
  }

  lemma EngineSleepsAgain()
    ensures Next(Next(Next(WAITS, RespawnReturns(0)), TaskSucceeds(0)), EngineSleeps) == SLEEPS_AGAIN
  {
    assert Next(WAITS, RespawnReturns(0))
        == Gate(false, false, Some(0), [Respawned], map[0 := Waiting(0, 2)], 4, 1, 1, 0);
  }

  lemma {:induction false} RunAppend(g: Gate, a: seq<Step>, b: seq<Step>)
    ensures Run(g, a + b) == Run(Run(g, a), b)
    decreases |a|
  {
    if a == [] {
      assert a + b == b;
    } else {
      assert (a + b)[1..] == a[1..] + b;
      RunAppend(Next(g, a[0]), a[1..], b);
    }
  }

  lemma RunOfThree(g: Gate, a: Step, b: Step, c: Step, last: Gate) returns (steps: seq<Step>)
    requires Next(Next(Next(g, a), b), c) == last
    ensures Run(g, steps) == last
  {
    RunFirst(g, a, [b] + ([c] + []));
    RunFirst(Next(g, a), b, [c] + []);
    RunFirst(Next(Next(g, a), b), c, []);
    steps := [a] + ([b] + ([c] + []));
  }

  lemma ResumesAsleep(steps: seq<Step>, late: seq<Step>)
    requires Run(Initial(), steps) == WAITS && Run(WAITS, late) == SLEEPS_AGAIN
    ensures PassedAsleep(Run(Initial(), steps + late + [ResumeWaiter(0)]), 0)
  {
    RunAppend(Initial(), steps, late);
    RunAppend(Initial(), steps + late, [ResumeWaiter(0)]);
    assert PassedAsleep(Next(SLEEPS_AGAIN, ResumeWaiter(0)), 0);
  }

  // And a request may find it asleep: its task brings the engine up, and the engine goes to sleep again before
  // the request is resumed.
  lemma LateWaiterPassesAsleep()
    ensures exists steps: seq<Step> :: PassedAsleep(Run(Initial(), steps), 0)
  {
    RequestWaits();
    var steps := RunOfThree(Initial(), EngineSleeps, Arrive(0), TakeLock(0), WAITS);
    EngineSleepsAgain();
    var late := RunOfThree(WAITS, RespawnReturns(0), TaskSucceeds(0), EngineSleeps, SLEEPS_AGAIN);
    ResumesAsleep(steps, late);
  }

  lemma {:induction false} PendingStays(g: Gate, steps: seq<Step>)
    requires g.pending && forall i :: 0 <= i < |steps| ==> !steps[i].TaskSucceeds?
    ensures Run(g, steps).pending
    decreases |steps|
  {
    if steps != [] {
      assert !steps[0].TaskSucceeds?;
      PendingStays(Next(g, steps[0]), steps[1..]);
    }
  }

  // Only a success disarms the gate: once a task has failed, the gate stays armed through every run in which no
  // task succeeds, so every request that takes the lock in it is made to wait.
  lemma PendingUntilSuccess(g: Gate, t: nat, steps: seq<Step>, r: nat)
    requires Is(g, t, Attempting) && forall i :: 0 <= i < |steps| ==> !steps[i].TaskSucceeds?
    ensures var g' := Run(Next(g, TaskFails(t)), steps);
            && g'.pending
            && (r in g'.requests && g'.requests[r] == AtLock ==> Next(g', TakeLock(r)).requests[r].Waiting?)
  {
    PendingStays(Next(g, TaskFails(t)), steps);
  }

  // However many tasks have failed before, a request that takes the lock either finds the gate open or waits
  // for a task that is still running: an earlier one it joins, or its own. It is never handed a stale outcome.
  lemma NextRequestIsServed(steps: seq<Step>, r: nat)
    requires var g := Run(Initial(), steps); r in g.requests && g.requests[r] == AtLock
    ensures var g := Run(Initial(), steps);
            var g' := Next(g, TakeLock(r));
            if Open(g) then g'.requests[r] == PassedClear
            else && WaitsOn(g', r) && !IsDone(g', g'.requests[r].task)
                 && g'.slot == Some(g'.requests[r].task)
                 && |g'.tasks| == |g.tasks| + (if exists t :: 0 <= t < |g.tasks| && !g.tasks[t].Done() then 0 else 1)
  {
    RunKeeps(Initial(), steps);
  }

  // A cancelled waiter takes nothing with it: the task it waited for keeps running, in the slot.
  lemma CancelLeavesTheTask(steps: seq<Step>, r: nat)
    requires WaitsOn(Run(Initial(), steps), r) && !IsDone(Run(Initial(), steps), Run(Initial(), steps).requests[r].task)
    ensures var g := Run(Initial(), steps);
            var g' := Next(g, Cancel(r));
            g'.tasks == g.tasks && g'.slot == Some(g.requests[r].task) && g'.requests[r] == Left
  {
    RunKeeps(Initial(), steps);
    var g := Run(Initial(), steps);
    assert RequestSound(g, g.requests[r]);
  }

  // ------------------------------------------------------------------
  // The gate's own code
  // ------------------------------------------------------------------

  class AsyncLLM {
    var engineSleeping: bool
    var respawnPending: bool
    var respawnTask: Option<nat>
    // The event loop: its tasks and coroutines, and what happened so far.
    var tasks: seq<Task>
    var requests: map<nat, Request>
    var time: nat
    ghost var sleeps: nat
    ghost var coldStarts: nat
    ghost var failures: nat

    ghost function Value(): Gate
      reads this
    {
      Gate(engineSleeping, respawnPending, respawnTask, tasks, requests, time, sleeps, coldStarts, failures)
    }

    /** The check in `add_request`. */
    method AddRequest(r: nat)
      requires r !in requests
      modifies this`requests, this`time
      ensures Value() == Next(old(Value()), Arrive(r))
    {
      if engineSleeping || respawnPending {
        requests := requests[r := AtLock];
      } else {
        requests := requests[r := PassedClear];
      }
      time := time + 1;
    }

    /** The body under the lock, and the start of the shielded wait. */
    method AwaitDeepSleepRespawn(r: nat)
      requires r in requests && requests[r] == AtLock
      requires respawnTask.Some? ==> respawnTask.value < |tasks|
      modifies this`requests, this`time, this`tasks, this`respawnTask
      ensures Value() == Next(old(Value()), TakeLock(r))
    {
      if !engineSleeping && !respawnPending {
        requests := requests[r := PassedClear];
        time := time + 1;
        return;
      }
      var task := respawnTask;
      if task.None? || tasks[task.value].Done() {
        task := Some(|tasks|);
        tasks := tasks + [Attempting];
        respawnTask := task;
      }
      requests := requests[r := Waiting(task.value, time)];
      time := time + 1;
    }

    /** The `finally` clause. */
    method ClearIfDone(task: nat)
      requires task < |tasks|
      modifies this`respawnTask
      ensures Value() == Cleared(old(Value()), task)
    {
      if tasks[task].Done() && respawnTask == Some(task) {
        respawnTask := None;
      }
    }

    method WaiterResumes(r: nat)
      requires r in requests && requests[r].Waiting? && requests[r].task < |tasks| && tasks[requests[r].task].Done()
      modifies this`requests, this`time, this`respawnTask
      ensures Value() == Next(old(Value()), ResumeWaiter(r))
    {
      var task, since := requests[r].task, requests[r].since;
      ClearIfDone(task);
      requests := requests[r := if tasks[task].Succeeded? then PassedAfter(task, since) else Left];
      time := time + 1;
    }

    method WaiterCancelled(r: nat)
      requires r in requests && requests[r].Waiting? && requests[r].task < |tasks|
      modifies this`requests, this`time, this`respawnTask
      ensures Value() == Next(old(Value()), Cancel(r))
    {
      ClearIfDone(requests[r].task);
      requests := requests[r := Left];
      time := time + 1;
    }

    /** `respawn_engine()` returned inside task t. */
    method RespawnEngineReturned(t: nat)
      requires t < |tasks| && tasks[t] == Attempting
      modifies this`engineSleeping, this`tasks, this`time, this`coldStarts
      ensures Value() == Next(old(Value()), RespawnReturns(t))
    {
      engineSleeping := false;
      tasks := tasks[t := Respawned];
      coldStarts := coldStarts + 1;
      time := time + 1;
    }

    /** The end of `_respawn_engine_with_retries` in task t. */
    method RespawnTaskEnds(t: nat)
      requires t < |tasks| && !tasks[t].Done()
      modifies this`respawnPending, this`tasks, this`time, this`failures
      ensures Value() == Next(old(Value()), if old(tasks[t]).Respawned? then TaskSucceeds(t) else TaskFails(t))
    {
      if tasks[t].Respawned? {
        respawnPending := false;
        tasks := tasks[t := Succeeded(time)];
      } else {
        respawnPending := true;
        tasks := tasks[t := Failed(time)];
        failures := failures + 1;
      }
      time := time + 1;
    }

    /** The engine process announces that it exits for deep sleep. */
    method DeepSleepExiting()
      modifies this`engineSleeping, this`time, this`sleeps
      ensures Value() == Next(old(Value()), EngineSleeps)
    {
      if !engineSleeping {
        sleeps := sleeps + 1;
      }
      engineSleeping := true;
      time := time + 1;
    }
  }
}

