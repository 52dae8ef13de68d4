/**
  One run of the deep-sleep respawn task (vllm/v1/engine/async_llm.py, `_respawn_engine_with_retries`,
  `_wait_for_gpu_memory`).

  Time is a real number of seconds. How long each step takes and how it ends is given by a script: one
  `Attempt` for every attempt number, with one `Query` for every poll of its wait. Scripts are arbitrary.
 */
module RespawnRetry {
  import opened Prelude
  import Gate = RespawnGate

  type Duration = d: real | 0.0 <= d

  /** The limits, any of which the environment may set to any number. */
  datatype Limits = Limits(
    maxAttempts: int,
    backoff: real,
    gpuWait: real,
    attemptTimeout: real,
    totalBudget: real)

  const POLL_INTERVAL := 2.0

  /** One run of `nvidia-smi`: `None` when it fails. */
  datatype Query = Query(took: Duration, enough: Option<bool>)

  /** `call` is how long `respawn_engine()` would run if nothing bounded it. */
  datatype Attempt = Attempt(reap: Duration, queries: nat -> Query, call: Duration, succeeds: bool)

  type Script = int -> Attempt

  datatype Event =
    | Reaped(at: real)
    | Waited(enough: bool, at: real)
    | Called(attempt: int, begun: real, ended: real, succeeded: bool)
    | BackedOff(at: real)

  datatype Outcome = Outcome(ok: bool, end: real, log: seq<Event>)

  function MaxReal(a: real, b: real): real { if a < b then b else a }

  function MinReal(a: real, b: real): real { if a < b then a else b }

  // ------------------------------------------------------------------
  // Waiting for GPU memory
  // ------------------------------------------------------------------

  /** One line of the query's output: free and total memory, or a line that does not parse. */
  type Line = Option<(real, real)>

  predicate HasRoom(line: Line, utilization: real) { line.None? || line.value.0 >= line.value.1 * utilization }

  /** The answer of a query that ran: every device that can be read has room. */
  method EnoughFree(lines: seq<Line>, utilization: real) returns (enough: bool)
    ensures enough <==> forall i :: 0 <= i < |lines| ==> HasRoom(lines[i], utilization)
  {
    enough := true;
    for i := 0 to |lines|
      invariant enough <==> forall j :: 0 <= j < i ==> HasRoom(lines[j], utilization)
    {
      if lines[i].None? {
        continue;
      }
      if lines[i].value.0 < lines[i].value.1 * utilization {
        enough := false;
      }
    }
  }

  /** Whether poll i, begun at `now`, and the polls after it end the wait well, and when it ends. */
  function Wait(queries: nat -> Query, i: nat, now: real, deadline: real): (bool, real)
    decreases deadline - now
  {
    var after := now + queries(i).took;
    if queries(i).enough != Some(false) then (true, after)
    else if after >= deadline then (false, after)
    else Wait(queries, i + 1, after + POLL_INTERVAL, deadline)
  }

  method WaitForGpuMemory(queries: nat -> Query, start: real, wait: real) returns (enough: bool, now: real)
    ensures (enough, now) == Wait(queries, 0, start, start + wait)
  {
    now := start;
    var deadline := start + wait;
    var i := 0;
    while true
      invariant Wait(queries, i, now, deadline) == Wait(queries, 0, start, deadline)
      decreases deadline - now
    {
      var query := queries(i);
      now := now + query.took;
      if query.enough.None? {
        return true, now;
      }
      if query.enough.value {
        return true, now;
      }
      if now >= deadline {
        return false, now;
      }
      now := now + POLL_INTERVAL;
      i := i + 1;
    }
  }

  // The wait ends, by its deadline or one poll and one query after it, and never earlier than its first
  // answer; it reports occupied memory only once the deadline has passed.
  lemma {:induction false} WaitBounded(queries: nat -> Query, i: nat, now: real, deadline: real, query: real)
    requires forall j: nat :: queries(j).took <= query
    ensures var (enough, end) := Wait(queries, i, now, deadline);
            now <= end <= MaxReal(now, deadline + POLL_INTERVAL) + query && (!enough ==> end >= deadline)
    decreases deadline - now
  {
    var after := now + queries(i).took;
    if queries(i).enough == Some(false) && after < deadline {
      WaitBounded(queries, i + 1, after + POLL_INTERVAL, deadline, query);
    }
  }

  /** Poll j is the first that does not find memory occupied. */
  ghost predicate FirstFree(queries: nat -> Query, i: nat, j: nat) {
    && i <= j && queries(j).enough != Some(false)
    && forall m: nat :: i <= m < j ==> queries(m).enough == Some(false)
  }

  /** The end of poll j, when every poll before it found memory occupied. */
  function PollEnd(queries: nat -> Query, i: nat, j: nat, now: real): real
    requires i <= j
    decreases j - i
  {
    var after := now + queries(i).took;
    if i == j then after else PollEnd(queries, i + 1, j, after + POLL_INTERVAL)
  }

  lemma {:induction false} PollsAdvance(queries: nat -> Query, i: nat, j: nat, now: real)
    requires i < j
    ensures PollEnd(queries, i, j, now) >= PollEnd(queries, i, j - 1, now) + POLL_INTERVAL
    ensures PollEnd(queries, i, j - 1, now) >= now + queries(i).took
    decreases j - i
  {
    if i + 1 < j {
      PollsAdvance(queries, i + 1, j, now + queries(i).took + POLL_INTERVAL);
    }
  }

  /** Poll j finds room first, and is the first poll or follows one that ended before the deadline. */
  ghost predicate Finds(queries: nat -> Query, i: nat, j: nat, now: real, deadline: real) {
    FirstFree(queries, i, j) && (i < j ==> PollEnd(queries, i, j - 1, now) < deadline)
  }

  // The wait reports room if and only if some poll finds it, or cannot tell, without the deadline passing
  // before; and then it ends with that poll.
  lemma {:induction false} WaitSucceedsIffPollFinds(queries: nat -> Query, i: nat, now: real, deadline: real)
    ensures Wait(queries, i, now, deadline).0 <==> exists j: nat :: Finds(queries, i, j, now, deadline)
    ensures forall j: nat :: Finds(queries, i, j, now, deadline)
              ==> Wait(queries, i, now, deadline).1 == PollEnd(queries, i, j, now)
    decreases deadline - now
  {
    var after := now + queries(i).took;
    if queries(i).enough != Some(false) {
      assert Finds(queries, i, i, now, deadline);
    } else if after >= deadline {
      forall j: nat | FirstFree(queries, i, j)
        ensures i < j && PollEnd(queries, i, j - 1, now) >= deadline
      {
        PollsAdvance(queries, i, j, now);
      }
    } else {
      var next := after + POLL_INTERVAL;
      var k: nat := i + 1;
      WaitSucceedsIffPollFinds(queries, k, next, deadline);
      forall j: nat | Finds(queries, i, j, now, deadline)
        ensures Finds(queries, k, j, next, deadline)
      {
        assert i < j;
      }
      forall j: nat | Finds(queries, k, j, next, deadline)
        ensures Finds(queries, i, j, now, deadline)
      {
        assert PollEnd(queries, i, i, now) == after;
      }
    }
  }

  // ------------------------------------------------------------------
  // The retries
  // ------------------------------------------------------------------

  /** What precedes the call of an attempt: nothing for the first, a reap and a wait for the others. */
  function Prepared(c: Limits, a: Attempt, attempt: int, now: real): (real, seq<Event>) {
    if attempt <= 1 then (now, [])
    else
      var reaped := now + a.reap;
      var (enough, ready) := Wait(a.queries, 0, reaped, reaped + c.gpuWait);
      (ready, [Reaped(reaped), Waited(enough, ready)])
  }

  /** `wait_for` gives up at the timeout, at once if the timeout is not positive. */
  function CallOf(c: Limits, a: Attempt, attempt: int, begun: real): Event {
    Called(attempt, begun, begun + MinReal(a.call, MaxReal(c.attemptTimeout, 0.0)),
      a.succeeds && a.call < c.attemptTimeout)
  }

  function Pause(c: Limits, attempt: int, now: real): (real, seq<Event>) {
    if attempt < c.maxAttempts then
      var resumed := now + MaxReal(c.backoff, 0.0);
      (resumed, [BackedOff(resumed)])
    else (now, [])
  }

  /** One attempt: when the next may begin, whether it succeeded, and what it adds to the log. */
  function Round(c: Limits, a: Attempt, attempt: int, now: real): (real, bool, seq<Event>) {
    var (ready, before) := Prepared(c, a, attempt, now);
    var call := CallOf(c, a, attempt, ready);
    if call.succeeded then (call.ended, true, before + [call])
    else
      var (resumed, pause) := Pause(c, attempt, call.ended);
      (resumed, false, before + [call] + pause)
  }

  function Retry(c: Limits, script: Script, attempt: int, now: real, deadline: real): Outcome
    decreases c.maxAttempts - attempt
  {
    if attempt > c.maxAttempts || now >= deadline then Outcome(false, now, [])
    else
      var (resumed, succeeded, log) := Round(c, script(attempt), attempt, now);
      if succeeded then Outcome(true, resumed, log)
      else
        var rest := Retry(c, script, attempt + 1, resumed, deadline);
        Outcome(rest.ok, rest.end, log + rest.log)
  }

  // ------------------------------------------------------------------
  // What every run keeps
  // ------------------------------------------------------------------

  function Calls(log: seq<Event>): nat {
    if log == [] then 0 else Calls(log[..|log| - 1]) + (if log[|log| - 1].Called? then 1 else 0)
  }

  lemma {:induction false} CallsAdd(a: seq<Event>, b: seq<Event>)
    ensures Calls(a + b) == Calls(a) + Calls(b)
    decreases |b|
  {
    if b == [] {
      assert a + b == a;
    } else {
      assert (a + b)[..|a + b| - 1] == a + b[..|b| - 1];
      CallsAdd(a, b[..|b| - 1]);
    }
  }

  lemma CallsOfOne(e: Event)
    ensures Calls([e]) == if e.Called? then 1 else 0
  {
    assert [e][..0] == [];
  }

  lemma PreparationCallsNothing(c: Limits, a: Attempt, attempt: int, now: real)
    ensures Calls(Prepared(c, a, attempt, now).1) == 0
  {
    var before := Prepared(c, a, attempt, now).1;
    if before != [] {
      assert before == [before[0]] + [before[1]];
      CallsAdd([before[0]], [before[1]]);
      CallsOfOne(before[0]);
      CallsOfOne(before[1]);
    }
  }

  lemma PauseCallsNothing(c: Limits, attempt: int, now: real)
    ensures Calls(Pause(c, attempt, now).1) == 0
  {
    var pause := Pause(c, attempt, now).1;
    if pause != [] {
      CallsOfOne(pause[0]);
    }
  }

  lemma RoundCallsOnce(c: Limits, a: Attempt, attempt: int, now: real)
    ensures var (resumed, succeeded, log) := Round(c, a, attempt, now);
            Calls(log) == 1 && (succeeded <==> SucceedsLast(log))
  {
    var (ready, before) := Prepared(c, a, attempt, now);
    var call := CallOf(c, a, attempt, ready);
    PreparationCallsNothing(c, a, attempt, now);
    CallsAdd(before, [call]);
    CallsOfOne(call);
    if !call.succeeded {
      PauseCallsNothing(c, attempt, call.ended);
      CallsAdd(before + [call], Pause(c, attempt, call.ended).1);
    }
  }

  /** The last event is a call that succeeded. */
  predicate SucceedsLast(log: seq<Event>) {
    log != [] && log[|log| - 1].Called? && log[|log| - 1].succeeded
  }

  // One run calls `respawn_engine()` at most MAX_ATTEMPTS times, and gives up earlier only when its total
  // budget is spent.
  lemma {:induction false} CallsBounded(c: Limits, script: Script, attempt: int, now: real, deadline: real)
    ensures var run := Retry(c, script, attempt, now, deadline);
            && Calls(run.log) <= Max(c.maxAttempts - attempt + 1, 0)
            && (!run.ok && run.end < deadline ==> Calls(run.log) == Max(c.maxAttempts - attempt + 1, 0))
    decreases c.maxAttempts - attempt
  {
    if attempt <= c.maxAttempts && now < deadline {
      var (resumed, succeeded, log) := Round(c, script(attempt), attempt, now);
      RoundCallsOnce(c, script(attempt), attempt, now);
      if !succeeded {
        CallsBounded(c, script, attempt + 1, resumed, deadline);
        CallsAdd(log, Retry(c, script, attempt + 1, resumed, deadline).log);
      }
    }
  }

  // It succeeds exactly when its last event is a call that succeeded.
  lemma {:induction false} OkIffLastCallSucceeded(c: Limits, script: Script, attempt: int, now: real, deadline: real)
    ensures var run := Retry(c, script, attempt, now, deadline); run.ok <==> SucceedsLast(run.log)
    decreases c.maxAttempts - attempt
  {
    if attempt <= c.maxAttempts && now < deadline {
      var (resumed, succeeded, log) := Round(c, script(attempt), attempt, now);
      RoundCallsOnce(c, script(attempt), attempt, now);
      if !succeeded {
        OkIffLastCallSucceeded(c, script, attempt + 1, resumed, deadline);
      }
    }
  }

  /**
    What may stand at place i of a log: only the first call of all is not preceded by a reap and a wait, a
    retry begins when the pause after a failed call ends, before the deadline, and nothing follows a success.
   */
  predicate InOrder(log: seq<Event>, i: nat, start: real, deadline: real)
    requires i < |log|
  {
    match log[i]
    case Called(attempt, begun, ended, succeeded) =>
      && begun <= ended && (succeeded ==> i + 1 == |log|)
      && (if i == 0 then attempt == 1 && begun == start < deadline
          else i >= 2 && log[i - 2].Reaped? && log[i - 1].Waited? && log[i - 1].at == begun)
    case Reaped(at) => i >= 1 && log[i - 1].BackedOff? && log[i - 1].at <= at && log[i - 1].at < deadline
    case Waited(_, at) => i >= 1 && log[i - 1].Reaped? && log[i - 1].at <= at
    case BackedOff(at) => i >= 1 && log[i - 1].Called? && !log[i - 1].succeeded && log[i - 1].ended <= at
  }

  ghost predicate Orderly(log: seq<Event>, start: real, deadline: real) {
    forall i :: 0 <= i < |log| ==> InOrder(log, i, start, deadline)
  }

  /** An orderly log without a success, at whose end attempt may begin. */
  ghost predicate ReadyFor(c: Limits, log: seq<Event>, attempt: int, now: real, start: real, deadline: real) {
    && Orderly(log, start, deadline)
    && (forall i :: 0 <= i < |log| ==> !(log[i].Called? && log[i].succeeded))
    && attempt >= 1
    && (if attempt == 1 then log == [] && now == start
        else attempt <= c.maxAttempts ==> log != [] && log[|log| - 1] == BackedOff(now))
  }

  lemma RoundInOrder(c: Limits, a: Attempt, attempt: int, now: real, start: real, deadline: real, done: seq<Event>)
    requires ReadyFor(c, done, attempt, now, start, deadline) && attempt <= c.maxAttempts && now < deadline
    ensures var (resumed, succeeded, log) := Round(c, a, attempt, now);
            && Orderly(done + log, start, deadline)
            && (!succeeded ==> ReadyFor(c, done + log, attempt + 1, resumed, start, deadline))
  {
    var log := Round(c, a, attempt, now).2;
    if attempt > 1 {
      var reaped := now + a.reap;
      var limit := reaped + c.gpuWait;
      WaitNotEarly(a.queries, 0, reaped, limit);
    }
    forall i | 0 <= i < |done + log|
      ensures InOrder(done + log, i, start, deadline)
    {
      if i < |done| {
        assert InOrder(done, i, start, deadline);
      }
    }
  }

  lemma {:induction false} WaitNotEarly(queries: nat -> Query, i: nat, now: real, deadline: real)
    ensures now <= Wait(queries, i, now, deadline).1
    decreases deadline - now
  {
    var after := now + queries(i).took;
    if queries(i).enough == Some(false) && after < deadline {
      WaitNotEarly(queries, i + 1, after + POLL_INTERVAL, deadline);
    }
  }

  lemma {:induction false} RetryInOrder(c: Limits, script: Script, attempt: int, now: real, start: real, deadline: real,
                                        done: seq<Event>)
    requires ReadyFor(c, done, attempt, now, start, deadline)
    ensures Orderly(done + Retry(c, script, attempt, now, deadline).log, start, deadline)
    decreases c.maxAttempts - attempt
  {
    if attempt <= c.maxAttempts && now < deadline {
      var (resumed, succeeded, log) := Round(c, script(attempt), attempt, now);
      RoundInOrder(c, script(attempt), attempt, now, start, deadline, done);
      if !succeeded {
        RetryInOrder(c, script, attempt + 1, resumed, start, deadline, done + log);
        var rest := Retry(c, script, attempt + 1, resumed, deadline).log;
        assert done + log + rest == done + (log + rest);
      }
    } else {
      assert Retry(c, script, attempt, now, deadline).log == [];
      assert done + [] == done;
    }
  }

  // Every run keeps that order.
  lemma RunInOrder(c: Limits, script: Script, start: real)
    ensures Orderly(Retry(c, script, 1, start, start + c.totalBudget).log, start, start + c.totalBudget)
  {
    var deadline := start + c.totalBudget;
    var log := Retry(c, script, 1, start, deadline).log;
    RetryInOrder(c, script, 1, start, start, deadline, []);
    assert [] + log == log;
  }

  /** How long one round may take when a reap and a query take no longer than given. */
  function RoundLimit(c: Limits, reap: real, query: real): real {
    reap + (MaxReal(c.gpuWait, 0.0) + POLL_INTERVAL + query) + MaxReal(c.attemptTimeout, 0.0) + MaxReal(c.backoff, 0.0)
  }

  ghost predicate Within(a: Attempt, reap: real, query: real) {
    a.reap <= reap && forall i: nat :: a.queries(i).took <= query
  }

  lemma RoundBounded(c: Limits, a: Attempt, attempt: int, now: real, reap: real, query: real)
    requires Within(a, reap, query)
    ensures now <= Round(c, a, attempt, now).0 <= now + RoundLimit(c, reap, query)
  {
    assert a.queries(0).took <= query;
    if attempt > 1 {
      var reaped := now + a.reap;
      WaitBounded(a.queries, 0, reaped, reaped + c.gpuWait, query);
    }
  }

  lemma {:induction false} RetryBounded(c: Limits, script: Script, attempt: int, now: real, deadline: real,
                                        reap: real, query: real)
    requires forall k: int :: Within(script(k), reap, query)
    ensures var end := Retry(c, script, attempt, now, deadline).end;
            if now < deadline then now <= end < deadline + RoundLimit(c, reap, query) else end == now
    decreases c.maxAttempts - attempt
  {
    assert Within(script(0), reap, query);
    assert script(0).queries(0).took <= query;
    if attempt <= c.maxAttempts && now < deadline {
      var (resumed, succeeded, log) := Round(c, script(attempt), attempt, now);
      assert Within(script(attempt), reap, query);
      RoundBounded(c, script(attempt), attempt, now, reap, query);
      if !succeeded {
        RetryBounded(c, script, attempt + 1, resumed, deadline, reap, query);
      }
    }
  }

  // A run ends within its total budget, one reap, one GPU wait with a poll and a query, one attempt timeout and
  // one backoff, whatever its steps take within their limits; without a budget it ends at once.
  lemma RunBounded(c: Limits, script: Script, start: real, reap: real, query: real)
    requires forall k: int :: Within(script(k), reap, query)
    ensures var end := Retry(c, script, 1, start, start + c.totalBudget).end;
            if c.totalBudget > 0.0 then start <= end < start + c.totalBudget + RoundLimit(c, reap, query)
            else end == start
  {
    RetryBounded(c, script, 1, start, start + c.totalBudget, reap, query);
  }

  // ------------------------------------------------------------------
  // What the gate sees of a run
  // ------------------------------------------------------------------

  /** The steps of the gate's task t that a run with this outcome takes. */
  function TaskSteps(ok: bool, t: nat): seq<Gate.Step> {
    if ok then [Gate.RespawnReturns(t), Gate.TaskSucceeds(t)] else [Gate.TaskFails(t)]
  }

  // A run that calls `respawn_engine()` with success is one cold start and opens the gate; any other run is one
  // failure and leaves the gate armed. The pending flag of both views is the same.
  lemma RunIsOneTask(g: Gate.Gate, t: nat, c: Limits, script: Script, start: real)
    requires Gate.Is(g, t, Gate.Attempting)
    ensures var run := Retry(c, script, 1, start, start + c.totalBudget);
            var g' := Gate.Run(g, TaskSteps(run.ok, t));
            && Gate.IsDone(g', t) && g'.pending == !run.ok
            && (g'.tasks[t].Succeeded? <==> SucceedsLast(run.log))
            && g'.coldStarts == g.coldStarts + (if run.ok then 1 else 0)
            && g'.failures == g.failures + (if run.ok then 0 else 1)
            && (run.ok ==> Gate.Open(g'))
  {
    var run := Retry(c, script, 1, start, start + c.totalBudget);
    OkIffLastCallSucceeded(c, script, 1, start, start + c.totalBudget);
    if run.ok {
      var returned := Gate.Next(g, Gate.RespawnReturns(t));
      assert Gate.Run(g, TaskSteps(true, t)) == Gate.Run(returned, [Gate.TaskSucceeds(t)]);
      assert Gate.Run(returned, [Gate.TaskSucceeds(t)]) == Gate.Run(Gate.Next(returned, Gate.TaskSucceeds(t)), []);
    } else {
      assert Gate.Run(g, TaskSteps(false, t)) == Gate.Run(Gate.Next(g, Gate.TaskFails(t)), []);
    }
  }

  /** An outcome that begins with what is in the log so far. */
  function After(log: seq<Event>, rest: Outcome): Outcome { Outcome(rest.ok, rest.end, log + rest.log) }

  lemma AfterNothing(rest: Outcome)
    ensures After([], rest) == rest
  {
  }

  lemma AfterOneMore(log: seq<Event>, events: seq<Event>, rest: Outcome)
    ensures After(log, After(events, rest)) == After(log + events, rest)
  {
    assert log + (events + rest.log) == log + events + rest.log;
  }

  // What a round makes of the rest of the run.
  lemma RoundThenRest(c: Limits, script: Script, attempt: int, now: real, deadline: real)
    requires attempt <= c.maxAttempts && now < deadline
    ensures var (resumed, succeeded, events) := Round(c, script(attempt), attempt, now);
            Retry(c, script, attempt, now, deadline)
            == After(events, if succeeded then Outcome(true, resumed, [])
                             else Retry(c, script, attempt + 1, resumed, deadline))
  {
  }

  class AsyncLLM {
    const limits: Limits
    var respawnPending: bool

    constructor (limits: Limits)
      ensures this.limits == limits && !respawnPending
    {
      this.limits := limits;
      respawnPending := false;
    }

    method CleanUp(a: Attempt, attempt: int, start: real) returns (now: real, log: seq<Event>)
      ensures (now, log) == Prepared(limits, a, attempt, start)
    {
      now, log := start, [];
      if attempt > 1 {
        var reaped := now + a.reap;
        var enough;
        enough, now := WaitForGpuMemory(a.queries, reaped, limits.gpuWait);
        log := [Reaped(reaped), Waited(enough, now)];
      }
    }

    /** The body of the loop: one attempt with what comes before it, and the pause after a failure. */
    method AttemptOnce(a: Attempt, attempt: nat, start: real)
      returns (now: real, succeeded: bool, events: seq<Event>)
      ensures (now, succeeded, events) == Round(limits, a, attempt, start)
    {
      var before := [];
      now, before := CleanUp(a, attempt, start);
      var call := CallOf(limits, a, attempt, now);
      now := call.ended;
      if call.succeeded {
        return now, true, before + [call];
      }
      var paused := Pause(limits, attempt, now);
      return paused.0, false, before + [call] + paused.1;
    }

    method RespawnEngineWithRetries(script: Script, start: real) returns (ok: bool, now: real, log: seq<Event>)
      modifies this
      ensures Outcome(ok, now, log) == Retry(limits, script, 1, start, start + limits.totalBudget)
      ensures respawnPending == !ok
    {
      now, log := start, [];
      var deadline := start + limits.totalBudget;
      AfterNothing(Retry(limits, script, 1, start, deadline));
      for attempt := 1 to Max(limits.maxAttempts, 0) + 1
        invariant Retry(limits, script, 1, start, deadline)
               == After(log, Retry(limits, script, attempt, now, deadline))
      {
        if now >= deadline {
          break;
        }
        RoundThenRest(limits, script, attempt, now, deadline);
        var succeeded, events;
        now, succeeded, events := AttemptOnce(script(attempt), attempt, now);
        AfterOneMore(log, events, if succeeded then Outcome(true, now, [])
                                  else Retry(limits, script, attempt + 1, now, deadline));
        log := log + events;
        if succeeded {
          respawnPending := false;
          return true, now, log;
        }
      }
      respawnPending := true;
      ok := false;
    }
  }
}
