/**
  When the engine puts itself to sleep (vllm/v1/engine/auto_sleep.py, `AutoSleepController`, with the
  idle loop of vllm/v1/engine/core.py around it).

  Two kinds of thread share the controller without a lock: the main loop, which runs the hooks, and timer
  threads, which run `_poke`. Every access of the shared slot `_timer` is a step of its own, so the other
  threads can come between any two of them. A timer that is past its cancellation check cannot be
  cancelled any more.
 */
module AutoSleepTimer {
  import opened Prelude

  datatype State = ACTIVE | SLEEPING | WAKING | EXITED

  datatype Target = CPU | RELOAD | EXIT | DISK

  datatype Config = Config(timeout: real, target: Target, canExit: bool)

  /** A timer thread that still has to put WAKEUP: waiting, past its wait, or past `_timer = None`. */
  datatype TimerThread = Pending(due: real) | Fired | Cleared

  /** The last two are a client's own calls, by what they do: a sleep may also raise, or abort nothing. */
  datatype Message =
    | WAKEUP
    | ADD
    | ABORT
    | EngineSleep(pauses: bool, defers: bool, aborts: bool)
    | EngineWake(resumes: bool)

  datatype Callback = OnIdle | FinishPause

  /** The controller's fields, its timer threads, and the parts of the engine the hooks look at. */
  datatype Core = Core(
    state: State,
    timer: Option<nat>,
    lastActivity: real,
    threads: map<nat, TimerThread>,
    nextId: nat,
    queue: seq<Message>,
    callbacks: seq<Callback>,
    sleeping: bool,
    running: bool,
    requests: nat)

  /** How `_sleep` ends: asleep, with the pause deferred, awake again (though maybe paused), or with an exception. */
  datatype SleepOutcome = Slept | Deferred | StaysAwake(paused: bool) | Breaks(state: State, sleeping: bool)

  /** How `_wake` ends; resuming may leave the scheduler as it is. */
  datatype Wake = Awakes | StillPaused | WakeRaises

  /** How a deferred pause ends: the engine sleeps, the suspension fails unheard, or an exception. */
  datatype Finish = Sleeps | Fails | Raises

  /** The hook the main loop is in, with what it still needs to know. */
  datatype Hook = InIdle(rest: seq<Callback>) | InArrival(wake: Wake) | InPoke(delay: real)

  /**
    What a hook does next: an access of the slot, or, at `Leave`, whatever follows the last one. `Test` is the
    test of `on_idle`, the next three are `_cancel_timer`, the last three arm a timer.
   */
  datatype At = Test | CancelTest | CancelCall | CancelStore | Store | Daemon(id: nat) | Start(id: nat) | Leave

  /** The main loop at its top, blocked on the queue or about to, inside a hook, or ended by an exception. */
  datatype Location = AtTop | AtGet | Inside(hook: Hook, at: At) | Dead

  /** `lastArrival` and `lastArming` record when a request last arrived and when `on_idle` last armed. */
  datatype World = World(core: Core, location: Location, now: real, lastArrival: real, lastArming: real)

  datatype Step =
    | Tick(elapsed: real)
    | ClientSends(message: Message)
    | ShutdownSignal
    | Fire(timer: nat)
    | ClearSlot(timer: nat)
    | PutWakeup(timer: nat)
    | NotifyIdle(finish: Finish)
    | Handle(outcome: SleepOutcome, wake: Wake)
    | AccessTimer
    | LeaveHook(finish: Finish)
    | EngineStep(finished: nat)

  function MaxReal(a: real, b: real): real { if a < b then b else a }

  // ------------------------------------------------------------------
  // The timer threads
  // ------------------------------------------------------------------

  /** `_poke`, first statement. */
  function AfterClear(c: Core, t: nat): Core {
    if t in c.threads && c.threads[t] == Fired then c.(timer := None, threads := c.threads[t := Cleared]) else c
  }

  /** `_poke`, second statement. */
  function AfterPut(c: Core, t: nat): Core {
    if t in c.threads && c.threads[t] == Cleared then c.(threads := c.threads - {t}, queue := c.queue + [WAKEUP]) else c
  }

  // ------------------------------------------------------------------
  // The hooks
  // ------------------------------------------------------------------

  /** `Timer.cancel` stops a thread only while it is still waiting. */
  function Cancelled(c: Core, t: nat): Core {
    if t in c.threads && c.threads[t].Pending? then c.(threads := c.threads - {t}) else c
  }

  function DelayOf(h: Hook, cfg: Config): real { if h.InPoke? then h.delay else cfg.timeout }

  function Go(w: World, at: At): World
    requires w.location.Inside?
  {
    w.(location := Inside(w.location.hook, at))
  }

  /** The next access of the slot. One that uses what is in it raises if there is nothing. */
  function Accessed(w: World, cfg: Config): World
    requires w.location.Inside?
  {
    var c := w.core;
    match w.location.at
    case Test =>
      if c.timer.Some? || c.sleeping || !c.running then Go(w, Leave)
      else Go(w.(core := c.(lastActivity := w.now), lastArming := w.now), Store)
    case CancelTest => Go(w, if c.timer.Some? then CancelCall else AfterCancel(w.location.hook))
    case CancelCall =>
      if c.timer.None? then w.(location := Dead) else Go(w.(core := Cancelled(c, c.timer.value)), CancelStore)
    case CancelStore => Go(w.(core := c.(timer := None)), AfterCancel(w.location.hook))
    case Store => Go(w.(core := c.(timer := Some(c.nextId), nextId := c.nextId + 1)), Daemon(c.nextId))
    case Daemon(id) => if c.timer.None? then w.(location := Dead) else Go(w, Start(id))
    case Start(_) =>
      if c.timer.None? then w.(location := Dead)
      else
        var due := w.now + DelayOf(w.location.hook, cfg);
        Go(w.(core := c.(threads := c.threads[c.timer.value := Pending(due)])), Leave)
    case Leave => w
  }

  function AfterCancel(h: Hook): At { if h.InPoke? then Store else Leave }

  /** `on_idle` up to its first access: it registers itself again, and notices that somebody woke the engine. */
  function Begun(c: Core): Core {
    var c := c.(callbacks := c.callbacks + [OnIdle]);
    if c.state == SLEEPING && !c.sleeping then c.(state := ACTIVE) else c
  }

  /** The idle callbacks that are left, up to the first access of the slot. */
  function Callbacks(w: World, rest: seq<Callback>, finish: Finish): World
    decreases |rest|
  {
    if rest == [] then w.(location := AtGet)
    else if rest[0].FinishPause? then
      if finish.Raises? then w.(location := Dead)
      else Callbacks(w.(core := w.core.(sleeping := w.core.sleeping || finish.Sleeps?)), rest[1..], finish)
    else
      var begun := w.(core := Begun(w.core));
      if begun.core.state != ACTIVE then Callbacks(begun, rest[1..], finish)
      else begun.(location := Inside(InIdle(rest[1..]), Test))
  }

  /** What a hook does after its last access. */
  function Left(w: World, finish: Finish): World
    requires w.location.Inside?
  {
    match w.location.hook
    case InIdle(rest) => Callbacks(w, rest, finish)
    case InPoke(_) => w.(location := AtTop)
    case InArrival(wake) =>
      var c := w.core;
      if c.sleeping && wake.WakeRaises? then w.(core := c.(state := SLEEPING), location := Dead)
      else
        w.(core := c.(state := ACTIVE, sleeping := c.sleeping && wake.StillPaused?, requests := c.requests + 1),
           location := AtTop)
  }

  function AfterDeepSleepExit(c: Core, cfg: Config): Core {
    if !cfg.canExit then c.(state := ACTIVE) else c.(state := EXITED, running := false)
  }

  function AfterSleep(c: Core, outcome: SleepOutcome): Core {
    match outcome
    case Slept => c.(state := SLEEPING, sleeping := true)
    case Deferred => c.(state := SLEEPING, sleeping := true, callbacks := c.callbacks + [FinishPause])
    case StaysAwake(paused) => c.(state := ACTIVE, sleeping := paused)
    case Breaks(state, sleeping) => c.(state := state, sleeping := sleeping)
  }

  function AfterClientSleep(c: Core, pauses: bool, defers: bool, aborts: bool): Core {
    var c := if aborts then c.(requests := 0) else c;
    if !pauses then c
    else c.(sleeping := true, callbacks := if defers then c.callbacks + [FinishPause] else c.callbacks)
  }

  predicate IdleAndAwake(c: Core) { c.state == ACTIVE && !c.sleeping && c.running && c.requests == 0 }

  function Remaining(w: World, cfg: Config): real { cfg.timeout - (w.now - w.core.lastActivity) }

  /** `on_wakeup_poke` up to its first access, and whether it goes into `_sleep` or `_deep_sleep_exit`. */
  function Poked(w: World, cfg: Config, outcome: SleepOutcome): (World, bool) {
    if !IdleAndAwake(w.core) then (w.(location := AtTop), false)
    else if Remaining(w, cfg) > 0.0 then
      (w.(location := Inside(InPoke(Remaining(w, cfg) + 0.001), CancelTest)), false)
    else if cfg.target == EXIT then (w.(core := AfterDeepSleepExit(w.core, cfg), location := AtTop), true)
    else (w.(core := AfterSleep(w.core, outcome), location := if outcome.Breaks? then Dead else AtTop), true)
  }

  /** What the main loop makes of a message, up to the first access of the slot. */
  function Received(w: World, m: Message, cfg: Config, outcome: SleepOutcome, wake: Wake): (World, bool) {
    var c, top := w.core, w.(location := AtTop);
    match m
    case WAKEUP => Poked(w, cfg, outcome)
    case ADD =>
      if !c.running then (top, false)
      else
        (w.(core := c.(lastActivity := w.now), lastArrival := w.now,
            location := Inside(InArrival(wake), CancelTest)), false)
    case ABORT => (top.(core := c.(requests := 0)), false)
    case EngineSleep(pauses, defers, aborts) => (top.(core := AfterClientSleep(c, pauses, defers, aborts)), false)
    case EngineWake(resumes) => (top.(core := c.(sleeping := c.sleeping && !resumes)), false)
  }

  // ------------------------------------------------------------------
  // The system
  // ------------------------------------------------------------------

  predicate HandlesMessage(w: World) {
    w.core.queue != [] && (w.location == AtGet || (w.location == AtTop && (w.core.requests > 0 || !w.core.running)))
  }

  /** The main loop takes the next message; true if it goes into `_sleep` or `_deep_sleep_exit`. */
  function Handled(w: World, cfg: Config, outcome: SleepOutcome, wake: Wake): (World, bool)
    requires HandlesMessage(w)
  {
    var c := w.core;
    Received(w.(core := c.(queue := c.queue[1..])), c.queue[0], cfg, outcome, wake)
  }

  function Next(w: World, cfg: Config, s: Step): World {
    var c := w.core;
    match s
    case Tick(elapsed) => if elapsed >= 0.0 then w.(now := w.now + elapsed) else w
    case ClientSends(m) => if m == WAKEUP then w else w.(core := c.(queue := c.queue + [m]))
    case ShutdownSignal => w.(core := c.(running := false, queue := c.queue + [WAKEUP]))
    case Fire(t) =>
      if t in c.threads && c.threads[t].Pending? then w.(core := c.(threads := c.threads[t := Fired])) else w
    case ClearSlot(t) => w.(core := AfterClear(c, t))
    case PutWakeup(t) => w.(core := AfterPut(c, t))
    case NotifyIdle(finish) =>
      if w.location != AtTop || c.requests > 0 || !c.running then w
      else Callbacks(w.(core := c.(callbacks := [])), c.callbacks, finish)
    case Handle(outcome, wake) => if HandlesMessage(w) then Handled(w, cfg, outcome, wake).0 else w
    case AccessTimer => if w.location.Inside? then Accessed(w, cfg) else w
    case LeaveHook(finish) => if w.location.Inside? && w.location.at == Leave then Left(w, finish) else w
    case EngineStep(finished) =>
      if w.location == AtTop && c.requests > 0
      then w.(core := c.(requests := if finished <= c.requests then c.requests - finished else 0))
      else w
  }

  function Run(w: World, cfg: Config, steps: seq<Step>): World
    decreases |steps|
  {
    if steps == [] then w else Run(Next(w, cfg, steps[0]), cfg, steps[1..])
  }

  /** The engine just started: `on_idle` is registered and no timer exists. */
  function Started(now: real): World {
    World(Core(ACTIVE, None, now, map[], 0, [], [OnIdle], false, true, 0), AtTop, now, now, now)
  }

  // ------------------------------------------------------------------
  // The invariant
  // ------------------------------------------------------------------

  /** Something will still hand the decision back to the main loop. */
  ghost predicate WakeupComing(c: Core) { c.threads != map[] || WAKEUP in c.queue }

  /** A timer in the slot that is still going to poke, and not before the idle window ends. */
  ghost predicate Live(c: Core, t: nat, due: real) {
    t in c.threads && !c.threads[t].Cleared? && (c.threads[t].Pending? ==> due <= c.threads[t].due)
  }

  /** What is in the slot, as far as the hook has got. */
  ghost predicate SlotInv(w: World, cfg: Config) {
    var c := w.core;
    && (forall t <- c.threads :: t < c.nextId)
    && match w.location
       case Inside(hook, at) =>
         (match at
          case Store => c.timer.None?
          case Daemon(id) => id < c.nextId && id !in c.threads && (c.timer.Some? ==> c.timer.value == id)
          case Start(id) => id < c.nextId && id !in c.threads && (c.timer.Some? ==> c.timer.value == id)
          case CancelStore => true
          case Leave => hook.InArrival? ==> c.timer.None?
          case _ => true)
         && (c.timer.Some? && !(at.Daemon? || at.Start? || at.CancelStore?) ==>
               && c.timer.value in c.threads && !c.threads[c.timer.value].Cleared?
               && (!hook.InArrival? ==> Live(c, c.timer.value, c.lastActivity + cfg.timeout)))
       case Dead => true
       case _ => c.timer.Some? ==> Live(c, c.timer.value, c.lastActivity + cfg.timeout)
  }

  /** Where a hook may be, and what it has promised. */
  ghost predicate HookInv(w: World, cfg: Config) {
    match w.location
    case Inside(InIdle(rest), at) =>
      && OnIdle !in rest && (at.Test? || at.Store? || at.Daemon? || at.Start? || at.Leave?)
      && (at.Leave? && IdleAndAwake(w.core) ==> WakeupComing(w.core))
      && (!at.Test? && !at.Leave? ==> w.core.lastActivity <= w.now)
    case Inside(InArrival(_), at) => at.CancelTest? || at.CancelCall? || at.CancelStore? || at.Leave?
    case Inside(InPoke(delay), at) => !at.Test? && w.core.lastActivity + cfg.timeout + 0.001 <= w.now + delay
    case AtGet => IdleAndAwake(w.core) ==> WakeupComing(w.core)
    case _ => true
  }

  ghost predicate ClockInv(w: World) {
    w.core.lastActivity == MaxReal(w.lastArrival, w.lastArming) && w.core.lastActivity <= w.now
  }

  ghost predicate Inv(w: World, cfg: Config) {
    && SlotInv(w, cfg)
    && HookInv(w, cfg)
    && ClockInv(w)
    && (w.location != Dead ==> multiset(w.core.callbacks)[OnIdle] == 1)
  }

  lemma TimerStepKeeps(w: World, cfg: Config, s: Step)
    requires Inv(w, cfg) && (s.Fire? || s.ClearSlot? || s.PutWakeup?)
    ensures Inv(Next(w, cfg, s), cfg)
  {
    var c, c' := w.core, Next(w, cfg, s).core;
    if c' != c {
      if s.PutWakeup? {
        assert c'.queue[|c'.queue| - 1] == WAKEUP;
      } else {
        assert s.timer in c'.threads;
      }
    }
  }

  lemma OtherStepKeeps(w: World, cfg: Config, s: Step)
    requires Inv(w, cfg) && (s.Tick? || s.ClientSends? || s.ShutdownSignal? || s.EngineStep?)
    ensures Inv(Next(w, cfg, s), cfg)
  {
    if s.ClientSends? {
      assert forall x <- w.core.queue :: x in w.core.queue + [s.message];
    }
  }

  lemma CancelAccessKeeps(w: World, cfg: Config)
    requires Inv(w, cfg) && w.location.Inside?
    requires var at := w.location.at; at.CancelTest? || at.CancelCall? || at.CancelStore?
    ensures Inv(Accessed(w, cfg), cfg)
  {
  }

  lemma ArmAccessKeeps(w: World, cfg: Config)
    requires Inv(w, cfg) && w.location.Inside?
    requires var at := w.location.at; at.Test? || at.Store? || at.Daemon?
    ensures Inv(Accessed(w, cfg), cfg)
  {
  }

  lemma StartKeeps(w: World, cfg: Config)
    requires Inv(w, cfg) && w.location.Inside? && w.location.at.Start?
    ensures Inv(Accessed(w, cfg), cfg)
  {
    if w.core.timer.Some? {
      assert w.core.timer.value in Accessed(w, cfg).core.threads;
    }
  }

  lemma AccessKeeps(w: World, cfg: Config)
    requires Inv(w, cfg) && w.location.Inside?
    ensures Inv(Accessed(w, cfg), cfg)
  {
    match w.location.at
    case Start(_) => StartKeeps(w, cfg);
    case Test => ArmAccessKeeps(w, cfg);
    case Store => ArmAccessKeeps(w, cfg);
    case Daemon(_) => ArmAccessKeeps(w, cfg);
    case Leave =>
    case _ => CancelAccessKeeps(w, cfg);
  }

  /** Between two hooks. */
  ghost predicate Settled(w: World, cfg: Config, rest: seq<Callback>) {
    && (forall t <- w.core.threads :: t < w.core.nextId)
    && (w.core.timer.Some? ==> Live(w.core, w.core.timer.value, w.core.lastActivity + cfg.timeout))
    && ClockInv(w)
    && multiset(w.core.callbacks + rest)[OnIdle] == 1
    && (OnIdle !in rest && IdleAndAwake(w.core) ==> WakeupComing(w.core))
  }

  lemma OnlyOne(callbacks: seq<Callback>, rest: seq<Callback>)
    requires rest != [] && rest[0] == OnIdle && multiset(callbacks + rest)[OnIdle] == 1
    ensures OnIdle !in rest[1..] && multiset(callbacks + [OnIdle])[OnIdle] == 1
    ensures multiset((callbacks + [OnIdle]) + rest[1..])[OnIdle] == 1
  {
    assert callbacks + rest == (callbacks + [OnIdle]) + rest[1..];
    assert multiset(callbacks + rest) == multiset(callbacks + [OnIdle]) + multiset(rest[1..]);
    assert multiset(callbacks + [OnIdle]) == multiset(callbacks) + multiset{OnIdle};
  }

  lemma OnIdleBegins(w: World, cfg: Config, rest: seq<Callback>)
    requires Settled(w, cfg, rest) && rest != [] && rest[0] == OnIdle
    ensures var w' := w.(core := Begun(w.core));
            if w'.core.state != ACTIVE then Settled(w', cfg, rest[1..])
            else Inv(w'.(location := Inside(InIdle(rest[1..]), Test)), cfg)
  {
    OnlyOne(w.core.callbacks, rest);
  }

  lemma FinishPauseSettles(w: World, cfg: Config, rest: seq<Callback>, finish: Finish)
    requires Settled(w, cfg, rest) && rest != [] && rest[0] == FinishPause
    ensures Settled(w.(core := w.core.(sleeping := w.core.sleeping || finish.Sleeps?)), cfg, rest[1..])
    ensures Inv(w.(location := Dead), cfg)
  {
    assert rest == [rest[0]] + rest[1..];
    assert multiset(w.core.callbacks + rest)
        == multiset(w.core.callbacks) + multiset{FinishPause} + multiset(rest[1..]);
    assert multiset(w.core.callbacks + rest[1..]) == multiset(w.core.callbacks) + multiset(rest[1..]);
  }

  lemma {:induction false} CallbacksKeep(w: World, cfg: Config, rest: seq<Callback>, finish: Finish)
    requires Settled(w, cfg, rest)
    ensures Inv(Callbacks(w, rest, finish), cfg)
    decreases |rest|
  {
    if rest == [] {
      assert w.core.callbacks + [] == w.core.callbacks;
    } else if rest[0].FinishPause? {
      FinishPauseSettles(w, cfg, rest, finish);
      if !finish.Raises? {
        CallbacksKeep(w.(core := w.core.(sleeping := w.core.sleeping || finish.Sleeps?)), cfg, rest[1..], finish);
      }
    } else {
      OnIdleBegins(w, cfg, rest);
      if Begun(w.core).state != ACTIVE {
        CallbacksKeep(w.(core := Begun(w.core)), cfg, rest[1..], finish);
      }
    }
  }

  lemma SnapshotSettles(w: World, cfg: Config)
    requires Inv(w, cfg) && w.location == AtTop
    ensures Settled(w.(core := w.core.(callbacks := [])), cfg, w.core.callbacks)
  {
    assert [] + w.core.callbacks == w.core.callbacks;
    assert OnIdle in w.core.callbacks;
  }

  lemma NotifyKeeps(w: World, cfg: Config, finish: Finish)
    requires Inv(w, cfg)
    ensures Inv(Next(w, cfg, NotifyIdle(finish)), cfg)
  {
    if w.location == AtTop && w.core.requests == 0 && w.core.running {
      SnapshotSettles(w, cfg);
      CallbacksKeep(w.(core := w.core.(callbacks := [])), cfg, w.core.callbacks, finish);
    }
  }

  lemma LeaveIdleKeeps(w: World, cfg: Config, finish: Finish)
    requires Inv(w, cfg) && w.location.Inside? && w.location.at == Leave && w.location.hook.InIdle?
    ensures Inv(Left(w, finish), cfg)
  {
    var rest := w.location.hook.rest;
    assert multiset(w.core.callbacks + rest) == multiset(w.core.callbacks) + multiset(rest);
    assert multiset(rest)[OnIdle] == 0;
    CallbacksKeep(w, cfg, rest, finish);
  }

  lemma LeaveOtherKeeps(w: World, cfg: Config, finish: Finish)
    requires Inv(w, cfg) && w.location.Inside? && w.location.at == Leave && !w.location.hook.InIdle?
    ensures Inv(Left(w, finish), cfg)
  {
  }

  lemma LeaveKeeps(w: World, cfg: Config, finish: Finish)
    requires Inv(w, cfg)
    ensures Inv(Next(w, cfg, LeaveHook(finish)), cfg)
  {
    if w.location.Inside? && w.location.at == Leave {
      if w.location.hook.InIdle? {
        LeaveIdleKeeps(w, cfg, finish);
      } else {
        LeaveOtherKeeps(w, cfg, finish);
      }
    }
  }

  /** The main loop has taken a message. */
  ghost predicate Taken(w: World, cfg: Config) {
    && SlotInv(w.(location := AtTop), cfg) && ClockInv(w) && multiset(w.core.callbacks)[OnIdle] == 1
  }

  // A message that leaves slot, threads and clocks alone, and ends the main loop or leads to its top.
  lemma ControlKeeps(w: World, w': World, cfg: Config)
    requires Taken(w, cfg) && (w'.location == AtTop || w'.location == Dead)
    requires w' == w.(location := w'.location, core := w.core.(state := w'.core.state, sleeping := w'.core.sleeping,
                      running := w'.core.running, requests := w'.core.requests, callbacks := w'.core.callbacks))
    requires multiset(w'.core.callbacks)[OnIdle] == 1
    ensures Inv(w', cfg)
  {
  }

  lemma OnePausedMore(callbacks: seq<Callback>)
    ensures multiset(callbacks + [FinishPause])[OnIdle] == multiset(callbacks)[OnIdle]
  {
    assert multiset(callbacks + [FinishPause]) == multiset(callbacks) + multiset{FinishPause};
  }

  lemma PokedKeeps(w: World, cfg: Config, outcome: SleepOutcome)
    requires Taken(w, cfg)
    ensures Inv(Poked(w, cfg, outcome).0, cfg)
  {
    OnePausedMore(w.core.callbacks);
    if !IdleAndAwake(w.core) || Remaining(w, cfg) <= 0.0 {
      ControlKeeps(w, Poked(w, cfg, outcome).0, cfg);
    } else {
      RearmBegins(w, cfg);
    }
  }

  lemma RearmBegins(w: World, cfg: Config)
    requires Taken(w, cfg)
    ensures Inv(w.(location := Inside(InPoke(Remaining(w, cfg) + 0.001), CancelTest)), cfg)
  {
  }

  lemma ArrivalBegins(w: World, cfg: Config, wake: Wake)
    requires Taken(w, cfg)
    ensures Inv(w.(core := w.core.(lastActivity := w.now), lastArrival := w.now,
                   location := Inside(InArrival(wake), CancelTest)), cfg)
  {
  }

  lemma ReceivedKeeps(w: World, m: Message, cfg: Config, outcome: SleepOutcome, wake: Wake)
    requires Taken(w, cfg)
    ensures Inv(Received(w, m, cfg, outcome, wake).0, cfg)
  {
    if m.WAKEUP? {
      PokedKeeps(w, cfg, outcome);
    } else if m.ADD? && w.core.running {
      ArrivalBegins(w, cfg, wake);
    } else {
      ControlReceived(w, m, cfg, outcome, wake);
    }
  }

  lemma ControlReceived(w: World, m: Message, cfg: Config, outcome: SleepOutcome, wake: Wake)
    requires Taken(w, cfg) && !m.WAKEUP? && (m.ADD? ==> !w.core.running)
    ensures Inv(Received(w, m, cfg, outcome, wake).0, cfg)
  {
    OnePausedMore(w.core.callbacks);
    ControlKeeps(w, Received(w, m, cfg, outcome, wake).0, cfg);
  }

  lemma HandleKeeps(w: World, cfg: Config, outcome: SleepOutcome, wake: Wake)
    requires Inv(w, cfg)
    ensures Inv(Next(w, cfg, Handle(outcome, wake)), cfg)
  {
    if HandlesMessage(w) {
      var c := w.core;
      ReceivedKeeps(w.(core := c.(queue := c.queue[1..])), c.queue[0], cfg, outcome, wake);
    }
  }

  lemma NextKeeps(w: World, cfg: Config, s: Step)
    requires Inv(w, cfg)
    ensures Inv(Next(w, cfg, s), cfg)
  {
    match s
    case Fire(_) => TimerStepKeeps(w, cfg, s);
    case ClearSlot(_) => TimerStepKeeps(w, cfg, s);
    case PutWakeup(_) => TimerStepKeeps(w, cfg, s);
    case NotifyIdle(finish) => NotifyKeeps(w, cfg, finish);
    case Handle(outcome, wake) => HandleKeeps(w, cfg, outcome, wake);
    case AccessTimer =>
      if w.location.Inside? {
        AccessKeeps(w, cfg);
      }
    case LeaveHook(finish) => LeaveKeeps(w, cfg, finish);
    case _ => OtherStepKeeps(w, cfg, s);
  }

  lemma {:induction false} RunKeeps(w: World, cfg: Config, steps: seq<Step>)
    requires Inv(w, cfg)
    ensures Inv(Run(w, cfg, steps), cfg)
    decreases |steps|
  {
    if steps != [] {
      NextKeeps(w, cfg, steps[0]);
      RunKeeps(Next(w, cfg, steps[0]), cfg, steps[1..]);
    }
  }

  // No lost wake-up. Whenever the main loop is blocked on its queue while the controller is ACTIVE and the
  // engine awake, running and idle, a timer thread is still going to poke or a WAKEUP is already queued: wherever
  // in the hooks the timer threads come between, however pokes come early, and sleep attempts fail.
  lemma NoLostWakeup(now: real, cfg: Config, steps: seq<Step>)
    ensures var w := Run(Started(now), cfg, steps);
            w.location == AtGet && IdleAndAwake(w.core) ==> WakeupComing(w.core)
  {
    RunKeeps(Started(now), cfg, steps);
  }

  // Sleep after a full idle window, and only then. In every run, a WAKEUP that is handled goes into `_sleep` or
  // `_deep_sleep_exit` if and only if the controller is ACTIVE, the engine awake, running and without requests,
  // and the whole timeout has elapsed since the latest request arrival and since the latest arming by `on_idle`.
  lemma SleepsIffIdleLongEnough(now: real, cfg: Config, steps: seq<Step>, outcome: SleepOutcome, wake: Wake)
    requires HandlesMessage(Run(Started(now), cfg, steps))
    ensures var w := Run(Started(now), cfg, steps);
            Handled(w, cfg, outcome, wake).1
            <==> && w.core.queue[0] == WAKEUP && IdleAndAwake(w.core)
                 && w.now - w.lastArrival >= cfg.timeout && w.now - w.lastArming >= cfg.timeout
  {
    RunKeeps(Started(now), cfg, steps);
  }

  // ------------------------------------------------------------------
  // What can come between two accesses
  // ------------------------------------------------------------------

  /** A step of another thread than the main loop's. */
  predicate Quiet(s: Step) {
    s.Tick? || s.ClientSends? || s.ShutdownSignal? || s.Fire? || s.ClearSlot? || s.PutWakeup?
  }

  predicate AllQuiet(steps: seq<Step>) { forall i :: 0 <= i < |steps| ==> Quiet(steps[i]) }

  predicate AllOthers(others: seq<seq<Step>>) { forall i :: 0 <= i < |others| ==> AllQuiet(others[i]) }

  /** Some timer thread empties the slot during these steps. */
  predicate Clears(w: World, cfg: Config, steps: seq<Step>)
    decreases |steps|
  {
    steps != []
    && (|| (steps[0].ClearSlot? && steps[0].timer in w.core.threads && w.core.threads[steps[0].timer].Fired?)
        || Clears(Next(w, cfg, steps[0]), cfg, steps[1..]))
  }

  lemma {:induction false} QuietRun(w: World, cfg: Config, steps: seq<Step>)
    requires AllQuiet(steps)
    ensures var w' := Run(w, cfg, steps);
            && w'.location == w.location && w'.now >= w.now
            && w'.lastArrival == w.lastArrival && w'.lastArming == w.lastArming
            && w'.core.lastActivity == w.core.lastActivity && w'.core.nextId == w.core.nextId
            && w'.core.timer == if Clears(w, cfg, steps) then None else w.core.timer
    decreases |steps|
  {
    if steps != [] {
      assert Quiet(steps[0]);
      QuietRun(Next(w, cfg, steps[0]), cfg, steps[1..]);
    }
  }

  /** The next access uses what is in the slot, after a test or a store that left something in it. */
  predicate UsesSlot(l: Location) { l.Inside? && (l.at.CancelCall? || l.at.Daemon? || l.at.Start?) }

  predicate AtAccess(l: Location) { l.Inside? && !l.at.Leave? }

  /** The accesses of a hook, with what the other threads do before each. */
  function Accesses(w: World, cfg: Config, others: seq<seq<Step>>): World
    decreases |others|
  {
    if others == [] || !AtAccess(w.location) then w
    else Accesses(Next(Run(w, cfg, others[0]), cfg, AccessTimer), cfg, others[1..])
  }

  /** The slot is emptied between a test or a store and the use that follows it. */
  predicate ClearedBeforeUse(w: World, cfg: Config, others: seq<seq<Step>>)
    decreases |others|
  {
    others != [] && AtAccess(w.location)
    && (|| (UsesSlot(w.location) && Clears(w, cfg, others[0]))
        || ClearedBeforeUse(Next(Run(w, cfg, others[0]), cfg, AccessTimer), cfg, others[1..]))
  }

  // A hook raises in its accesses, and the main loop ends, if and only if a timer thread empties the slot between
  // the hook's test or store and its use of what it found or put there.
  lemma {:induction false} HookRaisesIffCleared(w: World, cfg: Config, others: seq<seq<Step>>)
    requires AtAccess(w.location) && AllOthers(others) && (UsesSlot(w.location) ==> w.core.timer.Some?)
    ensures Accesses(w, cfg, others).location == Dead <==> ClearedBeforeUse(w, cfg, others)
    decreases |others|
  {
    if others != [] {
      assert AllQuiet(others[0]);
      QuietRun(w, cfg, others[0]);
      var w' := Next(Run(w, cfg, others[0]), cfg, AccessTimer);
      if AtAccess(w'.location) {
        HookRaisesIffCleared(w', cfg, others[1..]);
      }
    }
  }

  lemma {:induction false} ClearsNeedThread(w: World, cfg: Config, steps: seq<Step>)
    requires AllQuiet(steps) && Clears(w, cfg, steps)
    ensures exists t :: t in w.core.threads && !w.core.threads[t].Cleared?
    decreases |steps|
  {
    assert Quiet(steps[0]);
    if !(steps[0].ClearSlot? && steps[0].timer in w.core.threads && w.core.threads[steps[0].timer].Fired?) {
      var w' := Next(w, cfg, steps[0]);
      ClearsNeedThread(w', cfg, steps[1..]);
      var t :| t in w'.core.threads && !w'.core.threads[t].Cleared?;
      assert t in w.core.threads && !w.core.threads[t].Cleared?;
    } else {
      assert steps[0].timer in w.core.threads;
    }
  }

  // Before a use, the slot may be emptied if and only if some timer thread has not been through `_timer = None`.
  lemma MayBeClearedIff(w: World, cfg: Config)
    ensures (exists steps: seq<Step> :: AllQuiet(steps) && Clears(w, cfg, steps))
            <==> exists t :: t in w.core.threads && !w.core.threads[t].Cleared?
  {
    forall steps: seq<Step> | AllQuiet(steps) && Clears(w, cfg, steps)
      ensures exists t :: t in w.core.threads && !w.core.threads[t].Cleared?
    {
      ClearsNeedThread(w, cfg, steps);
    }
    if t :| t in w.core.threads && !w.core.threads[t].Cleared? {
      var steps := [Fire(t), ClearSlot(t)];
      var fired := Next(w, cfg, Fire(t));
      assert steps[1..] == [ClearSlot(t)] && fired.core.threads[t].Fired?;
      assert Clears(fired, cfg, [ClearSlot(t)]);
      assert AllQuiet(steps) && Clears(w, cfg, steps);
    }
  }

  // So in every run `_cancel_timer` can raise whenever it found a timer: that timer itself may be past its
  // cancellation check. Arming can raise exactly when a timer that was dropped too late is still around.
  lemma WhereHooksMayRaise(now: real, cfg: Config, steps: seq<Step>)
    requires var w := Run(Started(now), cfg, steps); UsesSlot(w.location) && w.core.timer.Some?
    ensures var w := Run(Started(now), cfg, steps);
            var mayRaise := exists others: seq<Step> ::
              AllQuiet(others) && Next(Run(w, cfg, others), cfg, AccessTimer).location == Dead;
            && (w.location.at.CancelCall? ==> mayRaise)
            && (!w.location.at.CancelCall? ==>
                  w.core.timer.value !in w.core.threads
                  && (mayRaise <==> exists t :: t in w.core.threads && !w.core.threads[t].Cleared?))
  {
    RunKeeps(Started(now), cfg, steps);
    var w := Run(Started(now), cfg, steps);
    MayBeClearedIff(w, cfg);
    forall others: seq<Step> | AllQuiet(others)
      ensures Next(Run(w, cfg, others), cfg, AccessTimer).location == Dead <==> Clears(w, cfg, others)
    {
      QuietRun(w, cfg, others);
    }
    if w.location.at.CancelCall? {
      assert w.core.timer.value in w.core.threads && !w.core.threads[w.core.timer.value].Cleared?;
    }
  }

  // ------------------------------------------------------------------
  // A hook that raises
  // ------------------------------------------------------------------

  lemma {:induction false} RunSnoc(w: World, cfg: Config, steps: seq<Step>, s: Step)
    ensures Run(w, cfg, steps + [s]) == Next(Run(w, cfg, steps), cfg, s)
    decreases |steps|
  {
    if steps == [] {
      assert [] + [s] == [s];
      assert Run(w, cfg, [s]) == Run(Next(w, cfg, s), cfg, []);
    } else {
      assert (steps + [s])[1..] == steps[1..] + [s];
      RunSnoc(Next(w, cfg, steps[0]), cfg, steps[1..], s);
    }
  }

  /** The engine is idle for the first time, and its timer is armed. */
  function FirstArmed(now: real, cfg: Config): World {
    var threads: map<nat, TimerThread> := map[0 := Pending(now + cfg.timeout)];
    World(Core(ACTIVE, Some(0), now, threads, 1, [], [OnIdle], false, true, 0), AtGet, now, now, now)
  }

  lemma FirstArming(now: real, cfg: Config)
    ensures var idle := Next(Started(now), cfg, NotifyIdle(Fails));
            && idle == Started(now).(location := Inside(InIdle([]), Test))
            && Accessed(Accessed(Accessed(Accessed(idle, cfg), cfg), cfg), cfg)
               == FirstArmed(now, cfg).(location := Inside(InIdle([]), Leave))
  {
    var begun := Started(now).(core := Started(now).core.(callbacks := []));
    assert Begun(begun.core).callbacks == [OnIdle];
    assert [OnIdle][1..] == [];
    assert Callbacks(begun, [OnIdle], Fails) == begun.(core := Begun(begun.core), location := Inside(InIdle([]), Test));
  }

  lemma FirstArmingIsARun(now: real, cfg: Config) returns (steps: seq<Step>)
    ensures Run(Started(now), cfg, steps) == FirstArmed(now, cfg)
  {
    FirstArming(now, cfg);
    var start := Started(now);
    steps := [];
    RunSnoc(start, cfg, steps, NotifyIdle(Fails));
    steps := steps + [NotifyIdle(Fails)];
    RunSnoc(start, cfg, steps, AccessTimer);
    RunSnoc(start, cfg, steps + [AccessTimer], AccessTimer);
    RunSnoc(start, cfg, steps + [AccessTimer] + [AccessTimer], AccessTimer);
    steps := steps + [AccessTimer] + [AccessTimer] + [AccessTimer];
    RunSnoc(start, cfg, steps, AccessTimer);
    RunSnoc(start, cfg, steps + [AccessTimer], LeaveHook(Fails));
    steps := steps + [AccessTimer] + [LeaveHook(Fails)];
  }

  // A request arrives just when the timer fires: the test finds it, and the thread empties the slot.
  lemma ArrivalMeetsPoke(w: World, cfg: Config)
    requires w.location == AtGet && w.core.running && w.core.queue == [] && w.core.timer == Some(0)
    requires 0 in w.core.threads && w.core.threads[0].Pending?
    ensures var sent := Next(w, cfg, ClientSends(ADD));
            var found := Next(Next(sent, cfg, Handle(Slept, Awakes)), cfg, AccessTimer);
            Next(Next(Next(found, cfg, Fire(0)), cfg, ClearSlot(0)), cfg, AccessTimer).location == Dead
  {
    assert ([] + [ADD])[0] == ADD;
  }

  // So in some run, with any configuration, the main loop is ended by its own timer.
  lemma ArrivalCanRaise(now: real, cfg: Config)
    ensures exists steps: seq<Step> :: Run(Started(now), cfg, steps).location == Dead
  {
    var steps := FirstArmingIsARun(now, cfg);
    ArrivalMeetsPoke(FirstArmed(now, cfg), cfg);
    var start, handle := Started(now), Handle(Slept, Awakes);
    RunSnoc(start, cfg, steps, ClientSends(ADD));
    RunSnoc(start, cfg, steps + [ClientSends(ADD)], handle);
    RunSnoc(start, cfg, steps + [ClientSends(ADD)] + [handle], AccessTimer);
    steps := steps + [ClientSends(ADD)] + [handle] + [AccessTimer];
    RunSnoc(start, cfg, steps, Fire(0));
    RunSnoc(start, cfg, steps + [Fire(0)], ClearSlot(0));
    RunSnoc(start, cfg, steps + [Fire(0)] + [ClearSlot(0)], AccessTimer);
    assert Run(start, cfg, steps + [Fire(0)] + [ClearSlot(0)] + [AccessTimer]).location == Dead;
  }

  // ------------------------------------------------------------------
  // It does sleep
  // ------------------------------------------------------------------

  // After any run, and any continuation in which no request arrives and `on_idle` does not arm anew, once the
  // tracked timer is due the next WAKEUP that finds the engine idle goes into `_sleep` or `_deep_sleep_exit`.
  lemma TrackedTimerPutsToSleep(now: real, cfg: Config, steps: seq<Step>, rest: seq<Step>,
                                outcome: SleepOutcome, wake: Wake)
    requires var w := Run(Started(now), cfg, steps);
             var w' := Run(w, cfg, rest);
             && (w.location == AtTop || w.location == AtGet) && w.core.timer.Some?
             && w.core.timer.value in w.core.threads && w.core.threads[w.core.timer.value].Pending?
             && w'.now >= w.core.threads[w.core.timer.value].due
             && w'.lastArrival == w.lastArrival && w'.lastArming == w.lastArming
             && HandlesMessage(w') && w'.core.queue[0] == WAKEUP && IdleAndAwake(w'.core)
    ensures Handled(Run(Run(Started(now), cfg, steps), cfg, rest), cfg, outcome, wake).1
  {
    RunKeeps(Started(now), cfg, steps);
    RunKeeps(Run(Started(now), cfg, steps), cfg, rest);
  }

  // In particular a loop that is left blocked can fall asleep, whichever timer thread is still there, tracked or not:
  // once the window has passed, let it fire and poke, and it is heard.
  lemma BlockedLoopFallsAsleep(now: real, cfg: Config, steps: seq<Step>, t: nat, elapsed: real, outcome: SleepOutcome,
                               wake: Wake)
    requires var w := Run(Started(now), cfg, steps);
             && w.location == AtGet && IdleAndAwake(w.core) && w.core.queue == []
             && t in w.core.threads && elapsed >= 0.0 && elapsed >= Remaining(w, cfg)
    ensures var w := Run(Started(now), cfg, steps);
            var poked := Run(w, cfg, [Tick(elapsed), Fire(t), ClearSlot(t), PutWakeup(t)]);
            HandlesMessage(poked) && Handled(poked, cfg, outcome, wake).1
  {
    var w := Run(Started(now), cfg, steps);
    var later := Next(w, cfg, Tick(elapsed));
    ThreadPokes(later, cfg, t);
    RunFirst(w, cfg, Tick(elapsed), [Fire(t), ClearSlot(t), PutWakeup(t)]);
  }

  lemma RunFirst(w: World, cfg: Config, s: Step, rest: seq<Step>)
    ensures Run(w, cfg, [s] + rest) == Run(Next(w, cfg, s), cfg, rest)
  {
    assert ([s] + rest)[1..] == rest;
  }

  // However far it is, a thread can be brought to put WAKEUP.
  lemma ThreadPokes(w: World, cfg: Config, t: nat)
    requires t in w.core.threads
    ensures var w' := Run(w, cfg, [Fire(t), ClearSlot(t), PutWakeup(t)]);
            w' == w.(core := w.core.(queue := w.core.queue + [WAKEUP], threads := w.core.threads - {t},
                                     timer := w'.core.timer))
  {
    RunFirst(w, cfg, Fire(t), [ClearSlot(t), PutWakeup(t)]);
    var fired := Next(w, cfg, Fire(t));
    assert !fired.core.threads[t].Pending? && fired.core.threads - {t} == w.core.threads - {t};
    FiredPokes(fired, cfg, t);
  }

  lemma FiredPokes(w: World, cfg: Config, t: nat)
    requires t in w.core.threads && !w.core.threads[t].Pending?
    ensures var w' := Run(w, cfg, [ClearSlot(t), PutWakeup(t)]);
            w' == w.(core := w.core.(queue := w.core.queue + [WAKEUP], threads := w.core.threads - {t},
                                     timer := w'.core.timer))
  {
    RunFirst(w, cfg, ClearSlot(t), [PutWakeup(t)]);
    var cleared := Next(w, cfg, ClearSlot(t));
    RunFirst(cleared, cfg, PutWakeup(t), []);
    assert cleared.core.threads[t] == Cleared && cleared.core.threads - {t} == w.core.threads - {t};
  }

  /** The main loop takes a WAKEUP at this step and goes into `_sleep` or `_deep_sleep_exit`. */
  predicate EntersAt(w: World, cfg: Config, s: Step) {
    s.Handle? && HandlesMessage(w) && Handled(w, cfg, s.outcome, s.wake).1
  }

  predicate Enters(w: World, cfg: Config, steps: seq<Step>)
    decreases |steps|
  {
    steps != [] && (EntersAt(w, cfg, steps[0]) || Enters(Next(w, cfg, steps[0]), cfg, steps[1..]))
  }

  predicate Disturbs(m: Message) { m.ADD? || m.EngineSleep? }

  /** No request, no client that sleeps, no shutdown. */
  predicate Undisturbed(steps: seq<Step>) {
    forall i :: 0 <= i < |steps| ==>
      !steps[i].ShutdownSignal? && (steps[i].ClientSends? ==> !Disturbs(steps[i].message))
  }

  /** Idle, with nothing on the way that could change it but a timer. */
  ghost predicate Idle(w: World) {
    && IdleAndAwake(w.core) && FinishPause !in w.core.callbacks
    && (forall m <- w.core.queue :: !Disturbs(m))
    && (w.location.Inside? ==> !w.location.hook.InArrival?)
    && (w.location.Inside? && w.location.hook.InIdle? ==> FinishPause !in w.location.hook.rest)
  }

  lemma {:induction false} CallbacksStayIdle(w: World, rest: seq<Callback>, finish: Finish)
    requires IdleAndAwake(w.core) && FinishPause !in w.core.callbacks && FinishPause !in rest
    requires forall m <- w.core.queue :: !Disturbs(m)
    ensures Idle(Callbacks(w, rest, finish))
    decreases |rest|
  {
    if rest != [] {
      assert rest[0] in rest && rest[0] != FinishPause;
      assert FinishPause !in w.core.callbacks + [OnIdle];
    }
  }

  lemma AccessStaysIdle(w: World, cfg: Config)
    requires Idle(w) && w.location.Inside?
    ensures Idle(Accessed(w, cfg))
  {
  }

  lemma HandleStaysIdle(w: World, cfg: Config, outcome: SleepOutcome, wake: Wake)
    requires Idle(w) && HandlesMessage(w) && !Handled(w, cfg, outcome, wake).1
    ensures Idle(Handled(w, cfg, outcome, wake).0)
  {
    assert w.core.queue[0] in w.core.queue;
    assert forall m <- w.core.queue[1..] :: m in w.core.queue;
  }

  lemma OthersStayIdle(w: World, cfg: Config, s: Step)
    requires Idle(w) && Undisturbed([s]) && Quiet(s)
    ensures Idle(Next(w, cfg, s))
  {
    assert [s][0] == s;
  }

  lemma StaysIdle(w: World, cfg: Config, s: Step)
    requires Idle(w) && Undisturbed([s]) && !EntersAt(w, cfg, s)
    ensures Idle(Next(w, cfg, s))
  {
    match s
    case NotifyIdle(finish) => CallbacksStayIdle(w.(core := w.core.(callbacks := [])), w.core.callbacks, finish);
    case Handle(outcome, wake) =>
      if HandlesMessage(w) {
        HandleStaysIdle(w, cfg, outcome, wake);
      }
    case AccessTimer =>
      if w.location.Inside? {
        AccessStaysIdle(w, cfg);
      }
    case LeaveHook(finish) =>
      if w.location.Inside? && w.location.at == Leave && w.location.hook.InIdle? {
        CallbacksStayIdle(w, w.location.hook.rest, finish);
      }
    case EngineStep(_) =>
    case _ => OthersStayIdle(w, cfg, s);
  }

  lemma {:induction false} StaysIdleUnlessEntered(w: World, cfg: Config, rest: seq<Step>)
    requires Idle(w) && Undisturbed(rest) && !Enters(w, cfg, rest)
    ensures Idle(Run(w, cfg, rest))
    decreases |rest|
  {
    if rest != [] {
      assert Undisturbed([rest[0]]) by {
        assert [rest[0]][0] == rest[0];
      }
      assert Undisturbed(rest[1..]) by {
        assert forall i :: 0 <= i < |rest[1..]| ==> rest[1..][i] == rest[i + 1];
      }
      StaysIdle(w, cfg, rest[0]);
      StaysIdleUnlessEntered(Next(w, cfg, rest[0]), cfg, rest[1..]);
    }
  }

  // And it must. From any run that leaves the engine idle, every undisturbed continuation in which all timer threads
  // finish, tracked or not, everything queued is handled and the loop blocks again, has entered `_sleep` or
  // `_deep_sleep_exit`: however early pokes come, and wherever in the hooks.
  lemma IdleEngineFallsAsleep(now: real, cfg: Config, steps: seq<Step>, rest: seq<Step>)
    requires Idle(Run(Started(now), cfg, steps)) && Undisturbed(rest)
    requires var w := Run(Run(Started(now), cfg, steps), cfg, rest);
             w.location == AtGet && w.core.threads == map[] && w.core.queue == []
    ensures Enters(Run(Started(now), cfg, steps), cfg, rest)
  {
    RunKeeps(Started(now), cfg, steps);
    var w := Run(Started(now), cfg, steps);
    RunKeeps(w, cfg, rest);
    if !Enters(w, cfg, rest) {
      StaysIdleUnlessEntered(w, cfg, rest);
    }
  }

  /** How many accesses a hook has left. */
  function AccessesLeft(at: At): nat {
    match at
    case CancelTest => 6
    case CancelCall => 5
    case CancelStore => 4
    case Test => 4
    case Store => 3
    case Daemon(_) => 2
    case Start(_) => 1
    case Leave => 0
  }

  // A poke that re-arms: it leaves a timer in the slot that is due at the end of the window that was running, or
  // later only by what the accesses themselves took.
  lemma {:induction false} PokeRearms(w: World, cfg: Config, others: seq<seq<Step>>)
    requires Inv(w, cfg) && AllOthers(others) && AtAccess(w.location) && w.location.hook.InPoke?
    requires |others| >= AccessesLeft(w.location.at)
    ensures var w' := Accesses(w, cfg, others);
            && w'.core.lastActivity == w.core.lastActivity && w'.now >= w.now
            && (w'.location == Dead
                || (&& w'.location == Inside(w.location.hook, Leave)
                    && w'.core.timer.Some? && w'.core.timer.value in w'.core.threads
                    && w'.core.threads[w'.core.timer.value] == Pending(w'.now + w.location.hook.delay)
                    && w.core.lastActivity + cfg.timeout + 0.001 <= w'.now + w.location.hook.delay))
    decreases |others|
  {
    assert AllQuiet(others[0]);
    QuietRun(w, cfg, others[0]);
    RunKeeps(w, cfg, others[0]);
    var before := Run(w, cfg, others[0]);
    AccessKeeps(before, cfg);
    var w' := Next(before, cfg, AccessTimer);
    if AtAccess(w'.location) {
      PokeRearms(w', cfg, others[1..]);
    }
  }

  lemma EarlyPokeBegins(w: World, cfg: Config, outcome: SleepOutcome, wake: Wake)
    requires Inv(w, cfg) && HandlesMessage(w) && w.core.queue[0] == WAKEUP && IdleAndAwake(w.core)
    requires Remaining(w, cfg) > 0.0
    ensures var handled := Next(w, cfg, Handle(outcome, wake));
            && Inv(handled, cfg) && handled.location == Inside(InPoke(Remaining(w, cfg) + 0.001), CancelTest)
            && handled.now == w.now && handled.core.lastActivity == w.core.lastActivity
  {
    HandleKeeps(w, cfg, outcome, wake);
  }

  // In every run, a WAKEUP that comes early on an idle engine does not start the window again: its hook raises,
  // or it leaves a live timer that is due when the window ends and a millisecond has passed.
  lemma EarlyPokeRearms(now: real, cfg: Config, steps: seq<Step>, outcome: SleepOutcome, wake: Wake,
                        others: seq<seq<Step>>)
    requires var w := Run(Started(now), cfg, steps);
             && HandlesMessage(w) && w.core.queue[0] == WAKEUP && IdleAndAwake(w.core) && Remaining(w, cfg) > 0.0
    requires AllOthers(others) && |others| >= 6
    ensures var w := Run(Started(now), cfg, steps);
            var handled := Next(w, cfg, Handle(outcome, wake));
            var w' := Accesses(handled, cfg, others);
            && w'.core.lastActivity == w.core.lastActivity
            && (w'.location == Dead <==> ClearedBeforeUse(handled, cfg, others))
            && (w'.location != Dead ==>
                  && w'.core.timer.Some? && w'.core.timer.value in w'.core.threads
                  && var due := w.core.lastActivity + cfg.timeout + 0.001 + (w'.now - w.now);
                     w'.core.threads[w'.core.timer.value] == Pending(due))
  {
    RunKeeps(Started(now), cfg, steps);
    var w := Run(Started(now), cfg, steps);
    var handled := Next(w, cfg, Handle(outcome, wake));
    EarlyPokeBegins(w, cfg, outcome, wake);
    PokeRearms(handled, cfg, others);
    HookRaisesIffCleared(handled, cfg, others);
  }

  // ------------------------------------------------------------------
  // The controller's own code
  // ------------------------------------------------------------------

  /** A whole hook: its accesses, and what follows them unless it has raised. */
  function Hooked(w: World, cfg: Config, others: seq<seq<Step>>): World
    requires AtAccess(w.location)
  {
    var h := Accesses(w, cfg, others);
    if h.location.Inside? then Left(h, Fails) else h
  }

  /** The idle callbacks that are left, with the accesses of the `on_idle` among them. */
  function Notified(w: World, rest: seq<Callback>, cfg: Config, finish: Finish, others: seq<seq<Step>>): World {
    var h := Callbacks(w, rest, finish);
    if !AtAccess(h.location) then h
    else
      var a := Accesses(h, cfg, others);
      if a.location.Inside? then Left(a, finish) else a
  }

  lemma {:induction false} NoAccessWithoutOnIdle(w: World, rest: seq<Callback>, finish: Finish)
    requires OnIdle !in rest
    ensures !Callbacks(w, rest, finish).location.Inside?
    decreases |rest|
  {
    if rest != [] && !finish.Raises? {
      NoAccessWithoutOnIdle(w.(core := w.core.(sleeping := w.core.sleeping || finish.Sleeps?)), rest[1..], finish);
    }
  }

  lemma OnlyOneLeft(callbacks: seq<Callback>, i: nat)
    requires i < |callbacks| && callbacks[i] == OnIdle && multiset(callbacks)[OnIdle] == 1
    ensures OnIdle !in callbacks[i + 1..]
  {
    assert callbacks == callbacks[..i] + [OnIdle] + callbacks[i + 1..];
  }

  // The `on_idle` among the callbacks, and then those after it.
  lemma NotifiedFromOnIdle(w: World, rest: seq<Callback>, cfg: Config, finish: Finish, others: seq<seq<Step>>)
    requires rest != [] && rest[0] == OnIdle && OnIdle !in rest[1..] && |others| >= 4 && AllOthers(others)
    ensures var begun := w.(core := Begun(w.core));
            var a := Accesses(begun.(location := Inside(InIdle(rest[1..]), Test)), cfg, others);
            Notified(w, rest, cfg, finish, others)
            == if begun.core.state != ACTIVE then Notified(begun, rest[1..], cfg, finish, others)
               else if a.location == Inside(InIdle(rest[1..]), Leave) then Notified(a, rest[1..], cfg, finish, others)
               else if a.location.Inside? then Left(a, finish)
               else a
  {
    var begun := w.(core := Begun(w.core));
    var a := Accesses(begun.(location := Inside(InIdle(rest[1..]), Test)), cfg, others);
    NoAccessWithoutOnIdle(begun, rest[1..], finish);
    NoAccessWithoutOnIdle(a, rest[1..], finish);
  }

  // One access, after what the other threads do.
  lemma OneAccess(w: World, cfg: Config, others: seq<seq<Step>>, n: nat)
    requires n < |others| && AllOthers(others) && AtAccess(w.location)
    ensures Run(w, cfg, others[n]).location == w.location
    ensures Accesses(w, cfg, others[n..]) == Accesses(Accessed(Run(w, cfg, others[n]), cfg), cfg, others[n + 1..])
  {
    assert AllQuiet(others[n]);
    QuietRun(w, cfg, others[n]);
    assert others[n..][0] == others[n] && others[n..][1..] == others[n + 1..];
  }

  /**
    The controller, the timer threads, and the engine that the hooks are duck-typed against. `others` is what
    the other threads do before each access of the slot.
   */
  class AutoSleepController {
    const config: Config
    var state: State
    var timer: Option<nat>
    var lastActivity: real
    var threads: map<nat, TimerThread>
    var nextId: nat
    var queue: seq<Message>
    var callbacks: seq<Callback>
    var sleeping: bool
    var running: bool
    var requests: nat
    var now: real
    ghost var location: Location
    ghost var lastArrival: real
    ghost var lastArming: real

    function Fields(): Core
      reads this
    {
      Core(state, timer, lastActivity, threads, nextId, queue, callbacks, sleeping, running, requests)
    }

    ghost function Value(): World
      reads this
    {
      World(Fields(), location, now, lastArrival, lastArming)
    }

    constructor (config: Config, now: real)
      ensures this.config == config && Value() == Started(now)
    {
      this.config := config;
      state, timer, lastActivity, threads, nextId := ACTIVE, None, now, map[], 0;
      queue, callbacks, sleeping, running, requests := [], [OnIdle], false, true, 0;
      this.now, location, lastArrival, lastArming := now, AtTop, now, now;
    }

    /** The first statement of `_poke`, on timer thread t. */
    method PokeClears(t: nat)
      requires t in threads && threads[t] == Fired
      modifies this`timer, this`threads
      ensures Fields() == AfterClear(old(Fields()), t)
    {
      timer := None;
      threads := threads[t := Cleared];
    }

    /** The second statement of `_poke`, on timer thread t. */
    method PokePuts(t: nat)
      requires t in threads && threads[t] == Cleared
      modifies this`threads, this`queue
      ensures Fields() == AfterPut(old(Fields()), t)
    {
      threads := threads - {t};
      queue := queue + [WAKEUP];
    }

    /** One step of another thread. */
    method OtherStep(s: Step)
      requires Quiet(s)
      modifies this`now, this`queue, this`running, this`threads, this`timer
      ensures Value() == Next(old(Value()), config, s)
    {
      match s
      case Tick(elapsed) =>
        if elapsed >= 0.0 {
          now := now + elapsed;
        }
      case ClientSends(m) =>
        if m != WAKEUP {
          queue := queue + [m];
        }
      case ShutdownSignal =>
        running, queue := false, queue + [WAKEUP];
      case Fire(t) =>
        if t in threads && threads[t].Pending? {
          threads := threads[t := Fired];
        }
      case ClearSlot(t) =>
        if t in threads && threads[t] == Fired {
          PokeClears(t);
        }
      case PutWakeup(t) =>
        if t in threads && threads[t] == Cleared {
          PokePuts(t);
        }
    }

    method Others(steps: seq<Step>)
      requires AllQuiet(steps)
      modifies this`now, this`queue, this`running, this`threads, this`timer
      ensures Value() == Run(old(Value()), config, steps)
    {
      for i := 0 to |steps|
        invariant Run(old(Value()), config, steps) == Run(Value(), config, steps[i..])
      {
        assert steps[i..][0] == steps[i] && steps[i..][1..] == steps[i + 1..];
        OtherStep(steps[i]);
      }
    }

    /** An access of the slot, once the other threads have done their steps. */
    method TestTimer(others: seq<Step>) returns (found: bool)
      requires AllQuiet(others) && location.Inside? && location.at == CancelTest
      modifies this
      ensures Run(old(Value()), config, others).location == old(location)
      ensures Value() == Accessed(Run(old(Value()), config, others), config)
      ensures location == Inside(old(location).hook, if found then CancelCall else AfterCancel(old(location).hook))
    {
      QuietRun(Value(), config, others);
      Others(others);
      found := timer.Some?;
      location := Inside(location.hook, if found then CancelCall else AfterCancel(location.hook));
    }

    method CallCancel(others: seq<Step>) returns (raised: bool)
      requires AllQuiet(others) && location.Inside? && location.at == CancelCall
      modifies this
      ensures Run(old(Value()), config, others).location == old(location)
      ensures Value() == Accessed(Run(old(Value()), config, others), config)
      ensures location == if raised then Dead else Inside(old(location).hook, CancelStore)
    {
      QuietRun(Value(), config, others);
      Others(others);
      if timer.None? {
        location := Dead;
        return true;
      }
      if timer.value in threads && threads[timer.value].Pending? {
        threads := threads - {timer.value};
      }
      location := Inside(location.hook, CancelStore);
      raised := false;
    }

    method StoreNone(others: seq<Step>)
      requires AllQuiet(others) && location.Inside? && location.at == CancelStore
      modifies this
      ensures Run(old(Value()), config, others).location == old(location)
      ensures Value() == Accessed(Run(old(Value()), config, others), config)
      ensures location == Inside(old(location).hook, AfterCancel(old(location).hook))
    {
      QuietRun(Value(), config, others);
      Others(others);
      timer := None;
      location := Inside(location.hook, AfterCancel(location.hook));
    }

    method StoreTimer(others: seq<Step>) returns (id: nat)
      requires AllQuiet(others) && location.Inside? && location.at == Store
      modifies this
      ensures Run(old(Value()), config, others).location == old(location)
      ensures Value() == Accessed(Run(old(Value()), config, others), config)
      ensures location == Inside(old(location).hook, Daemon(id))
    {
      QuietRun(Value(), config, others);
      Others(others);
      id := nextId;
      timer, nextId := Some(id), nextId + 1;
      location := Inside(location.hook, Daemon(id));
    }

    method MarkDaemon(id: nat, others: seq<Step>) returns (raised: bool)
      requires AllQuiet(others) && location.Inside? && location.at == Daemon(id)
      modifies this
      ensures Run(old(Value()), config, others).location == old(location)
      ensures Value() == Accessed(Run(old(Value()), config, others), config)
      ensures location == if raised then Dead else Inside(old(location).hook, Start(id))
    {
      QuietRun(Value(), config, others);
      Others(others);
      raised := timer.None?;
      location := if raised then Dead else Inside(location.hook, Start(id));
    }

    method StartTimer(id: nat, delay: real, others: seq<Step>) returns (raised: bool)
      requires AllQuiet(others) && location.Inside? && location.at == Start(id)
      requires delay == DelayOf(location.hook, config)
      modifies this
      ensures Run(old(Value()), config, others).location == old(location)
      ensures Value() == Accessed(Run(old(Value()), config, others), config)
      ensures location == if raised then Dead else Inside(old(location).hook, Leave)
    {
      QuietRun(Value(), config, others);
      Others(others);
      if timer.None? {
        location := Dead;
        return true;
      }
      threads := threads[timer.value := Pending(now + delay)];
      location := Inside(location.hook, Leave);
      raised := false;
    }

    /** `_cancel_timer`; whether it raises, and how many accesses it made. */
    method CancelTimer(others: seq<seq<Step>>) returns (raised: bool, used: nat)
      requires |others| >= 3 && AllOthers(others) && location.Inside? && location.at == CancelTest
      modifies this
      ensures used <= 3 && Accesses(old(Value()), config, others) == Accesses(Value(), config, others[used..])
      ensures location == if raised then Dead else Inside(old(location).hook, AfterCancel(old(location).hook))
    {
      assert others[0..] == others;
      OneAccess(Value(), config, others, 0);
      var found := TestTimer(others[0]);
      if !found {
        return false, 1;
      }
      OneAccess(Value(), config, others, 1);
      raised := CallCancel(others[1]);
      if raised {
        return true, 2;
      }
      OneAccess(Value(), config, others, 2);
      StoreNone(others[2]);
      used := 3;
    }

    /** `Timer(delay, self._poke)`, made a daemon and started. */
    method ArmTimer(delay: real, others: seq<seq<Step>>, n: nat) returns (raised: bool)
      requires n + 3 <= |others| && AllOthers(others) && location.Inside? && location.at == Store
      requires delay == DelayOf(location.hook, config)
      modifies this
      ensures Value() == Accesses(old(Value()), config, others[n..])
      ensures location == if raised then Dead else Inside(old(location).hook, Leave)
    {
      OneAccess(Value(), config, others, n);
      var id := StoreTimer(others[n]);
      OneAccess(Value(), config, others, n + 1);
      raised := MarkDaemon(id, others[n + 1]);
      if raised {
        return;
      }
      OneAccess(Value(), config, others, n + 2);
      raised := StartTimer(id, delay, others[n + 2]);
    }

    /** The test of `on_idle`: whether it goes on to arm a timer. */
    method TestIdle(others: seq<Step>) returns (arms: bool)
      requires AllQuiet(others) && location.Inside? && location.at == Test
      modifies this
      ensures Run(old(Value()), config, others).location == old(location)
      ensures Value() == Accessed(Run(old(Value()), config, others), config)
      ensures location == Inside(old(location).hook, if arms then Store else Leave)
    {
      QuietRun(Value(), config, others);
      Others(others);
      arms := timer.None? && !sleeping && running;
      if arms {
        lastActivity, lastArming := now, now;
      }
      location := Inside(location.hook, if arms then Store else Leave);
    }

    /** `on_idle` from its test on. */
    method TestAndArm(others: seq<seq<Step>>) returns (raised: bool)
      requires |others| >= 4 && AllOthers(others) && location.Inside? && location.hook.InIdle? && location.at == Test
      modifies this
      ensures Value() == Accesses(old(Value()), config, others)
      ensures location == if raised then Dead else Inside(old(location).hook, Leave)
    {
      assert others[0..] == others;
      OneAccess(Value(), config, others, 0);
      var arms := TestIdle(others[0]);
      if !arms {
        return false;
      }
      raised := ArmTimer(config.timeout, others, 1);
    }

    /** `on_idle`; `rest` are the callbacks that come after it. True if it raises. */
    method WhenIdle(ghost rest: seq<Callback>, others: seq<seq<Step>>) returns (raised: bool)
      requires |others| >= 4 && AllOthers(others)
      modifies this
      ensures var begun := old(Value()).(core := Begun(old(Fields())));
              if begun.core.state != ACTIVE then Value() == begun && !raised
              else
                && Value() == Accesses(begun.(location := Inside(InIdle(rest), Test)), config, others)
                && location == if raised then Dead else Inside(InIdle(rest), Leave)
    {
      callbacks := callbacks + [OnIdle];
      if state == SLEEPING && !sleeping {
        state := ACTIVE;
      }
      if state != ACTIVE {
        return false;
      }
      location := Inside(InIdle(rest), Test);
      raised := TestAndArm(others);
    }

    /** The idle callback of a deferred pause, by how it ends. */
    method FinishDeferredPause(finish: Finish) returns (raised: bool)
      modifies this`sleeping, this`location
      ensures raised == finish.Raises?
      ensures Value() == if raised then old(Value()).(location := Dead)
                         else old(Value()).(core := old(Fields()).(sleeping := old(sleeping) || finish.Sleeps?))
    {
      raised := finish.Raises?;
      if raised {
        location := Dead;
      } else if finish.Sleeps? {
        sleeping := true;
      }
    }

    /** The first of the callbacks that are left; true if it raises. */
    method Notify(ghost rest: seq<Callback>, callback: Callback, finish: Finish, others: seq<seq<Step>>)
      returns (raised: bool)
      requires |others| >= 4 && AllOthers(others) && location != Dead
      requires rest != [] && rest[0] == callback && (callback.OnIdle? ==> OnIdle !in rest[1..])
      modifies this
      ensures raised == (location == Dead)
      ensures Notified(old(Value()), rest, config, finish, others)
           == if raised then Value() else Notified(Value(), rest[1..], config, finish, others)
    {
      if callback.FinishPause? {
        raised := FinishDeferredPause(finish);
      } else {
        NotifiedFromOnIdle(Value(), rest, config, finish, others);
        raised := WhenIdle(rest[1..], others);
      }
    }

    /** `_notify_idle_state_callbacks`: every callback of a snapshot, in order; true if one raises. */
    method NotifyIdleStateCallbacks(finish: Finish, others: seq<seq<Step>>) returns (raised: bool)
      requires |others| >= 4 && AllOthers(others)
      requires location == AtTop && requests == 0 && running && multiset(callbacks)[OnIdle] == 1
      modifies this
      ensures var start := old(Value()).(core := old(Fields()).(callbacks := []));
              Value() == Notified(start, old(callbacks), config, finish, others) && raised == (location == Dead)
    {
      var snapshot := callbacks;
      callbacks := [];
      ghost var start := Value();
      for i := 0 to |snapshot|
        invariant location != Dead
        invariant Notified(Value(), snapshot[i..], config, finish, others)
               == Notified(start, snapshot, config, finish, others)
      {
        ghost var rest := snapshot[i..];
        assert rest[1..] == snapshot[i + 1..];
        if snapshot[i] == OnIdle {
          OnlyOneLeft(snapshot, i);
        }
        raised := Notify(rest, snapshot[i], finish, others);
        if raised {
          return;
        }
      }
      location := AtGet;
      raised := false;
    }

    /** `on_request_arrival` once the timer is cancelled, and the rest of `add_request`; true if waking fails. */
    method WakeForRequest(wake: Wake) returns (raised: bool)
      requires location == Inside(InArrival(wake), Leave)
      modifies this`state, this`sleeping, this`requests, this`location
      ensures Value() == Left(old(Value()), Fails) && raised == (location == Dead)
    {
      if sleeping {
        state := WAKING;
        if wake.WakeRaises? {
          state, location := SLEEPING, Dead;
          return true;
        }
        sleeping := wake.StillPaused?;
      }
      state, requests, location := ACTIVE, requests + 1, AtTop;
      raised := false;
    }

    /** `on_request_arrival`; true if it raises. */
    method OnRequestArrival(wake: Wake, others: seq<seq<Step>>) returns (raised: bool)
      requires |others| >= 3 && AllOthers(others) && running
      modifies this
      ensures Value() == Hooked(Received(old(Value()), ADD, config, Slept, wake).0, config, others)
      ensures raised == (location == Dead)
    {
      lastActivity, lastArrival := now, now;
      location := Inside(InArrival(wake), CancelTest);
      var used;
      raised, used := CancelTimer(others);
      if !raised {
        raised := WakeForRequest(wake);
      }
    }

    /** `on_wakeup_poke`; whether it goes into `_sleep` or `_deep_sleep_exit`, and whether it raises. */
    method OnWakeupPoke(outcome: SleepOutcome, others: seq<seq<Step>>) returns (entered: bool, raised: bool)
      requires |others| >= 6 && AllOthers(others)
      modifies this
      ensures var (poked, enters) := Poked(old(Value()), config, outcome);
              && Value() == (if poked.location.Inside? then Hooked(poked, config, others) else poked)
              && entered == enters && raised == (location == Dead)
    {
      entered, raised := false, false;
      if state != ACTIVE || sleeping || !running || requests > 0 {
        location := AtTop;
        return;
      }
      var remaining := config.timeout - (now - lastActivity);
      if remaining > 0.0 {
        location := Inside(InPoke(remaining + 0.001), CancelTest);
        raised := Rearm(remaining + 0.001, others);
        return;
      }
      entered := true;
      if config.target == EXIT {
        DeepSleepExit();
        location := AtTop;
      } else {
        raised := Sleep(outcome);
        location := if raised then Dead else AtTop;
      }
    }

    method Rearm(delay: real, others: seq<seq<Step>>) returns (raised: bool)
      requires |others| >= 6 && AllOthers(others) && location == Inside(InPoke(delay), CancelTest)
      modifies this
      ensures Value() == Hooked(old(Value()), config, others) && raised == (location == Dead)
    {
      var used;
      raised, used := CancelTimer(others);
      if raised {
        return;
      }
      raised := ArmTimer(delay, others, used);
      if !raised {
        location := AtTop;
      }
    }

    method DeepSleepExit()
      modifies this`state, this`running
      ensures Fields() == AfterDeepSleepExit(old(Fields()), config)
    {
      if !config.canExit {
        state := ACTIVE;
        return;
      }
      state := EXITED;
      running := false;
    }

    /** `_sleep`, by how it ends; true if it raises. */
    method Sleep(outcome: SleepOutcome) returns (raised: bool)
      modifies this`state, this`sleeping, this`callbacks
      ensures Fields() == AfterSleep(old(Fields()), outcome) && raised == outcome.Breaks?
    {
      raised := outcome.Breaks?;
      match outcome
      case StaysAwake(paused) => state, sleeping := ACTIVE, paused;
      case Slept => state, sleeping := SLEEPING, true;
      case Deferred => state, sleeping, callbacks := SLEEPING, true, callbacks + [FinishPause];
      case Breaks(state, sleeping) => this.state, this.sleeping := state, sleeping;
    }
  }
}
