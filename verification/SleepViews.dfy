/**
  One controller, two views. AutoSleepTimer decides when to sleep and takes how a sleep, a deferred pause or a
  wake-up ends as given; TwoPhaseSleep walks through these calls on every rank. Here the outcome of each
  call over the ranks is the one the timer's view is given, and the two views agree afterwards.
 */
module SleepViews {
  import opened Prelude
  import Ranks = TwoPhaseSleep
  import Timer = AutoSleepTimer

  function StateOf(s: Ranks.ControllerState): Timer.State {
    match s
    case ACTIVE => Timer.ACTIVE
    case SLEEPING => Timer.SLEEPING
    case WAKING => Timer.WAKING
  }

  /** The controller's state, what `is_sleeping()` says, and the idle callbacks that still owe a suspension. */
  ghost predicate SameView(w: Ranks.World, c: Timer.Core) {
    && c.state == StateOf(w.state)
    && c.sleeping == Ranks.IsSleeping(w)
    && multiset(c.callbacks)[Timer.FinishPause] == |w.pending|
  }

  /** How the timer's view sees the end of `_sleep`. */
  function SleepSeen(w: Ranks.World): Timer.SleepOutcome {
    if w.phase.Crashed? then Timer.Breaks(StateOf(w.state), Ranks.IsSleeping(w))
    else if w.executorSleeping then Timer.Slept
    else if w.state == Ranks.ACTIVE then Timer.StaysAwake(w.paused)
    else Timer.Deferred
  }

  function FinishSeen(w: Ranks.World): Timer.Finish {
    if w.phase.Crashed? then Timer.Raises else if w.executorSleeping then Timer.Sleeps else Timer.Fails
  }

  function WakeSeen(w: Ranks.World): Timer.Wake {
    if w.phase.Crashed? then Timer.WakeRaises else if Ranks.IsSleeping(w) then Timer.StillPaused else Timer.Awakes
  }

  lemma OneMorePaused(callbacks: seq<Timer.Callback>)
    ensures multiset(callbacks + [Timer.FinishPause])[Timer.FinishPause] == multiset(callbacks)[Timer.FinishPause] + 1
  {
    assert multiset(callbacks + [Timer.FinishPause]) == multiset(callbacks) + multiset{Timer.FinishPause};
  }

  lemma EndedKeepsPending(w: Ranks.World, rpc: Ranks.Rpc, resume: Ranks.Resume)
    requires w.phase == Ranks.Suspending || w.phase == Ranks.RollingBack
    requires w.replies == map[]
    ensures var (w', ok) := Ranks.Ended(w, rpc, resume);
            && w'.pending == w.pending
            && (w.phase == Ranks.Suspending && !ok ==> w'.phase == Ranks.RollingBack && w'.replies == map[])
  {
    Ranks.CollectAllAnswers(w, rpc);
  }

  lemma SuspendKeepsPending(w: Ranks.World, plan: Ranks.Plan)
    requires w.phase == Ranks.Pausing && w.replies == map[]
    ensures Ranks.SuspendCall(w, plan).pending == w.pending + if plan.pause.Defers? then [1] else []
  {
    var paused := Ranks.Next(w, Ranks.PauseStep(plan.pause));
    if plan.pause.Completes? {
      EndedKeepsPending(paused, plan.sleep, Ranks.Resumes);
      var (slept, ok) := Ranks.Ended(paused, plan.sleep, Ranks.Resumes);
      if !ok {
        EndedKeepsPending(slept, plan.wakeUp, plan.resume);
      }
    } else if !plan.pause.Defers? {
      EndedKeepsPending(paused, plan.wakeUp, plan.resume);
    }
  }

  // Only a deferred pause is left pending by `_sleep`, and then the call has returned.
  lemma SleepPending(w: Ranks.World, plan: Ranks.Plan)
    requires Ranks.WorldInv(w) && Ranks.Serving(w)
    ensures Ranks.SleepCall(w, plan).pending == if Ranks.Waiting(Ranks.SleepCall(w, plan)) then [1] else []
  {
    Ranks.SleepCallOutcome(w, plan);
    Ranks.ServingStarts(w);
    var started := Ranks.Next(w, Ranks.BeginSleep);
    Ranks.CollectAllAnswers(started, plan.prepare);
    Ranks.PreparedReturns(started, plan.prepare);
    if !Ranks.Lost(w, plan.prepare) {
      var returned := Ranks.Returned(Ranks.CollectAll(started, plan.prepare), Ranks.Resumes);
      if returned.phase.Pausing? {
        SuspendKeepsPending(returned, plan);
      } else {
        Ranks.CollectAllAnswers(returned, plan.cancel);
      }
    }
  }

  // `_sleep` over all ranks ends as one of the outcomes that the timer's view knows.
  lemma SleepViewsAgree(w: Ranks.World, plan: Ranks.Plan, c: Timer.Core)
    requires Ranks.WorldInv(w) && Ranks.Serving(w) && SameView(w, c)
    ensures var w' := Ranks.SleepCall(w, plan);
            && SameView(w', Timer.AfterSleep(c, SleepSeen(w')))
            && (SleepSeen(w').Slept? <==> Ranks.Asleep(w')) && (SleepSeen(w').Deferred? <==> Ranks.Waiting(w'))
  {
    Ranks.SleepCallOutcome(w, plan);
    SleepPending(w, plan);
    OneMorePaused(c.callbacks);
  }

  // The idle callback of a deferred pause, whether or not a wake-up has come early.
  lemma FinishViewsAgree(w: Ranks.World, raises: bool, rpc: Ranks.Rpc, now: Timer.World, rest: seq<Timer.Callback>)
    requires w.phase == Ranks.Free && w.pending != []
    requires rest != [] && rest[0] == Timer.FinishPause
    requires SameView(w, now.core.(callbacks := now.core.callbacks + rest))
    ensures var w' := Ranks.FinishCall(w, raises, rpc);
            var finish := FinishSeen(w');
            var c := now.core.(sleeping := now.core.sleeping || finish.Sleeps?);
            && SameView(w', c.(callbacks := c.callbacks + rest[1..]))
            && (finish.Raises? <==> raises)
            && Timer.Callbacks(now, rest, finish)
               == if raises then now.(location := Timer.Dead) else Timer.Callbacks(now.(core := c), rest[1..], finish)
  {
    var due := Ranks.Next(w, Ranks.PauseFinishes(raises));
    if due.phase.Finishing? {
      Ranks.CollectAllAnswers(due, rpc);
      Ranks.SuspensionEnds(due, rpc);
    }
    OneFewerPaused(now.core.callbacks, rest);
  }

  lemma OneFewerPaused(before: seq<Timer.Callback>, rest: seq<Timer.Callback>)
    requires rest != [] && rest[0] == Timer.FinishPause
    ensures multiset(before + rest)[Timer.FinishPause] == multiset(before + rest[1..])[Timer.FinishPause] + 1
  {
    assert rest == [Timer.FinishPause] + rest[1..];
    assert multiset(before + rest) == multiset(before) + multiset{Timer.FinishPause} + multiset(rest[1..]);
    assert multiset(before + rest[1..]) == multiset(before) + multiset(rest[1..]);
  }

  // A request that finds the engine asleep: `_wake` over all ranks ends in the state that the timer's view has.
  lemma WakeViewsAgree(w: Ranks.World, rpc: Ranks.Rpc, resume: Ranks.Resume, now: Timer.World)
    requires Ranks.WorldInv(w) && w.phase == Ranks.Free && w.paused && SameView(w, now.core)
    ensures var w' := Ranks.WakeCall(w, Ranks.Request, None, rpc, resume).0;
            var wake := WakeSeen(w');
            var at := now.(location := Timer.Inside(Timer.InArrival(wake), Timer.Leave));
            var left := Timer.Left(at, Timer.Fails);
            && SameView(w', left.core)
            && (left.location == if wake.WakeRaises? then Timer.Dead else Timer.AtTop)
  {
    var started := Ranks.StartWakeUp(w, Ranks.Request, None, resume);
    if started.phase.Waking? {
      Ranks.AsleepStarts(w, Ranks.Request, resume);
      Ranks.WakingEnds(started, Ranks.Request, None, rpc, resume);
      Ranks.CollectAllAnswers(started, rpc);
    }
  }

  lemma ClientSleepKeepsFlags(w: Ranks.World, level: int, pause: Ranks.Pause, rpc: Ranks.Rpc)
    requires w.phase == Ranks.Free
    ensures var w' := Ranks.ClientSleepCall(w, level, pause, rpc);
            && w'.state == w.state && w'.paused == (w.paused || !pause.RaisesBefore?)
            && w'.pending == w.pending + (if pause.Defers? && level >= 1 then [level] else [])
            && (pause.RaisesBefore? ==> w'.executorSleeping == w.executorSleeping)
  {
    var begun := Ranks.Next(w, Ranks.ClientSleeps(level, pause));
    if begun.phase.ClientSuspending? {
      Ranks.SuspensionEnds(begun, rpc);
      Ranks.CollectAllAnswers(begun, rpc);
    }
  }

  // A client's own sleep.
  lemma ClientSleepViewsAgree(w: Ranks.World, level: int, pause: Ranks.Pause, rpc: Ranks.Rpc, c: Timer.Core,
                              aborts: bool)
    requires w.phase == Ranks.Free && SameView(w, c)
    ensures var w' := Ranks.ClientSleepCall(w, level, pause, rpc);
            SameView(w', Timer.AfterClientSleep(c, !pause.RaisesBefore?, pause.Defers? && level >= 1, aborts))
  {
    ClientSleepKeepsFlags(w, level, pause, rpc);
    OneMorePaused(c.callbacks);
  }

  // A client's wake-up, of all or some tags.
  lemma ClientWakeViewsAgree(w: Ranks.World, tags: Option<seq<string>>, rpc: Ranks.Rpc, resume: Ranks.Resume,
                             c: Timer.Core)
    requires w.phase == Ranks.Free && SameView(w, c)
    ensures var w' := Ranks.WakeCall(w, Ranks.Client, tags, rpc, resume).0;
            SameView(w', c.(sleeping := c.sleeping && Ranks.IsSleeping(w')))
  {
    var started := Ranks.StartWakeUp(w, Ranks.Client, tags, resume);
    if started.phase.Waking? {
      Ranks.WakingEnds(started, Ranks.Client, Ranks.Asked(tags), rpc, resume);
      Ranks.CollectAllAnswers(started, rpc);
    }
  }
}
