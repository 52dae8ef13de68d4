/**
  Disk sleep over all tensor-parallel ranks (vllm/v1/engine/auto_sleep.py, `_sleep` and `_wake`, and
  vllm/v1/engine/core.py, `sleep`, `wake_up` and `pause_scheduler`).

  The engine's main thread walks through the phases below. In a phase that is a collective RPC the ranks
  execute it one by one, in any order, with any fault inside any of them, and the RPC may fail before it has
  reached every rank. A pause that cannot complete at once is deferred: `_sleep` returns, and an idle
  callback suspends the ranks later. Clients may wake the engine, and put it to sleep without the
  controller. `Next` makes one step.
 */
module TwoPhaseSleep {
  import opened Prelude
  import opened DiskSleep

  datatype ControllerState = ACTIVE | SLEEPING | WAKING

  /** Who asks for the wake-up: a request that arrives, or a client's own call, whose errors are only reported. */
  datatype Waker = Request | Client

  /** How `pause_scheduler` ends; it may raise before or after it has set the pause state. */
  datatype Pause = Completes | Defers | RaisesBefore | RaisesAfter

  /** How `resume_scheduler` ends; under data parallelism it may return and resume nothing. */
  datatype Resume = Resumes | Ignored | Raises

  /**
    Where the main thread is: `Free` in its loop, in one of the calls, in a deferred suspension (`Finishing`),
    in a client's own sleep, or out of the loop by an exception (`Crashed`).
   */
  datatype Phase =
    | Free
    | Preparing
    | Cancelling
    | Pausing
    | Suspending
    | RollingBack
    | Finishing(level: int)
    | ClientSuspending(level: int)
    | Waking(waker: Waker, tags: Option<seq<string>>)
    | Crashed

  /** The tags that the executor knows. It keeps those that sleep, and sleeps until none is left. */
  const EXECUTOR_TAGS: set<string> := {"weights", KV_CACHE}

  const SCHEDULING: string := "scheduling"

  /**
    `model[i]` is what the model keeps in the allocations of rank i; nothing in the code holds it. `replies`
    has the answers so far to the RPC of the current phase, `pending` the levels of deferred suspensions.
   */
  datatype World = World(
    phase: Phase,
    state: ControllerState,
    paused: bool,
    executorSleeping: bool,
    sleepingTags: set<string>,
    pending: seq<int>,
    ranks: seq<Rank>,
    model: seq<Contents>,
    replies: map<nat, bool>)

  datatype Step =
    | ModelWrites(rank: nat, allocation: nat, bytes: seq<Byte>)
    | BeginSleep
    | PauseCompletes
    | PauseDefers
    | PauseRaises(stateSet: bool)
    | PauseFinishes(raises: bool)
    | RequestArrives(resume: Resume)
    | ClientWakes(tags: Option<seq<string>>, resume: Resume)
    | NoticeAwake
    | RankExecutes(rank: nat, fault: Fault)
    | ClientSleeps(level: int, pause: Pause)
    | CallReturns(resume: Resume)
    | CallRaises
    | PayloadAltered(rank: nat, payload: seq<Byte>)

  datatype RankMethod = PREPARE | CANCEL | SLEEP(level: int) | WAKE_UP(tags: Option<seq<string>>)

  /**
    Prepare and cancel look the backend up and call it; the worker's sleep and wake-up do more around it. A
    lookup that fails is an answer like any other error; a backend that preparation found, cancellation finds.
   */
  function Call(m: RankMethod, r: Rank, fault: Fault): (Rank, bool) {
    match m
    case PREPARE => if fault.BeforeBackend? then (r, false) else AfterPrepare(r, fault)
    case CANCEL => AfterCancel(r, fault)
    case SLEEP(level) =>
      if fault.BeforeBackend? then (r, false)
      else
        var (r', ok) := AfterSuspend(r, level, fault);
        (r', ok && !fault.AfterBackend?)
    case WAKE_UP(tags) =>
      var (r', ok) := AfterResume(r, tags, fault);
      (r', ok && !fault.AfterBackend?)
  }

  predicate IsRpc(p: Phase) { p != Free && p != Pausing && p != Crashed }

  /** What the ranks are asked to do in a phase that is an RPC. */
  function MethodOf(p: Phase): RankMethod {
    match p
    case Preparing => PREPARE
    case Cancelling => CANCEL
    case Suspending => SLEEP(1)
    case Finishing(level) => SLEEP(level)
    case ClientSuspending(level) => SLEEP(level)
    case Waking(_, tags) => WAKE_UP(tags)
    case _ => WAKE_UP(None)
  }

  predicate AllReplied(n: nat, replies: map<nat, bool>) { forall i: nat :: i < n ==> i in replies }

  predicate AllOk(n: nat, replies: map<nat, bool>) { forall i: nat :: i < n ==> i in replies && replies[i] }

  /** `EngineCore.is_sleeping`. */
  predicate IsSleeping(w: World) { w.paused || w.executorSleeping }

  /** Rank i executes the current RPC. */
  function Executed(w: World, i: nat, fault: Fault): World {
    if IsRpc(w.phase) && i < |w.ranks| && i !in w.replies then
      var (r, ok) := Call(MethodOf(w.phase), w.ranks[i], fault);
      w.(ranks := w.ranks[i := r], replies := w.replies[i := ok])
    else w
  }

  function Enter(w: World, p: Phase, state: ControllerState): World {
    w.(phase := p, state := state, replies := map[])
  }

  // ------------------------------------------------------------------
  // Sleeping
  // ------------------------------------------------------------------

  /** `pause_scheduler`, in phase Pausing. Whatever returns lets `_sleep` go on, or return. */
  function Paused(w: World, s: Step): World {
    match s
    case PauseCompletes => Enter(w, Suspending, SLEEPING).(paused := true)
    case PauseDefers => w.(phase := Free, paused := true, pending := w.pending + [1])
    case PauseRaises(stateSet) => Enter(w, RollingBack, SLEEPING).(paused := w.paused || stateSet)
    case _ => w
  }

  /** The executor's sleep has returned. */
  function Slept(w: World): World {
    w.(phase := Free, executorSleeping := true, sleepingTags := EXECUTOR_TAGS)
  }

  /** The idle callback of a deferred pause: `_finish_pause`, and then the executor's sleep unless it sleeps. */
  function FinishPause(w: World, raises: bool): World {
    if w.phase != Free || w.pending == [] then w
    else
      var due := w.(pending := w.pending[1..]);
      if raises then due.(phase := Crashed)
      else if w.executorSleeping then due
      else due.(phase := Finishing(w.pending[0]), replies := map[])
  }

  /** A client's own `engine.sleep`: nothing is prepared, and an exception is only reported. Level 0 only pauses. */
  function ClientSlept(w: World, level: int, pause: Pause): World {
    match pause
    case RaisesBefore => w
    case RaisesAfter => w.(paused := true)
    case Defers => w.(paused := true, pending := if level < 1 then w.pending else w.pending + [level])
    case Completes =>
      if level < 1 || w.executorSleeping then w.(paused := true)
      else w.(paused := true, phase := ClientSuspending(level), replies := map[])
  }

  // ------------------------------------------------------------------
  // Waking
  // ------------------------------------------------------------------

  /** The executor's wake-up has returned; the scheduler is resumed unless something still sleeps. */
  function AfterWakeUp(w: World, waker: Waker, resume: Resume): World {
    if !w.executorSleeping && resume.Raises? then
      if waker.Request? then w.(phase := Crashed, state := SLEEPING) else w.(phase := Free)
    else
      w.(phase := Free, paused := w.paused && (w.executorSleeping || resume.Ignored?),
         state := if waker.Request? then ACTIVE else w.state)
  }

  function WithoutScheduling(tags: seq<string>): seq<string> {
    if tags == [] then []
    else (if tags[0] == SCHEDULING then [] else [tags[0]]) + WithoutScheduling(tags[1..])
  }

  function Asked(tags: Option<seq<string>>): Option<seq<string>> {
    if tags.Some? && SCHEDULING in tags.value then Some(WithoutScheduling(tags.value)) else tags
  }

  /** The executor returns early when it does not sleep, or when a tag does not. */
  predicate ReturnsEarly(executorSleeping: bool, sleepingTags: set<string>, tags: Option<seq<string>>) {
    !executorSleeping || (tags.Some? && exists tag <- tags.value :: tag !in sleepingTags)
  }

  /** `EngineCore.wake_up`. */
  function StartWakeUp(w: World, waker: Waker, tags: Option<seq<string>>, resume: Resume): World {
    var asked := Asked(tags);
    var w := if waker.Request? then w.(state := WAKING) else w;
    if asked == Some([]) || ReturnsEarly(w.executorSleeping, w.sleepingTags, asked)
    then AfterWakeUp(w, waker, resume)
    else w.(phase := Waking(waker, asked), replies := map[])
  }

  function LeftAsleep(w: World, tags: Option<seq<string>>): set<string> {
    if tags.None? then {} else w.sleepingTags - set tag | tag in tags.value
  }

  // ------------------------------------------------------------------
  // Steps
  // ------------------------------------------------------------------

  /**
    The current call returns. Preparation and cancellation report errors as data and return once every
    rank has answered; the other calls return only if no rank raised.
   */
  function Returned(w: World, resume: Resume): World {
    match w.phase
    case Preparing =>
      if !AllReplied(|w.ranks|, w.replies) then w
      else if w.ranks == [] || !AllOk(|w.ranks|, w.replies) then Enter(w, Cancelling, ACTIVE)
      else Enter(w, Pausing, SLEEPING)
    case Cancelling => if AllReplied(|w.ranks|, w.replies) then w.(phase := Free, state := ACTIVE) else w
    case Suspending => if AllOk(|w.ranks|, w.replies) then Slept(w) else w
    case Finishing(_) => if AllOk(|w.ranks|, w.replies) then Slept(w) else w
    case ClientSuspending(_) => if AllOk(|w.ranks|, w.replies) then Slept(w) else w
    case RollingBack =>
      if !AllOk(|w.ranks|, w.replies) then w
      else
        var awake := w.(executorSleeping := false, sleepingTags := {});
        if resume.Raises? then awake.(phase := Crashed, state := SLEEPING)
        else awake.(phase := Free, state := ACTIVE, paused := w.paused && resume.Ignored?)
    case Waking(waker, tags) =>
      if !AllOk(|w.ranks|, w.replies) then w
      else
        var left := LeftAsleep(w, tags);
        AfterWakeUp(w.(sleepingTags := left, executorSleeping := left != {}), waker, resume)
    case _ => w
  }

  /** The current call raises, at any time. The controller does not hear of it when it was deferred or a client's. */
  function RaisedOut(w: World): World {
    match w.phase
    case Preparing => w.(phase := Crashed)
    case Cancelling => w.(phase := Crashed)
    case Suspending => Enter(w, RollingBack, SLEEPING)
    case RollingBack => w.(phase := Crashed, state := SLEEPING)
    case Finishing(_) => w.(phase := Free)
    case ClientSuspending(_) => w.(phase := Free)
    case Waking(waker, _) => if waker.Request? then w.(phase := Crashed, state := SLEEPING) else w.(phase := Free)
    case _ => w
  }

  /** The running model writes device memory that is mapped. */
  function WriteModel(w: World, i: nat, n: nat, bytes: seq<Byte>): World {
    if && w.phase == Free && !w.paused && i < |w.ranks| && i < |w.model|
       && n < |w.ranks[i].allocations| && n < |w.model[i]| && !w.ranks[i].allocations[n].memory.Unmapped?
    then
      var a := w.ranks[i].allocations;
      w.(ranks := w.ranks[i := w.ranks[i].(allocations := a[n := a[n].(memory := Holding(bytes))])],
         model := w.model[i := w.model[i][n := bytes]])
    else w
  }

  /** One step; a step that is not possible in `w` changes nothing. */
  function Next(w: World, s: Step): World {
    match s
    case ModelWrites(i, n, bytes) => WriteModel(w, i, n, bytes)
    case BeginSleep =>
      if w.phase == Free && w.state == ACTIVE && !IsSleeping(w) then Enter(w, Preparing, ACTIVE) else w
    case PauseCompletes => if w.phase == Pausing then Paused(w, s) else w
    case PauseDefers => if w.phase == Pausing then Paused(w, s) else w
    case PauseRaises(_) => if w.phase == Pausing then Paused(w, s) else w
    case PauseFinishes(raises) => FinishPause(w, raises)
    case RequestArrives(resume) =>
      if w.phase != Free then w
      else if IsSleeping(w) then StartWakeUp(w, Request, None, resume)
      else w.(state := ACTIVE)
    case ClientWakes(tags, resume) => if w.phase == Free then StartWakeUp(w, Client, tags, resume) else w
    case ClientSleeps(level, pause) => if w.phase == Free then ClientSlept(w, level, pause) else w
    case NoticeAwake =>
      if w.phase == Free && w.state == SLEEPING && !IsSleeping(w) then w.(state := ACTIVE) else w
    case RankExecutes(i, fault) => Executed(w, i, fault)
    case CallReturns(resume) => Returned(w, resume)
    case CallRaises => RaisedOut(w)
    case PayloadAltered(i, payload) =>
      if i < |w.ranks| then w.(ranks := w.ranks[i := DiskSleep.Step(w.ranks[i], Corrupt(payload))]) else w
  }

  function Execute(w: World, steps: seq<Step>): World
    decreases |steps|
  {
    if steps == [] then w else Execute(Next(w, steps[0]), steps[1..])
  }

  // ------------------------------------------------------------------
  // The invariant
  // ------------------------------------------------------------------

  /** A rank that is not involved in any sleep. */
  ghost predicate Clean(r: Rank) { r.state == RUNNING && r.snapshot.None? }

  ghost predicate AllClean(ranks: seq<Rank>) { forall i :: 0 <= i < |ranks| ==> Clean(ranks[i]) }

  ghost predicate AllCommitted(ranks: seq<Rank>) { forall i :: 0 <= i < |ranks| ==> ranks[i].snapshot.Some? }

  /** Every allocation of a rank that sleeps has one of these tags. */
  ghost predicate AsleepUnder(r: Rank, tags: set<string>) {
    forall n :: 0 <= n < |r.allocations| && r.allocations[n].isAsleep ==> r.allocations[n].tag in tags
  }

  /** The executor knows the tags of all allocations. */
  ghost predicate TagsKnown(r: Rank) {
    forall n :: 0 <= n < |r.allocations| ==> r.allocations[n].tag in EXECUTOR_TAGS
  }

  /** After a wake-up for these tags, none of them is asleep, and the rank has finished unless others are. */
  ghost predicate Woken(r: Rank, tags: Option<seq<string>>) {
    && (Clean(r) || AnyAsleep(r.allocations))
    && forall n :: 0 <= n < |r.allocations| && r.allocations[n].isAsleep ==>
         tags.Some? && r.allocations[n].tag !in tags.value
  }

  ghost predicate Matched(w: World) {
    && |w.ranks| == |w.model|
    && forall i :: 0 <= i < |w.ranks| ==> Inv(w.ranks[i], w.model[i]) && TagsKnown(w.ranks[i])
  }

  /** What one rank looks like in a phase, given its reply so far. */
  ghost predicate RankInPhase(w: World, r: Rank, reply: Option<bool>) {
    match w.phase
    case Free => if !w.paused then Clean(r) else w.executorSleeping ==> AsleepUnder(r, w.sleepingTags)
    case Preparing => r.state == RUNNING && (reply == Some(true) <==> r.snapshot.Some?)
    case Cancelling => r.state == RUNNING && (reply.Some? ==> r.snapshot.None?)
    case Pausing => r.state == RUNNING && r.snapshot.Some?
    case Suspending => r.snapshot.Some?
    case Finishing(_) => true
    case ClientSuspending(_) => true
    case RollingBack => (reply == Some(true) ==> Clean(r)) && (!w.paused ==> !AnyAsleep(r.allocations))
    case Waking(_, tags) => AsleepUnder(r, w.sleepingTags) && (reply == Some(true) ==> Woken(r, tags))
    case Crashed => !w.paused ==> !AnyAsleep(r.allocations)
  }

  function ReplyOf(w: World, i: nat): Option<bool> {
    if i in w.replies then Some(w.replies[i]) else None
  }

  /** The scheduler is paused for a suspension that has not succeeded: it is deferred, or has failed unheard. */
  ghost predicate Outstanding(w: World) {
    w.phase == Free && w.paused && !w.executorSleeping && (w.pending != [] || !AllClean(w.ranks))
  }

  /** What the flags are in a phase. */
  ghost predicate FlagsInPhase(w: World) {
    match w.phase
    case Free =>
      && w.state != WAKING
      && (if w.paused then w.executorSleeping ==> w.sleepingTags != {} else !w.executorSleeping && w.pending == [])
    case Preparing => !IsSleeping(w) && w.pending == [] && w.state == ACTIVE
    case Cancelling => !IsSleeping(w) && w.pending == [] && w.state == ACTIVE
    case Pausing => !IsSleeping(w) && w.pending == [] && w.state == SLEEPING
    case Suspending => w.paused && !w.executorSleeping && w.pending == [] && w.state == SLEEPING
    case Finishing(_) => w.paused && !w.executorSleeping && w.state != WAKING
    case ClientSuspending(_) => w.paused && !w.executorSleeping && w.state != WAKING
    case RollingBack => !w.executorSleeping && w.pending == [] && w.state == SLEEPING
    case Waking(waker, tags) =>
      && w.paused && w.executorSleeping && w.sleepingTags != {}
      && (if waker.Request? then w.state == WAKING && tags.None? else w.state != WAKING)
    case Crashed => true
  }

  ghost predicate WorldInv(w: World) {
    && Matched(w)
    && FlagsInPhase(w)
    && (w.phase == Pausing ==> w.ranks != [])
    && forall i :: 0 <= i < |w.ranks| ==> RankInPhase(w, w.ranks[i], ReplyOf(w, i))
  }

  /** Nobody altered a payload. */
  ghost predicate WorldIntact(w: World)
    requires Matched(w)
  {
    forall i :: 0 <= i < |w.ranks| ==> Intact(w.ranks[i], w.model[i])
  }

  /** An engine that has just loaded its model. */
  ghost predicate WorldStarted(w: World) {
    && |w.ranks| == |w.model|
    && w == World(Free, ACTIVE, false, false, {}, [], w.ranks, w.model, map[])
    && forall i :: 0 <= i < |w.ranks| ==> DiskSleep.Started(w.ranks[i], w.model[i]) && TagsKnown(w.ranks[i])
  }

  lemma StartedInv(w: World)
    requires WorldStarted(w)
    ensures WorldInv(w) && WorldIntact(w) && Settled(w) && Prepared(w)
  {
    forall i | 0 <= i < |w.ranks|
      ensures Inv(w.ranks[i], w.model[i]) && Intact(w.ranks[i], w.model[i])
    {
      StartedKeeps(w.ranks[i], w.model[i]);
    }
  }

  /** The step is a wake-up whose `resume_scheduler` would resume. */
  predicate AsksToResume(s: Step) { s == RequestArrives(Resumes) || (s.ClientWakes? && s.resume.Resumes?) }

  /** The wake-up of all tags that sleep returns in this step, and resumes. */
  predicate CompletesWaking(w: World, s: Step) {
    && w.phase.Waking? && s == CallReturns(Resumes) && AllOk(|w.ranks|, w.replies)
    && LeftAsleep(w, w.phase.tags) == {}
  }

  /** The step resumes the scheduler while a suspension is outstanding, or still pending. */
  ghost predicate EarlyWake(w: World, s: Step) {
    (Outstanding(w) && AsksToResume(s)) || (CompletesWaking(w, s) && w.pending != [])
  }

  lemma LayoutKeepsTags(a: seq<Allocation>, b: seq<Allocation>)
    requires SameLayout(a, b)
    ensures (forall n :: 0 <= n < |a| ==> a[n].tag in EXECUTOR_TAGS)
            ==> forall n :: 0 <= n < |b| ==> b[n].tag in EXECUTOR_TAGS
  {
  }

  lemma PrepareCallKeeps(w: World, r: Rank, fault: Fault, model: Contents)
    requires Inv(r, model) && TagsKnown(r) && RankInPhase(w, r, None) && w.phase.Preparing?
    ensures var (r', ok) := Call(PREPARE, r, fault);
            && Inv(r', model) && TagsKnown(r') && RankInPhase(w, r', Some(ok))
            && (Intact(r, model) ==> Intact(r', model))
  {
    PrepareKeeps(r, fault, model);
  }

  lemma SuspendCallKeeps(r: Rank, level: int, fault: Fault, model: Contents)
    requires Inv(r, model) && TagsKnown(r)
    ensures var (r', ok) := Call(SLEEP(level), r, fault);
            && Inv(r', model) && TagsKnown(r') && (r.snapshot.Some? ==> r'.snapshot.Some?)
            && (Intact(r, model) ==> Intact(r', model))
  {
    SuspendKeeps(r, level, fault, model);
    LayoutKeepsTags(r.allocations, AfterSuspend(r, level, fault).0.allocations);
  }

  // A wake-up that returns leaves nothing asleep under its tags.
  lemma ResumeFinishes(r: Rank, tags: Option<seq<string>>, fault: Fault)
    requires (r.state != RUNNING ==> r.snapshot.Some?) && (r.state == RUNNING ==> !AnyAsleep(r.allocations))
    requires AfterResume(r, tags, fault).1
    ensures Woken(AfterResume(r, tags, fault).0, tags)
  {
    var r' := AfterResume(r, tags, fault).0;
    assert forall n :: 0 <= n < |r'.allocations| ==> r'.allocations[n] in r'.allocations;
    if r.snapshot.Some? {
      MapWakesTags(r.allocations, 0, r.snapshot.value, tags, fault);
    }
  }

  // What a wake-up for some tags leaves asleep.
  lemma ResumeWakes(r: Rank, tags: Option<seq<string>>, fault: Fault, model: Contents, sleeping: set<string>)
    requires Inv(r, model) && TagsKnown(r)
    ensures var (r', ok) := AfterResume(r, tags, fault);
            && Inv(r', model) && TagsKnown(r')
            && (Intact(r, model) ==> Intact(r', model))
            && (ok ==> Woken(r', tags))
            && (AsleepUnder(r, sleeping) ==> AsleepUnder(r', sleeping))
            && (!AnyAsleep(r.allocations) ==> !AnyAsleep(r'.allocations))
  {
    ResumeKeeps(r, tags, fault, model);
    var (r', ok) := AfterResume(r, tags, fault);
    LayoutKeepsTags(r.allocations, r'.allocations);
    assert forall n :: 0 <= n < |r.allocations| ==> r.allocations[n] in r.allocations;
    assert forall n :: 0 <= n < |r'.allocations| ==> r'.allocations[n] in r'.allocations;
    if ok {
      ResumeFinishes(r, tags, fault);
    }
  }

  lemma {:induction false} MapWakesTags(a: seq<Allocation>, n: nat, s: Snapshot, tags: Option<seq<string>>,
                                        fault: Fault)
    requires n <= |a| && MapFrom(a, n, s, tags, fault).1
    requires forall i :: 0 <= i < n && a[i].isAsleep ==> tags.Some? && a[i].tag !in tags.value
    ensures var b := MapFrom(a, n, s, tags, fault).0;
            forall i :: 0 <= i < |b| && b[i].isAsleep ==> tags.Some? && b[i].tag !in tags.value
    decreases |a| - n
  {
    if n < |a| {
      if Skipped(a[n], tags) {
        MapWakesTags(a, n + 1, s, tags, fault);
      } else {
        MapWakesTags(a[n := a[n].(memory := Refill(s, a[n].ptr).value, isAsleep := false)], n + 1, s, tags, fault);
      }
    }
  }

  lemma WakeCallKeeps(w: World, r: Rank, fault: Fault, model: Contents)
    requires Inv(r, model) && TagsKnown(r) && RankInPhase(w, r, None) && (w.phase.RollingBack? || w.phase.Waking?)
    ensures var (r', ok) := Call(MethodOf(w.phase), r, fault);
            && Inv(r', model) && TagsKnown(r') && RankInPhase(w, r', Some(ok))
            && (Intact(r, model) ==> Intact(r', model))
  {
    var tags := if w.phase.Waking? then w.phase.tags else None;
    ResumeWakes(r, tags, fault, model, w.sleepingTags);
    var r' := AfterResume(r, tags, fault).0;
    assert forall n :: 0 <= n < |r'.allocations| ==> r'.allocations[n] in r'.allocations;
  }

  lemma CallKeeps(w: World, r: Rank, fault: Fault, model: Contents)
    requires IsRpc(w.phase) && Inv(r, model) && TagsKnown(r) && RankInPhase(w, r, None)
    ensures var (r', ok) := Call(MethodOf(w.phase), r, fault);
            && Inv(r', model) && TagsKnown(r') && RankInPhase(w, r', Some(ok))
            && (Intact(r, model) ==> Intact(r', model))
  {
    match w.phase
    case Preparing => PrepareCallKeeps(w, r, fault, model);
    case Cancelling =>
    case Suspending => SuspendCallKeeps(r, 1, fault, model);
    case Finishing(level) => SuspendCallKeeps(r, level, fault, model);
    case ClientSuspending(level) => SuspendCallKeeps(r, level, fault, model);
    case _ => WakeCallKeeps(w, r, fault, model);
  }

  predicate SameFlags(w: World, w': World) {
    && w'.phase == w.phase && w'.state == w.state && w'.paused == w.paused
    && w'.executorSleeping == w.executorSleeping && w'.sleepingTags == w.sleepingTags
    && w'.pending == w.pending
  }

  // A step that touches one rank keeps the invariant if that rank fits the phase.
  lemma OneRankKeeps(w: World, w': World, i: nat)
    requires WorldInv(w) && SameFlags(w, w') && i < |w.ranks| == |w'.ranks| == |w'.model|
    requires forall j :: 0 <= j < |w.ranks| && j != i ==>
               w'.ranks[j] == w.ranks[j] && w'.model[j] == w.model[j] && ReplyOf(w', j) == ReplyOf(w, j)
    requires Inv(w'.ranks[i], w'.model[i]) && TagsKnown(w'.ranks[i])
    requires RankInPhase(w', w'.ranks[i], ReplyOf(w', i)) && FlagsInPhase(w')
    ensures WorldInv(w')
    ensures WorldIntact(w) && Intact(w'.ranks[i], w'.model[i]) ==> WorldIntact(w')
  {
    forall j | 0 <= j < |w'.ranks|
      ensures RankInPhase(w', w'.ranks[j], ReplyOf(w', j))
    {
      if j != i {
        assert RankInPhase(w, w.ranks[j], ReplyOf(w, j));
      }
    }
  }

  lemma ExecuteStepKeeps(w: World, i: nat, fault: Fault)
    requires WorldInv(w)
    ensures WorldInv(Executed(w, i, fault))
    ensures WorldIntact(w) ==> WorldIntact(Executed(w, i, fault))
  {
    if IsRpc(w.phase) && i < |w.ranks| && i !in w.replies {
      assert RankInPhase(w, w.ranks[i], ReplyOf(w, i));
      CallKeeps(w, w.ranks[i], fault, w.model[i]);
      OneRankKeeps(w, Executed(w, i, fault), i);
    }
  }

  // A step that leaves ranks and model alone keeps the invariant if each rank fits the new phase.
  lemma SameRanksKeep(w: World, w': World)
    requires WorldInv(w) && w'.ranks == w.ranks && w'.model == w.model && FlagsInPhase(w')
    requires w'.phase == Pausing ==> w.ranks != []
    requires forall i :: 0 <= i < |w.ranks| && RankInPhase(w, w.ranks[i], ReplyOf(w, i))
               ==> RankInPhase(w', w.ranks[i], ReplyOf(w', i))
    ensures WorldInv(w')
    ensures WorldIntact(w) ==> WorldIntact(w')
  {
  }

  lemma RepliesOk(w: World, i: nat)
    requires AllOk(|w.ranks|, w.replies) && i < |w.ranks|
    ensures ReplyOf(w, i) == Some(true)
  {
  }

  lemma PhasesAgree(w: World)
    requires WorldInv(w)
    ensures forall i :: 0 <= i < |w.ranks| ==> RankInPhase(w, w.ranks[i], ReplyOf(w, i))
  {
  }

  lemma PrepareReturnKeeps(w: World, resume: Resume)
    requires WorldInv(w) && (w.phase.Preparing? || w.phase.Cancelling?)
    ensures WorldInv(Returned(w, resume))
    ensures WorldIntact(w) ==> WorldIntact(Returned(w, resume))
  {
    var w' := Returned(w, resume);
    if w' != w {
      SameRanksKeep(w, w');
    }
  }

  lemma SuspendReturnKeeps(w: World, resume: Resume)
    requires WorldInv(w) && (w.phase.Suspending? || w.phase.Finishing? || w.phase.ClientSuspending?)
    ensures WorldInv(Returned(w, resume))
    ensures WorldIntact(w) ==> WorldIntact(Returned(w, resume))
  {
    var w' := Returned(w, resume);
    if w' != w {
      assert "weights" in w'.sleepingTags;
      assert forall i :: 0 <= i < |w.ranks| ==> TagsKnown(w.ranks[i]);
      SameRanksKeep(w, w');
    }
  }

  lemma RollBackReturnCleans(w: World, resume: Resume)
    requires WorldInv(w) && w.phase.RollingBack?
    ensures Returned(w, resume) != w ==> AllClean(w.ranks)
  {
    if Returned(w, resume) != w {
      forall i | 0 <= i < |w.ranks|
        ensures Clean(w.ranks[i])
      {
        RepliesOk(w, i);
        assert RankInPhase(w, w.ranks[i], ReplyOf(w, i));
      }
    }
  }

  lemma RollBackReturnKeeps(w: World, resume: Resume)
    requires WorldInv(w) && w.phase.RollingBack?
    ensures WorldInv(Returned(w, resume))
    ensures WorldIntact(w) ==> WorldIntact(Returned(w, resume))
  {
    var w' := Returned(w, resume);
    if w' != w {
      RollBackReturnCleans(w, resume);
      SameRanksKeep(w, w');
    }
  }

  lemma WakeReturnKeeps(w: World, resume: Resume)
    requires WorldInv(w) && w.phase.Waking? && !EarlyWake(w, CallReturns(resume))
    ensures var w' := Returned(w, resume); w' == w || w'.executorSleeping || AllClean(w'.ranks)
    ensures WorldInv(Returned(w, resume))
    ensures WorldIntact(w) ==> WorldIntact(Returned(w, resume))
  {
    var w' := Returned(w, resume);
    if w' != w {
      var left := LeftAsleep(w, w.phase.tags);
      forall i | 0 <= i < |w.ranks|
        ensures AsleepUnder(w.ranks[i], left)
        ensures left == {} ==> Clean(w.ranks[i])
      {
        RepliesOk(w, i);
        assert RankInPhase(w, w.ranks[i], ReplyOf(w, i));
        WokenIsUnderLeft(w, w.ranks[i]);
      }
      SameRanksKeep(w, w');
    }
  }

  lemma WokenIsUnderLeft(w: World, r: Rank)
    requires w.phase.Waking? && AsleepUnder(r, w.sleepingTags) && Woken(r, w.phase.tags)
    ensures AsleepUnder(r, LeftAsleep(w, w.phase.tags))
    ensures LeftAsleep(w, w.phase.tags) == {} ==> Clean(r)
  {
    if AnyAsleep(r.allocations) {
      var a :| a in r.allocations && a.isAsleep;
      var n :| 0 <= n < |r.allocations| && r.allocations[n] == a;
      assert a.tag in LeftAsleep(w, w.phase.tags);
    }
  }

  lemma ReturnStepKeeps(w: World, resume: Resume)
    requires WorldInv(w) && !EarlyWake(w, CallReturns(resume))
    ensures WorldInv(Returned(w, resume))
    ensures WorldIntact(w) ==> WorldIntact(Returned(w, resume))
  {
    match w.phase
    case Preparing => PrepareReturnKeeps(w, resume);
    case Cancelling => PrepareReturnKeeps(w, resume);
    case Suspending => SuspendReturnKeeps(w, resume);
    case Finishing(_) => SuspendReturnKeeps(w, resume);
    case ClientSuspending(_) => SuspendReturnKeeps(w, resume);
    case RollingBack => RollBackReturnKeeps(w, resume);
    case Waking(_, _) => WakeReturnKeeps(w, resume);
    case _ =>
  }

  lemma RaiseStepKeeps(w: World)
    requires WorldInv(w)
    ensures WorldInv(RaisedOut(w))
    ensures WorldIntact(w) ==> WorldIntact(RaisedOut(w))
  {
    var w' := RaisedOut(w);
    if w' != w {
      PhasesAgree(w);
      SameRanksKeep(w, w');
    }
  }

  lemma PauseStepKeeps(w: World, s: Step)
    requires WorldInv(w) && w.phase == Pausing
    ensures WorldInv(Paused(w, s))
    ensures WorldIntact(w) ==> WorldIntact(Paused(w, s))
  {
    var w' := Paused(w, s);
    if w' != w {
      PhasesAgree(w);
      SameRanksKeep(w, w');
    }
  }

  lemma WakeStepKeeps(w: World, s: Step)
    requires WorldInv(w) && w.phase == Free && !EarlyWake(w, s) && (s.RequestArrives? || s.ClientWakes?)
    ensures WorldInv(Next(w, s))
    ensures WorldIntact(w) ==> WorldIntact(Next(w, s))
  {
    var w' := Next(w, s);
    if w' != w {
      PhasesAgree(w);
      SameRanksKeep(w, w');
    }
  }

  lemma FreeStepKeeps(w: World, s: Step)
    requires WorldInv(w) && w.phase == Free && (s.PauseFinishes? || s.NoticeAwake? || s.BeginSleep? || s.ClientSleeps?)
    ensures WorldInv(Next(w, s))
    ensures WorldIntact(w) ==> WorldIntact(Next(w, s))
  {
    var w' := Next(w, s);
    if w' != w {
      PhasesAgree(w);
      SameRanksKeep(w, w');
    }
  }

  lemma WriteKeeps(r: Rank, model: Contents, n: nat, bytes: seq<Byte>)
    requires Inv(r, model) && Clean(r) && TagsKnown(r) && n < |model|
    ensures var a := r.allocations;
            var r' := r.(allocations := a[n := a[n].(memory := Holding(bytes))]);
            Inv(r', model[n := bytes]) && Clean(r') && TagsKnown(r')
  {
    var a := r.allocations;
    var r' := r.(allocations := a[n := a[n].(memory := Holding(bytes))]);
    assert forall k :: 0 <= k < |a| ==> a[k] in a;
    assert !AnyAsleep(r'.allocations);
  }

  lemma WriteStepKeeps(w: World, i: nat, n: nat, bytes: seq<Byte>)
    requires WorldInv(w)
    ensures WorldInv(WriteModel(w, i, n, bytes))
    ensures WorldIntact(w) ==> WorldIntact(WriteModel(w, i, n, bytes))
  {
    var w' := WriteModel(w, i, n, bytes);
    if w' != w {
      assert RankInPhase(w, w.ranks[i], ReplyOf(w, i));
      WriteKeeps(w.ranks[i], w.model[i], n, bytes);
      OneRankKeeps(w, w', i);
    }
  }

  lemma AlterStepKeeps(w: World, i: nat, payload: seq<Byte>)
    requires WorldInv(w)
    ensures WorldInv(Next(w, PayloadAltered(i, payload)))
  {
    if i < |w.ranks| {
      StepKeeps(w.ranks[i], Corrupt(payload), w.model[i]);
      AlteredFits(w, Next(w, PayloadAltered(i, payload)), i);
    }
  }

  lemma AlteredFits(w: World, w': World, i: nat)
    requires WorldInv(w) && SameFlags(w, w') && i < |w.ranks|
    requires |w'.ranks| == |w.ranks| && w'.model == w.model && w'.replies == w.replies
    requires forall j :: 0 <= j < |w.ranks| && j != i ==> w'.ranks[j] == w.ranks[j]
    requires Inv(w'.ranks[i], w'.model[i])
    requires var r, r' := w.ranks[i], w'.ranks[i];
             r'.allocations == r.allocations && r'.state == r.state && (r'.snapshot.Some? <==> r.snapshot.Some?)
    ensures WorldInv(w')
  {
    assert RankInPhase(w, w.ranks[i], ReplyOf(w, i));
    OneRankKeeps(w, w', i);
  }

  /** Steps of the main thread between its calls, or in a pause. */
  predicate IsMainStep(s: Step) {
    !s.ModelWrites? && !s.RankExecutes? && !s.CallReturns? && !s.CallRaises? && !s.PayloadAltered?
  }

  lemma MainStepKeeps(w: World, s: Step)
    requires WorldInv(w) && !EarlyWake(w, s) && IsMainStep(s)
    ensures WorldInv(Next(w, s))
    ensures WorldIntact(w) ==> WorldIntact(Next(w, s))
  {
    if w.phase == Pausing && (s.PauseCompletes? || s.PauseDefers? || s.PauseRaises?) {
      PauseStepKeeps(w, s);
    } else if w.phase == Free && (s.RequestArrives? || s.ClientWakes?) {
      WakeStepKeeps(w, s);
    } else if w.phase == Free && (s.PauseFinishes? || s.NoticeAwake? || s.BeginSleep? || s.ClientSleeps?) {
      FreeStepKeeps(w, s);
    }
  }

  // Every step but an early wake keeps the invariant.
  lemma NextKeeps(w: World, s: Step)
    requires WorldInv(w) && !EarlyWake(w, s)
    ensures WorldInv(Next(w, s))
    ensures WorldIntact(w) && !s.PayloadAltered? ==> WorldIntact(Next(w, s))
  {
    match s
    case ModelWrites(i, n, bytes) => WriteStepKeeps(w, i, n, bytes);
    case RankExecutes(i, fault) => ExecuteStepKeeps(w, i, fault);
    case CallReturns(resume) => ReturnStepKeeps(w, resume);
    case CallRaises => RaiseStepKeeps(w);
    case PayloadAltered(i, payload) => AlterStepKeeps(w, i, payload);
    case _ => MainStepKeeps(w, s);
  }

  // ------------------------------------------------------------------
  // Ranks agree whenever the scheduler runs
  // ------------------------------------------------------------------

  /** Every allocation of every rank is mapped, and the model's are as the model left them. */
  ghost predicate Resident(w: World) {
    && |w.ranks| == |w.model|
    && forall i :: 0 <= i < |w.ranks| ==>
         AllLive(w.ranks[i].allocations, w.model[i]) && !AnyAsleep(w.ranks[i].allocations)
  }

  /**
    An unpaused scheduler has all memory, and in the main loop every rank is RUNNING and holds no snapshot, and
    no suspension is pending: a snapshot that is left behind would be reused by the next preparation, when the
    memory has changed since, and a callback that is left behind would unmap memory in use.
   */
  ghost predicate Agrees(w: World) {
    !w.paused ==> Resident(w) && (w.phase == Free ==> AllClean(w.ranks) && w.pending == [])
  }

  lemma InvAgrees(w: World)
    requires WorldInv(w)
    ensures Agrees(w)
  {
    PhasesAgree(w);
  }

  lemma ResumedEarly(w: World, s: Step)
    requires Outstanding(w) && AsksToResume(s)
    ensures Next(w, s) == w.(paused := false, state := if s.RequestArrives? then ACTIVE else w.state)
  {
  }

  // An early wake always breaks it: the scheduler runs, and some rank is not back, or will be suspended.
  lemma EarlyWakeDisagrees(w: World, s: Step)
    requires WorldInv(w) && EarlyWake(w, s)
    ensures !Agrees(Next(w, s))
  {
    if Outstanding(w) && AsksToResume(s) {
      ResumedEarly(w, s);
    }
  }

  ghost predicate AgreesThroughout(w: World, steps: seq<Step>)
    decreases |steps|
  {
    Agrees(w) && (steps != [] ==> AgreesThroughout(Next(w, steps[0]), steps[1..]))
  }

  ghost predicate NeverEarly(w: World, steps: seq<Step>)
    decreases |steps|
  {
    steps != [] ==> !EarlyWake(w, steps[0]) && NeverEarly(Next(w, steps[0]), steps[1..])
  }

  lemma {:induction false} ExecuteKeeps(w: World, steps: seq<Step>)
    requires WorldInv(w) && NeverEarly(w, steps)
    ensures WorldInv(Execute(w, steps))
    ensures WorldIntact(w) && (forall s <- steps :: !s.PayloadAltered?) ==> WorldIntact(Execute(w, steps))
    decreases |steps|
  {
    if steps != [] {
      assert steps == [steps[0]] + steps[1..];
      NextKeeps(w, steps[0]);
      ExecuteKeeps(Next(w, steps[0]), steps[1..]);
    }
  }

  // In every run, with any faults anywhere and whatever clients do, ranks agree throughout if and only if no wake-up,
  // by a request or by a client, ever resumes while a suspension is outstanding: deferred and not begun, or failed
  // unheard.
  lemma {:induction false} RanksAgreeIff(w: World, steps: seq<Step>)
    requires WorldInv(w)
    ensures AgreesThroughout(w, steps) <==> NeverEarly(w, steps)
    decreases |steps|
  {
    InvAgrees(w);
    if steps != [] {
      if EarlyWake(w, steps[0]) {
        EarlyWakeDisagrees(w, steps[0]);
      } else {
        NextKeeps(w, steps[0]);
        RanksAgreeIff(Next(w, steps[0]), steps[1..]);
      }
    }
  }

  /** The controller's sleeps are not deferred, and clients do not put the engine to sleep themselves. */
  ghost predicate PromptAndUnmixed(steps: seq<Step>) { forall s <- steps :: !s.PauseDefers? && !s.ClientSleeps? }

  /** No suspension is deferred or outstanding. */
  ghost predicate Settled(w: World) {
    w.pending == [] && !w.phase.Finishing? && !w.phase.ClientSuspending? && !Outstanding(w)
  }

  lemma SettledStays(w: World, s: Step)
    requires WorldInv(w) && Settled(w) && !s.PauseDefers? && !s.ClientSleeps?
    ensures !EarlyWake(w, s) && Settled(Next(w, s))
  {
    if s.CallReturns? && w.phase.Waking? {
      WakeReturnKeeps(w, s.resume);
    } else if s.CallReturns? && w.phase.RollingBack? {
      RollBackReturnCleans(w, s.resume);
    }
  }

  // So as long as every pause completes in its call and no client puts the engine to sleep, ranks agree in every run.
  lemma {:induction false} RanksAgreeWithoutDeferral(w: World, steps: seq<Step>)
    requires WorldInv(w) && Settled(w) && PromptAndUnmixed(steps)
    ensures NeverEarly(w, steps) && AgreesThroughout(w, steps)
    decreases |steps|
  {
    InvAgrees(w);
    if steps != [] {
      assert steps == [steps[0]] + steps[1..];
      SettledStays(w, steps[0]);
      NextKeeps(w, steps[0]);
      RanksAgreeWithoutDeferral(Next(w, steps[0]), steps[1..]);
    }
  }

  // What `_pause_complete()` returns decides: when every rank has prepared and the pause completes, ranks agree in
  // every continuation that defers no other pause; when it is deferred, they do not.
  lemma PauseDecidesIff(w: World, complete: bool)
    requires WorldInv(w) && w.phase == Pausing
    ensures (forall steps | PromptAndUnmixed(steps) ::
               AgreesThroughout(Next(w, if complete then PauseCompletes else PauseDefers), steps)) <==> complete
  {
    if complete {
      PauseStepKeeps(w, PauseCompletes);
      forall steps | PromptAndUnmixed(steps)
        ensures AgreesThroughout(Next(w, PauseCompletes), steps)
      {
        RanksAgreeWithoutDeferral(Next(w, PauseCompletes), steps);
      }
    } else {
      PauseStepKeeps(w, PauseDefers);
      var deferred, next := Next(w, PauseDefers), [RequestArrives(Resumes)];
      assert EarlyWake(deferred, next[0]);
      RanksAgreeIff(deferred, next);
      assert PromptAndUnmixed(next);
    }
  }

  // ------------------------------------------------------------------
  // Nothing is unmapped before every rank has committed
  // ------------------------------------------------------------------

  /** Every suspension that is pending or under way was prepared on every rank. */
  ghost predicate Prepared(w: World) {
    match w.phase
    case Free => w.pending != [] ==> w.paused && !w.executorSleeping && |w.pending| == 1 && AllCommitted(w.ranks)
    case Finishing(_) => w.pending == [] && AllCommitted(w.ranks)
    case ClientSuspending(_) => false
    case Crashed => true
    case _ => w.pending == []
  }

  lemma RankStepPrepared(w: World, i: nat, fault: Fault)
    requires WorldInv(w) && Prepared(w)
    ensures Prepared(Executed(w, i, fault))
  {
    if w.phase.Finishing? && i < |w.ranks| && i !in w.replies {
      SuspendCallKeeps(w.ranks[i], w.phase.level, fault, w.model[i]);
    }
  }

  lemma PauseStepPrepared(w: World, s: Step)
    requires WorldInv(w) && Prepared(w) && w.phase == Pausing
    ensures Prepared(Paused(w, s))
  {
    PhasesAgree(w);
  }

  lemma EndingPrepared(w: World, resume: Resume)
    requires WorldInv(w) && Prepared(w)
    ensures Prepared(Returned(w, resume)) && Prepared(RaisedOut(w))
  {
  }

  lemma WakingPrepared(w: World, s: Step)
    requires WorldInv(w) && Prepared(w) && !EarlyWake(w, s) && w.phase == Free
    requires s.RequestArrives? || s.ClientWakes?
    ensures Prepared(Next(w, s))
  {
  }

  lemma AlteredPrepared(w: World, i: nat, payload: seq<Byte>)
    requires Prepared(w)
    ensures Prepared(Next(w, PayloadAltered(i, payload)))
  {
  }

  lemma OtherPrepared(w: World, s: Step)
    requires WorldInv(w) && Prepared(w)
    requires s.ModelWrites? || s.BeginSleep? || s.NoticeAwake? || s.PauseFinishes? || s.PauseRaises?
    ensures Prepared(Next(w, s))
  {
  }

  // A client's own sleep is the only step that can suspend what was not prepared.
  lemma PreparedStays(w: World, s: Step)
    requires WorldInv(w) && Prepared(w) && !EarlyWake(w, s) && !s.ClientSleeps?
    ensures Prepared(Next(w, s))
  {
    match s
    case RankExecutes(i, fault) => RankStepPrepared(w, i, fault);
    case PauseCompletes =>
      if w.phase == Pausing {
        PauseStepPrepared(w, s);
      }
    case PauseDefers =>
      if w.phase == Pausing {
        PauseStepPrepared(w, s);
      }
    case CallReturns(resume) => EndingPrepared(w, resume);
    case CallRaises => EndingPrepared(w, Resumes);
    case RequestArrives(_) =>
      if w.phase == Free {
        WakingPrepared(w, s);
      }
    case ClientWakes(_, _) =>
      if w.phase == Free {
        WakingPrepared(w, s);
      }
    case PayloadAltered(i, payload) => AlteredPrepared(w, i, payload);
    case _ => OtherPrepared(w, s);
  }

  lemma {:induction false} PreparedThroughout(w: World, steps: seq<Step>)
    requires WorldInv(w) && Prepared(w) && NeverEarly(w, steps) && forall s <- steps :: !s.ClientSleeps?
    ensures WorldInv(Execute(w, steps)) && Prepared(Execute(w, steps))
    decreases |steps|
  {
    if steps != [] {
      assert steps == [steps[0]] + steps[1..];
      NextKeeps(w, steps[0]);
      PreparedStays(w, steps[0]);
      PreparedThroughout(Next(w, steps[0]), steps[1..]);
    }
  }

  // In every run in which no client puts the engine to sleep itself and no wake-up comes early: nothing is unmapped
  // anywhere before every rank has committed a snapshot of what the model holds now, and the scheduler is paused.
  lemma UnmapOnlyAfterCommit(start: World, steps: seq<Step>, s: Step, i: nat, n: nat)
    requires WorldInv(start) && Prepared(start) && NeverEarly(start, steps) && forall s <- steps :: !s.ClientSleeps?
    requires var w := Execute(start, steps);
             var w' := Next(w, s);
             && i < |w.ranks| && n < |w.ranks[i].allocations| && !w.ranks[i].allocations[n].isAsleep
             && i < |w'.ranks| && n < |w'.ranks[i].allocations| && w'.ranks[i].allocations[n].isAsleep
    ensures var w := Execute(start, steps);
            && (w.phase.Suspending? || w.phase.Finishing?) && w.paused
            && |w.ranks| == |w.model|
            && forall j :: 0 <= j < |w.ranks| ==>
                 && w.ranks[j].snapshot.Some? && |w.ranks[j].allocations| == |w.model[j]|
                 && Describes(w.ranks[j].snapshot.value, w.ranks[j].allocations, w.model[j])
  {
    PreparedThroughout(start, steps);
    var w := Execute(start, steps);
    OnlySuspensionUnmaps(w, s, i, n);
    PhasesAgree(w);
  }

  lemma OnlySuspensionUnmaps(w: World, s: Step, i: nat, n: nat)
    requires WorldInv(w)
    requires i < |w.ranks| && n < |w.ranks[i].allocations| && !w.ranks[i].allocations[n].isAsleep
    requires i < |Next(w, s).ranks| && n < |Next(w, s).ranks[i].allocations|
    requires Next(w, s).ranks[i].allocations[n].isAsleep
    ensures w.phase.Suspending? || w.phase.Finishing? || w.phase.ClientSuspending?
  {
    match s
    case RankExecutes(k, fault) =>
      if k == i && IsRpc(w.phase) && k !in w.replies {
        OnlySleepUnmaps(w.ranks[i], MethodOf(w.phase), fault, w.model[i], n);
      }
    case _ => SameMemory(w, s, i);
  }

  predicate SameAsleep(a: seq<Allocation>, b: seq<Allocation>) {
    |a| == |b| && forall n :: 0 <= n < |a| ==> b[n].isAsleep == a[n].isAsleep
  }

  lemma EndingKeepsRanks(w: World, resume: Resume)
    ensures Returned(w, resume).ranks == w.ranks && Returned(w, resume).model == w.model
    ensures RaisedOut(w).ranks == w.ranks && RaisedOut(w).model == w.model
  {
  }

  lemma WriteLeavesAsleep(w: World, i: nat, n: nat, bytes: seq<Byte>, j: nat)
    requires j < |w.ranks|
    ensures |WriteModel(w, i, n, bytes).ranks| == |w.ranks|
    ensures SameAsleep(w.ranks[j].allocations, WriteModel(w, i, n, bytes).ranks[j].allocations)
  {
  }

  lemma WakeStartKeepsRanks(w: World, waker: Waker, tags: Option<seq<string>>, resume: Resume)
    ensures StartWakeUp(w, waker, tags, resume).ranks == w.ranks
  {
  }

  lemma ControlKeepsRanks(w: World, s: Step)
    requires !s.RankExecutes? && !s.ModelWrites? && !s.PayloadAltered?
    ensures Next(w, s).ranks == w.ranks
  {
    match s
    case CallReturns(resume) => EndingKeepsRanks(w, resume);
    case CallRaises => EndingKeepsRanks(w, Resumes);
    case RequestArrives(resume) => WakeStartKeepsRanks(w, Request, None, resume);
    case ClientWakes(tags, resume) => WakeStartKeepsRanks(w, Client, tags, resume);
    case _ =>
  }

  // A step that is not executed by a rank leaves what is asleep alone.
  lemma SameMemory(w: World, s: Step, i: nat)
    requires !s.RankExecutes? && i < |w.ranks|
    ensures |Next(w, s).ranks| == |w.ranks|
    ensures SameAsleep(w.ranks[i].allocations, Next(w, s).ranks[i].allocations)
  {
    match s
    case ModelWrites(k, n, bytes) => WriteLeavesAsleep(w, k, n, bytes, i);
    case PayloadAltered(k, payload) =>
    case _ => ControlKeepsRanks(w, s);
  }

  lemma OnlySleepUnmaps(r: Rank, m: RankMethod, fault: Fault, model: Contents, n: nat)
    requires Inv(r, model) && n < |r.allocations| && !r.allocations[n].isAsleep
    ensures |Call(m, r, fault).0.allocations| == |r.allocations|
    ensures Call(m, r, fault).0.allocations[n].isAsleep ==> m.SLEEP?
  {
    match m
    case PREPARE => PrepareKeeps(r, fault, model);
    case CANCEL =>
    case SLEEP(level) => SuspendKeeps(r, level, fault, model);
    case WAKE_UP(tags) => ResumeKeeps(r, tags, fault, model);
  }

  // ------------------------------------------------------------------
  // A callback that outlives its sleep
  // ------------------------------------------------------------------

  ghost predicate AllUnmapped(r: Rank) {
    forall n :: 0 <= n < |r.allocations| ==> r.allocations[n].isAsleep && r.allocations[n].memory.Unmapped?
  }

  lemma SuspendUnmapsAll(r: Rank, model: Contents)
    requires Inv(r, model) && r.state == RUNNING && r.snapshot.Some?
    ensures AllUnmapped(Call(SLEEP(1), r, NoFault).0)
    ensures |Call(SLEEP(1), r, NoFault).0.allocations| == |r.allocations|
  {
    UnmapCompletes(r.allocations, 0);
    assert forall n :: 0 <= n < |r.allocations| ==> r.allocations[n] in r.allocations;
  }

  lemma ThreeSteps(w: World, a: Step, b: Step, c: Step)
    ensures Execute(w, [a, b, c]) == Next(Next(Next(w, a), b), c)
  {
    assert Execute(w, [a, b, c]) == Execute(Next(w, a), [b, c]);
    assert Execute(Next(w, a), [b, c]) == Execute(Next(Next(w, a), b), [c]);
    assert Execute(Next(Next(w, a), b), [c]) == Execute(Next(Next(Next(w, a), b), c), []);
  }

  // A wake-up that comes before the deferred suspension: its callback is still registered, and later unmaps what
  // the running model uses.
  lemma StaleSuspensionUnmaps(w: World, i: nat)
    requires WorldInv(w) && Outstanding(w) && w.pending == [1]
    requires i < |w.ranks| && w.ranks[i].state == RUNNING && w.ranks[i].snapshot.Some?
    ensures var w' := Execute(w, [RequestArrives(Resumes), PauseFinishes(false), RankExecutes(i, NoFault)]);
            && !w'.paused && w'.state == ACTIVE && |w'.ranks| == |w.ranks|
            && AllUnmapped(w'.ranks[i]) && |w'.ranks[i].allocations| == |w.ranks[i].allocations|
  {
    StaleRun(w, i);
    SuspendUnmapsAll(w.ranks[i], w.model[i]);
  }

  lemma StaleRun(w: World, i: nat)
    requires Outstanding(w) && w.pending == [1] && i < |w.ranks|
    ensures var (r, ok) := Call(SLEEP(1), w.ranks[i], NoFault);
            Execute(w, [RequestArrives(Resumes), PauseFinishes(false), RankExecutes(i, NoFault)])
            == w.(phase := Finishing(1), paused := false, state := ACTIVE, pending := [],
                  ranks := w.ranks[i := r], replies := map[i := ok])
  {
    ThreeSteps(w, RequestArrives(Resumes), PauseFinishes(false), RankExecutes(i, NoFault));
    StaleCallbackRuns(w);
  }

  lemma StaleCallbackRuns(w: World)
    requires Outstanding(w) && w.pending == [1]
    ensures Next(Next(w, RequestArrives(Resumes)), PauseFinishes(false))
            == w.(phase := Finishing(1), paused := false, state := ACTIVE, pending := [], replies := map[])
  {
    ResumedEarly(w, RequestArrives(Resumes));
  }

  // ------------------------------------------------------------------
  // Collective calls
  // ------------------------------------------------------------------

  /** The fault on each rank, and how many ranks the RPC reaches: one that does not reach them all raises. */
  datatype Rpc = Rpc(faults: nat -> Fault, reach: nat)

  /** Ranks i to n execute the current RPC. */
  function Collect(w: World, i: nat, n: nat, rpc: Rpc): World
    requires i <= n
    decreases n - i
  {
    if i == n then w else Collect(Executed(w, i, rpc.faults(i)), i + 1, n, rpc)
  }

  /** `collective_rpc`. */
  function CollectAll(w: World, rpc: Rpc): World { Collect(w, 0, Min(rpc.reach, |w.ranks|), rpc) }

  predicate Lost(w: World, rpc: Rpc) { rpc.reach < |w.ranks| }

  /** The RPC reaches every rank and none of them raises. */
  predicate Succeeds(m: RankMethod, ranks: seq<Rank>, rpc: Rpc) {
    |ranks| <= rpc.reach && forall i :: 0 <= i < |ranks| ==> Call(m, ranks[i], rpc.faults(i)).1
  }

  function CallAll(m: RankMethod, ranks: seq<Rank>, rpc: Rpc): seq<Rank> {
    seq(|ranks|, i requires 0 <= i < |ranks| => Call(m, ranks[i], rpc.faults(i)).0)
  }

  ghost predicate Undisturbed(rpc: Rpc, n: nat) {
    n <= rpc.reach && forall i: nat :: i < n ==> rpc.faults(i) == NoFault
  }

  function RpcSteps(i: nat, n: nat, rpc: Rpc): seq<Step>
    requires i <= n
    decreases n - i
  {
    if i == n then [] else [RankExecutes(i, rpc.faults(i))] + RpcSteps(i + 1, n, rpc)
  }

  lemma {:induction false} CollectIsARun(w: World, i: nat, n: nat, rpc: Rpc)
    requires i <= n
    ensures Execute(w, RpcSteps(i, n, rpc)) == Collect(w, i, n, rpc)
    ensures NeverEarly(w, RpcSteps(i, n, rpc))
    ensures forall s <- RpcSteps(i, n, rpc) :: !s.PayloadAltered?
    decreases n - i
  {
    if i < n {
      var steps := RpcSteps(i, n, rpc);
      assert steps[0] == RankExecutes(i, rpc.faults(i)) && steps[1..] == RpcSteps(i + 1, n, rpc);
      CollectIsARun(Executed(w, i, rpc.faults(i)), i + 1, n, rpc);
    }
  }

  // What an RPC does to the world: the ranks it reaches, in whatever state they are, and nothing else.
  lemma {:induction false} CollectAnswers(w: World, i: nat, n: nat, rpc: Rpc)
    requires IsRpc(w.phase) && i <= n <= |w.ranks| && forall j: nat :: j in w.replies <==> j < i
    ensures var w' := Collect(w, i, n, rpc);
            && w' == w.(ranks := w'.ranks, replies := w'.replies)
            && |w'.ranks| == |w.ranks|
            && (forall j: nat :: j in w'.replies <==> j < n)
            && (forall j: nat :: j < i ==> w'.replies[j] == w.replies[j])
            && (forall j :: 0 <= j < |w.ranks| && !(i <= j < n) ==> w'.ranks[j] == w.ranks[j])
            && (forall j :: i <= j < n ==>
                  (w'.ranks[j], w'.replies[j]) == Call(MethodOf(w.phase), w.ranks[j], rpc.faults(j)))
    decreases n - i
  {
    if i < n {
      CollectAnswers(Executed(w, i, rpc.faults(i)), i + 1, n, rpc);
    }
  }

  lemma CollectAllAnswers(w: World, rpc: Rpc)
    requires IsRpc(w.phase) && w.replies == map[]
    ensures var w' := CollectAll(w, rpc);
            && w' == w.(ranks := w'.ranks, replies := w'.replies)
            && |w'.ranks| == |w.ranks|
            && (!Lost(w, rpc) ==>
                  && AllReplied(|w.ranks|, w'.replies)
                  && w'.ranks == CallAll(MethodOf(w.phase), w.ranks, rpc)
                  && (AllOk(|w.ranks|, w'.replies) <==> Succeeds(MethodOf(w.phase), w.ranks, rpc)))
  {
    CollectAnswers(w, 0, Min(rpc.reach, |w.ranks|), rpc);
  }

  lemma CollectAllKeeps(w: World, rpc: Rpc)
    requires WorldInv(w)
    ensures WorldInv(CollectAll(w, rpc))
    ensures WorldIntact(w) ==> WorldIntact(CollectAll(w, rpc))
  {
    var n := Min(rpc.reach, |w.ranks|);
    CollectIsARun(w, 0, n, rpc);
    ExecuteKeeps(w, RpcSteps(0, n, rpc));
  }

  /** The current RPC, and how it ends: it returns if it succeeds and raises otherwise. */
  function Ended(w: World, rpc: Rpc, resume: Resume): (World, bool) {
    var called := CollectAll(w, rpc);
    if Lost(w, rpc) || !AllOk(|w.ranks|, called.replies) then (RaisedOut(called), false)
    else (Returned(called, resume), true)
  }

  lemma EndedAnswers(w: World, rpc: Rpc, resume: Resume)
    requires IsRpc(w.phase) && w.replies == map[]
    ensures var (w', ok) := Ended(w, rpc, resume);
            && w'.model == w.model && |w'.ranks| == |w.ranks|
            && (ok <==> Succeeds(MethodOf(w.phase), w.ranks, rpc))
            && (!Lost(w, rpc) ==> w'.ranks == CallAll(MethodOf(w.phase), w.ranks, rpc))
  {
    CollectAllAnswers(w, rpc);
    EndingKeepsRanks(CollectAll(w, rpc), resume);
  }

  lemma EndedKeeps(w: World, rpc: Rpc, resume: Resume)
    requires WorldInv(w) && IsRpc(w.phase) && w.replies == map[] && !w.phase.Preparing? && !w.phase.Cancelling?
    requires w.phase.Waking? ==> w.pending == []
    ensures var (w', ok) := Ended(w, rpc, resume);
            && WorldInv(w') && w'.model == w.model
            && (WorldIntact(w) ==> WorldIntact(w'))
            && (ok <==> Succeeds(MethodOf(w.phase), w.ranks, rpc))
            && (!Lost(w, rpc) ==> w'.ranks == CallAll(MethodOf(w.phase), w.ranks, rpc))
  {
    EndedAnswers(w, rpc, resume);
    CollectAllAnswers(w, rpc);
    CollectAllKeeps(w, rpc);
    if Ended(w, rpc, resume).1 {
      ReturnStepKeeps(CollectAll(w, rpc), resume);
    } else {
      RaiseStepKeeps(CollectAll(w, rpc));
    }
  }

  // ------------------------------------------------------------------
  // Waking and rolling back every rank
  // ------------------------------------------------------------------

  /** Every rank that sleeps can be woken with the model's bytes. */
  ghost predicate Recoverable(w: World) {
    forall i :: 0 <= i < |w.ranks| ==>
      forall a <- w.ranks[i].allocations :: a.isAsleep && a.Model() ==> Readable(w.ranks[i], a)
  }

  lemma IntactIsRecoverable(w: World)
    requires WorldInv(w) && WorldIntact(w)
    ensures Recoverable(w)
  {
    forall i, a | 0 <= i < |w.ranks| && a in w.ranks[i].allocations && a.isAsleep && a.Model()
      ensures Readable(w.ranks[i], a)
    {
      var n :| 0 <= n < |w.ranks[i].allocations| && w.ranks[i].allocations[n] == a;
      RefillIsModel(w.ranks[i].snapshot.value, w.ranks[i].allocations, w.model[i], n);
    }
  }

  lemma UndisturbedSucceedsIffRecoverable(w: World, rpc: Rpc)
    requires Matched(w) && Undisturbed(rpc, |w.ranks|)
    ensures Succeeds(WAKE_UP(None), w.ranks, rpc) <==> Recoverable(w)
  {
    forall i | 0 <= i < |w.ranks|
      ensures Call(WAKE_UP(None), w.ranks[i], rpc.faults(i)).1 <==>
              forall a <- w.ranks[i].allocations :: a.isAsleep && a.Model() ==> Readable(w.ranks[i], a)
    {
      RecoversIffReadable(w.ranks[i], w.model[i]);
    }
  }

  /** Every rank is back with its bytes, whether or not the scheduler was resumed. */
  ghost predicate BackUp(w: World) {
    && w.phase == Free && w.state == ACTIVE && !w.executorSleeping && w.pending == []
    && Resident(w) && AllClean(w.ranks)
  }

  lemma CleanIsResident(w: World)
    requires WorldInv(w) && AllClean(w.ranks)
    ensures Resident(w)
  {
  }

  // After a sleep that raised, on any subset of the ranks or in the pause itself: either every rank is back with
  // its bytes and only then the scheduler runs again, or the loop ends, SLEEPING, as paused as it was. An
  // unpaused scheduler has all memory all the time. Undisturbed, every rank comes back exactly when every
  // payload still verifies.
  lemma RollBackOutcome(w: World, rpc: Rpc, resume: Resume)
    requires WorldInv(w) && w.phase == RollingBack && w.replies == map[]
    ensures var (w', ok) := Ended(w, rpc, resume);
            && WorldInv(w') && w'.model == w.model && Agrees(w')
            && (ok <==> Succeeds(WAKE_UP(None), w.ranks, rpc))
            && (!ok || resume.Raises? ==> w'.phase == Crashed && w'.paused == w.paused && w'.state == SLEEPING)
            && (ok && !resume.Raises? ==> BackUp(w') && w'.paused == (w.paused && resume.Ignored?))
    ensures Undisturbed(rpc, |w.ranks|) ==> (Ended(w, rpc, resume).1 <==> Recoverable(w))
  {
    EndedKeeps(w, rpc, resume);
    CollectAllAnswers(w, rpc);
    CollectAllKeeps(w, rpc);
    InvAgrees(Ended(w, rpc, resume).0);
    if Ended(w, rpc, resume).1 {
      RollBackReturnCleans(CollectAll(w, rpc), resume);
      CleanIsResident(Ended(w, rpc, resume).0);
    }
    if Undisturbed(rpc, |w.ranks|) {
      UndisturbedSucceedsIffRecoverable(w, rpc);
    }
  }

  /** The engine is asleep: every rank was suspended, and the executor knows. */
  ghost predicate Asleep(w: World) { w.phase == Free && w.paused && w.executorSleeping }

  /** One wake-up, by `_wake` or by a client. True unless an RPC failed. */
  function WakeCall(w: World, waker: Waker, tags: Option<seq<string>>, rpc: Rpc, resume: Resume): (World, bool) {
    var started := StartWakeUp(w, waker, tags, resume);
    if started.phase.Waking? then Ended(started, rpc, resume) else (started, true)
  }

  lemma WakingEnds(w: World, waker: Waker, tags: Option<seq<string>>, rpc: Rpc, resume: Resume)
    requires w.phase == Waking(waker, tags) && w.replies == map[]
    ensures var called, left := CollectAll(w, rpc), LeftAsleep(w, tags);
            Ended(w, rpc, resume)
            == if !Lost(w, rpc) && AllOk(|w.ranks|, called.replies) then
                 (AfterWakeUp(called.(sleepingTags := left, executorSleeping := left != {}), waker, resume), true)
               else if waker == Request then (called.(phase := Crashed, state := SLEEPING), false)
               else (called.(phase := Free), false)
  {
    CollectAllAnswers(w, rpc);
  }

  // A wake-up of everything, from where the ranks are asked.
  lemma WakingOutcome(w: World, waker: Waker, rpc: Rpc, resume: Resume)
    requires WorldInv(w) && w.phase == Waking(waker, None) && w.replies == map[] && w.pending == []
    ensures var (w', ok) := Ended(w, rpc, resume);
            && WorldInv(w') && (ok <==> Succeeds(WAKE_UP(None), w.ranks, rpc))
            && (!ok ==> w'.paused && w'.executorSleeping && w'.state == (if waker == Request then SLEEPING else w.state)
                        && w'.phase == if waker == Request then Crashed else Free)
            && (ok && resume.Resumes? ==> w'.phase == Free && !w'.paused)
            && (ok && !resume.Resumes? ==> w'.paused && !w'.executorSleeping)
  {
    EndedKeeps(w, rpc, resume);
    CollectAllAnswers(w, rpc);
    WakingEnds(w, waker, None, rpc, resume);
  }

  // From an engine that is asleep, with no pause pending, the scheduler resumes exactly when every rank is back. A
  // failed wake-up by a request ends the loop, paused; one by a client leaves the engine asleep, and can be tried
  // again. Undisturbed, it succeeds exactly when every payload still verifies.
  lemma WakeCallOutcome(w: World, waker: Waker, rpc: Rpc, resume: Resume)
    requires WorldInv(w) && Asleep(w) && w.pending == []
    ensures var (w', ok) := WakeCall(w, waker, None, rpc, resume);
            && WorldInv(w') && w'.model == w.model && Agrees(w')
            && (ok <==> Succeeds(WAKE_UP(None), w.ranks, rpc))
            && (!ok ==> w'.paused && w'.executorSleeping && w'.state == (if waker == Request then SLEEPING else w.state)
                        && w'.phase == if waker == Request then Crashed else Free)
            && (ok && resume.Resumes? ==> w'.phase == Free && !w'.paused && Resident(w') && AllClean(w'.ranks))
            && (ok && !resume.Resumes? ==> w'.paused && !w'.executorSleeping)
    ensures Undisturbed(rpc, |w.ranks|) ==> (WakeCall(w, waker, None, rpc, resume).1 <==> Recoverable(w))
  {
    AsleepStarts(w, waker, resume);
    var started := StartWakeUp(w, waker, None, resume);
    EndedAnswers(started, rpc, resume);
    WakingOutcome(started, waker, rpc, resume);
    InvAgrees(Ended(started, rpc, resume).0);
    if Undisturbed(rpc, |w.ranks|) {
      UndisturbedSucceedsIffRecoverable(w, rpc);
    }
  }

  lemma AsleepStarts(w: World, waker: Waker, resume: Resume)
    requires WorldInv(w) && Asleep(w)
    ensures var started := StartWakeUp(w, waker, None, resume);
            && WorldInv(started)
            && started == w.(state := if waker == Request then WAKING else w.state, phase := Waking(waker, None),
                             replies := map[])
  {
    NextKeeps(w, if waker == Request then RequestArrives(resume) else ClientWakes(None, resume));
  }

  // A client's wake-up for some of the tags that sleep. When it succeeds, the scheduler resumes exactly if no
  // tag is left, and then every rank is back; until then the engine stays asleep under the tags that are left.
  lemma TaggedWakeOutcome(w: World, tags: seq<string>, rpc: Rpc)
    requires WorldInv(w) && Asleep(w) && w.pending == [] && tags != []
    requires SCHEDULING !in tags && forall tag <- tags :: tag in w.sleepingTags
    ensures var (w', ok) := WakeCall(w, Client, Some(tags), rpc, Resumes);
            var left := LeftAsleep(w, Some(tags));
            && WorldInv(w') && w'.model == w.model && Agrees(w') && w'.phase == Free
            && (ok <==> Succeeds(WAKE_UP(Some(tags)), w.ranks, rpc))
            && (if ok && left == {} then !w'.paused && Resident(w') && AllClean(w'.ranks)
                else Asleep(w') && w'.sleepingTags == if ok then left else w.sleepingTags)
  {
    var s := ClientWakes(Some(tags), Resumes);
    NextKeeps(w, s);
    var started := StartWakeUp(w, Client, Some(tags), Resumes);
    EndedKeeps(started, rpc, Resumes);
    CollectAllAnswers(started, rpc);
    InvAgrees(Ended(started, rpc, Resumes).0);
  }

  // No run strands the model: whatever has happened in a run without altered payloads and early wakes, every rank
  // that sleeps can be woken with the model's bytes; and from sleep one undisturbed wake-up brings all back.
  lemma NoRunLosesTheModel(w: World, steps: seq<Step>, waker: Waker, rpc: Rpc)
    requires WorldInv(w) && WorldIntact(w) && NeverEarly(w, steps) && forall s <- steps :: !s.PayloadAltered?
    ensures var w' := Execute(w, steps);
            && Recoverable(w')
            && (Asleep(w') && w'.pending == [] && Undisturbed(rpc, |w'.ranks|) ==>
                  var (awake, ok) := WakeCall(w', waker, None, rpc, Resumes);
                  && ok && awake.phase == Free && !awake.paused
                  && Resident(awake) && AllClean(awake.ranks) && awake.model == w'.model)
  {
    ExecuteKeeps(w, steps);
    var w' := Execute(w, steps);
    IntactIsRecoverable(w');
    if Asleep(w') && w'.pending == [] && Undisturbed(rpc, |w'.ranks|) {
      WakeCallOutcome(w', waker, rpc, Resumes);
    }
  }

  // ------------------------------------------------------------------
  // One call of `_sleep`
  // ------------------------------------------------------------------

  /** What happens in one call of `_sleep`. */
  datatype Plan = Plan(prepare: Rpc, cancel: Rpc, pause: Pause, sleep: Rpc, wakeUp: Rpc, resume: Resume)

  function PauseStep(p: Pause): Step {
    match p
    case Completes => PauseCompletes
    case Defers => PauseDefers
    case RaisesBefore => PauseRaises(false)
    case RaisesAfter => PauseRaises(true)
  }

  /** The rest of `_sleep` once every rank has prepared: `engine.sleep`, and the rollback if it raises. */
  function SuspendCall(w: World, plan: Plan): World {
    var paused := Next(w, PauseStep(plan.pause));
    if plan.pause.Defers? then paused
    else if plan.pause.Completes? then
      var (slept, ok) := Ended(paused, plan.sleep, Resumes);
      if ok then slept else Ended(slept, plan.wakeUp, plan.resume).0
    else Ended(paused, plan.wakeUp, plan.resume).0
  }

  function CancelCall(w: World, rpc: Rpc): World {
    var cancelled := CollectAll(w, rpc);
    if Lost(w, rpc) then RaisedOut(cancelled) else Returned(cancelled, Resumes)
  }

  /** `_sleep` once every rank has answered the preparation. */
  function AnsweredCall(w: World, plan: Plan): World {
    if w.phase.Pausing? then SuspendCall(w, plan) else CancelCall(w, plan.cancel)
  }

  /** `_sleep` for the disk target, from a serving world. It has raised if and only if it ends Crashed. */
  function SleepCall(w: World, plan: Plan): World {
    var prepared := CollectAll(Next(w, BeginSleep), plan.prepare);
    if Lost(w, plan.prepare) then RaisedOut(prepared) else AnsweredCall(Returned(prepared, Resumes), plan)
  }

  /** The scheduler runs, and `_sleep` may begin. */
  ghost predicate Serving(w: World) { w.phase == Free && w.state == ACTIVE && !w.paused }

  /** `_sleep` has returned, and the suspension that every rank prepared for is still to come. */
  ghost predicate Waiting(w: World) {
    && w.phase == Free && w.state == SLEEPING && w.paused && !w.executorSleeping
    && w.pending == [1] && AllCommitted(w.ranks)
  }

  lemma SuspendOutcome(w: World, plan: Plan)
    requires WorldInv(w) && WorldIntact(w) && w.phase == Pausing && w.replies == map[]
    ensures var w' := SuspendCall(w, plan);
            && WorldInv(w') && w'.model == w.model && Agrees(w')
            && (Asleep(w') <==> plan.pause.Completes? && Succeeds(SLEEP(1), w.ranks, plan.sleep))
            && (Asleep(w') ==> w'.state == SLEEPING && w'.pending == []
                               && w'.ranks == CallAll(SLEEP(1), w.ranks, plan.sleep))
            && (Waiting(w') <==> plan.pause.Defers?)
            && (w'.phase == Crashed || Asleep(w') || Waiting(w')
                || (BackUp(w') && (w'.paused ==> plan.resume.Ignored?)))
            && (Undisturbed(plan.wakeUp, |w.ranks|) && !plan.resume.Raises? ==> w'.phase != Crashed)
  {
    var paused := Next(w, PauseStep(plan.pause));
    PauseStepKeeps(w, PauseStep(plan.pause));
    PhasesAgree(w);
    InvAgrees(paused);
    if plan.pause.Completes? {
      CompletedOutcome(paused, plan);
    } else if !plan.pause.Defers? {
      RollBackOutcome(paused, plan.wakeUp, plan.resume);
      IntactIsRecoverable(paused);
    }
  }

  // The suspension, and the rollback if it raises.
  lemma CompletedOutcome(w: World, plan: Plan)
    requires WorldInv(w) && WorldIntact(w) && w.phase == Suspending && w.replies == map[]
    ensures var (slept, ok) := Ended(w, plan.sleep, Resumes);
            var w' := if ok then slept else Ended(slept, plan.wakeUp, plan.resume).0;
            && WorldInv(w') && w'.model == w.model && Agrees(w') && (ok <==> Succeeds(SLEEP(1), w.ranks, plan.sleep))
            && (if ok then Asleep(w') && w'.state == SLEEPING && w'.pending == []
                           && w'.ranks == CallAll(SLEEP(1), w.ranks, plan.sleep)
                else w'.phase == Crashed || (BackUp(w') && (w'.paused ==> plan.resume.Ignored?)))
            && (Undisturbed(plan.wakeUp, |w.ranks|) && !plan.resume.Raises? ==> w'.phase != Crashed)
  {
    EndedKeeps(w, plan.sleep, Resumes);
    CollectAllAnswers(w, plan.sleep);
    var (slept, ok) := Ended(w, plan.sleep, Resumes);
    InvAgrees(slept);
    if !ok {
      RollBackOutcome(slept, plan.wakeUp, plan.resume);
      IntactIsRecoverable(slept);
    }
  }

  lemma CancelOutcome(w: World, rpc: Rpc)
    requires WorldInv(w) && w.phase == Cancelling && w.replies == map[]
    ensures var w' := CancelCall(w, rpc);
            && WorldInv(w') && w'.model == w.model
            && (if Lost(w, rpc) then w'.phase == Crashed && w'.state == ACTIVE else Serving(w') && BackUp(w'))
  {
    CollectAllAnswers(w, rpc);
    CollectAllKeeps(w, rpc);
    EndingKeepsRanks(CollectAll(w, rpc), Resumes);
    if Lost(w, rpc) {
      RaiseStepKeeps(CollectAll(w, rpc));
    } else {
      ReturnStepKeeps(CollectAll(w, rpc), Resumes);
      InvAgrees(CancelCall(w, rpc));
    }
  }

  // What the ranks answer decides what comes next.
  lemma PreparedReturns(w: World, rpc: Rpc)
    requires WorldInv(w) && w.phase == Preparing && w.replies == map[]
    ensures WorldInv(RaisedOut(CollectAll(w, rpc))) && RaisedOut(CollectAll(w, rpc)).phase == Crashed
    ensures RaisedOut(CollectAll(w, rpc)).model == w.model
    ensures !Lost(w, rpc) ==>
              var w' := Returned(CollectAll(w, rpc), Resumes);
              && WorldInv(w') && w'.model == w.model && w'.replies == map[]
              && w'.ranks == CallAll(PREPARE, w.ranks, rpc)
              && w'.phase == (if w.ranks != [] && Succeeds(PREPARE, w.ranks, rpc) then Pausing else Cancelling)
    ensures WorldIntact(w) && !Lost(w, rpc) ==> WorldIntact(Returned(CollectAll(w, rpc), Resumes))
  {
    CollectAllAnswers(w, rpc);
    CollectAllKeeps(w, rpc);
    EndingKeepsRanks(CollectAll(w, rpc), Resumes);
    if Lost(w, rpc) {
      RaiseStepKeeps(CollectAll(w, rpc));
    } else {
      RaiseStepKeeps(CollectAll(w, rpc));
      ReturnStepKeeps(CollectAll(w, rpc), Resumes);
    }
  }

  // The engine is asleep after `_sleep` exactly when every rank prepared, the pause completed, and every rank
  // suspended; it waits exactly when every rank prepared and the pause was deferred. Otherwise, unless an
  // exception ends the loop, every rank is RUNNING with its bytes and without a snapshot, and the scheduler runs,
  // unless the rollback's `resume_scheduler` resumed nothing.
  lemma SleepCallOutcome(w: World, plan: Plan)
    requires WorldInv(w) && Serving(w)
    ensures var w' := SleepCall(w, plan);
            var prepared := CallAll(PREPARE, w.ranks, plan.prepare);
            var ready := w.ranks != [] && Succeeds(PREPARE, w.ranks, plan.prepare);
            && WorldInv(w') && w'.model == w.model && Agrees(w')
            && (Asleep(w') <==> ready && plan.pause.Completes? && Succeeds(SLEEP(1), prepared, plan.sleep))
            && (Asleep(w') ==> w'.state == SLEEPING && w'.pending == []
                               && w'.ranks == CallAll(SLEEP(1), prepared, plan.sleep))
            && (Waiting(w') <==> ready && plan.pause.Defers?)
            && (w'.phase == Crashed || Asleep(w') || Waiting(w')
                || (BackUp(w') && (w'.paused ==> ready && plan.resume.Ignored?)))
    ensures && |w.ranks| <= plan.prepare.reach && |w.ranks| <= plan.cancel.reach
            && Undisturbed(plan.wakeUp, |w.ranks|) && !plan.resume.Raises?
            ==> SleepCall(w, plan).phase != Crashed
  {
    ServingStarts(w);
    var started := Next(w, BeginSleep);
    PreparedReturns(started, plan.prepare);
    if !Lost(w, plan.prepare) {
      var returned := Returned(CollectAll(started, plan.prepare), Resumes);
      if returned.phase.Pausing? {
        SuspendOutcome(returned, plan);
      } else {
        CancelOutcome(returned, plan.cancel);
      }
    }
    InvAgrees(SleepCall(w, plan));
  }

  lemma ServingStarts(w: World)
    requires WorldInv(w) && Serving(w)
    ensures var started := Next(w, BeginSleep);
            && WorldInv(started) && WorldIntact(started) && started == w.(phase := Preparing, replies := map[])
  {
    PhasesAgree(w);
    assert WorldIntact(w);
    NextKeeps(w, BeginSleep);
  }

  // ------------------------------------------------------------------
  // A deferred suspension
  // ------------------------------------------------------------------

  /** The idle callback of a deferred pause. */
  function FinishCall(w: World, raises: bool, rpc: Rpc): World {
    var due := Next(w, PauseFinishes(raises));
    if due.phase.Finishing? then Ended(due, rpc, Resumes).0 else due
  }

  // When `_finish_pause` comes through, the engine is asleep exactly when the suspension reached every rank and
  // none raised; a failure is unheard, and stays outstanding.
  lemma FinishCallOutcome(w: World, rpc: Rpc)
    requires WorldInv(w) && Waiting(w)
    ensures var w' := FinishCall(w, false, rpc);
            && WorldInv(w') && w'.model == w.model && w'.pending == []
            && (Succeeds(SLEEP(1), w.ranks, rpc) <==> Asleep(w'))
            && (!Succeeds(SLEEP(1), w.ranks, rpc) <==> Outstanding(w'))
  {
    NextKeeps(w, PauseFinishes(false));
    var due := Next(w, PauseFinishes(false));
    CollectAllAnswers(due, rpc);
    EndedKeeps(due, rpc, Resumes);
    CollectAllKeeps(due, rpc);
    if w.ranks != [] {
      CollectStaysCommitted(due, rpc);
    }
  }

  // A suspension drops no snapshot.
  lemma CollectStaysCommitted(w: World, rpc: Rpc)
    requires WorldInv(w) && w.phase.Finishing? && w.replies == map[] && w.ranks != [] && AllCommitted(w.ranks)
    ensures !AllClean(CollectAll(w, rpc).ranks)
  {
    CollectAnswers(w, 0, Min(rpc.reach, |w.ranks|), rpc);
    SuspendCallKeeps(w.ranks[0], w.phase.level, rpc.faults(0), w.model[0]);
    assert !Clean(CollectAll(w, rpc).ranks[0]);
  }

  // After a deferred suspension, the next request finds ranks that agree if and only if the suspension reached
  // every rank and succeeded on each: otherwise it resumes a scheduler whose ranks are not back.
  lemma DeferredSleepIsSafeIff(w: World, rpc: Rpc, wakeUp: Rpc)
    requires WorldInv(w) && Waiting(w)
    ensures Agrees(WakeCall(FinishCall(w, false, rpc), Request, None, wakeUp, Resumes).0)
            <==> Succeeds(SLEEP(1), w.ranks, rpc)
  {
    FinishCallOutcome(w, rpc);
    NextRequestDecides(FinishCall(w, false, rpc), wakeUp);
  }

  // What the next request finds, once no suspension is pending any more.
  lemma NextRequestDecides(w: World, wakeUp: Rpc)
    requires WorldInv(w) && w.phase == Free && w.paused && w.pending == []
    ensures Agrees(WakeCall(w, Request, None, wakeUp, Resumes).0) <==> !Outstanding(w)
  {
    if Asleep(w) {
      WakeCallOutcome(w, Request, wakeUp, Resumes);
    } else if Outstanding(w) {
      EarlyWakeDisagrees(w, RequestArrives(Resumes));
    } else {
      NextKeeps(w, RequestArrives(Resumes));
      InvAgrees(Next(w, RequestArrives(Resumes)));
    }
  }

  // The memory is missing if and only if the failed suspension unmapped anything before it failed.
  lemma UnheardFailureUnmaps(w: World, rpc: Rpc, wakeUp: Rpc)
    requires WorldInv(w) && Waiting(w) && !Succeeds(SLEEP(1), w.ranks, rpc)
    ensures var finished := FinishCall(w, false, rpc);
            var woken := WakeCall(finished, Request, None, wakeUp, Resumes).0;
            && !woken.paused && woken.state == ACTIVE && woken.ranks == finished.ranks
            && (Resident(woken) <==>
                  forall i :: 0 <= i < |finished.ranks| ==> !AnyAsleep(finished.ranks[i].allocations))
  {
    FinishCallOutcome(w, rpc);
    ResumedEarly(FinishCall(w, false, rpc), RequestArrives(Resumes));
  }

  // ------------------------------------------------------------------
  // A client's own sleep
  // ------------------------------------------------------------------

  function ClientSleepCall(w: World, level: int, pause: Pause, rpc: Rpc): World {
    var begun := Next(w, ClientSleeps(level, pause));
    if begun.phase.ClientSuspending? then Ended(begun, rpc, Resumes).0 else begun
  }

  // A client puts a serving engine to sleep and the pause completes. The next request finds ranks that agree if and
  // only if every rank was suspended, or none of them was left with a snapshot or anything unmapped.
  lemma ClientSleepIsSafeIff(w: World, level: int, rpc: Rpc, wakeUp: Rpc)
    requires WorldInv(w) && Serving(w) && level >= 1
    ensures var slept := ClientSleepCall(w, level, Completes, rpc);
            && WorldInv(slept) && slept.paused && slept.model == w.model
            && (Asleep(slept) <==> Succeeds(SLEEP(level), w.ranks, rpc))
            && (Agrees(WakeCall(slept, Request, None, wakeUp, Resumes).0)
                <==> Succeeds(SLEEP(level), w.ranks, rpc) || AllClean(slept.ranks))
  {
    NextKeeps(w, ClientSleeps(level, Completes));
    var begun := Next(w, ClientSleeps(level, Completes));
    CollectAllAnswers(begun, rpc);
    EndedKeeps(begun, rpc, Resumes);
    NextRequestDecides(ClientSleepCall(w, level, Completes, rpc), wakeUp);
  }

  // ------------------------------------------------------------------
  // Ranks that cannot prepare
  // ------------------------------------------------------------------

  lemma {:induction false} CollectLeavesAlone(w: World, i: nat, n: nat, rpc: Rpc)
    requires i <= n <= |w.ranks|
    requires forall j :: 0 <= j < |w.ranks| ==> Call(MethodOf(w.phase), w.ranks[j], rpc.faults(j)).0 == w.ranks[j]
    ensures Collect(w, i, n, rpc).ranks == w.ranks
    decreases n - i
  {
    if i < n {
      assert Executed(w, i, rpc.faults(i)).ranks == w.ranks;
      CollectLeavesAlone(Executed(w, i, rpc.faults(i)), i + 1, n, rpc);
    }
  }

  lemma FailedPreparation(r: Rank, fault: Fault)
    requires !Call(PREPARE, r, fault).1
    ensures Call(PREPARE, r, fault).0 == r
  {
  }

  lemma CleanCancellation(r: Rank, fault: Fault)
    requires Clean(r)
    ensures Call(CANCEL, r, fault).0 == r
  {
  }

  lemma PreparingTouchesNothing(w: World, rpc: Rpc)
    requires w.phase == Preparing
    requires forall i :: 0 <= i < |w.ranks| ==> !Call(PREPARE, w.ranks[i], rpc.faults(i)).1
    ensures CollectAll(w, rpc).ranks == w.ranks
  {
    forall i | 0 <= i < |w.ranks|
      ensures Call(PREPARE, w.ranks[i], rpc.faults(i)).0 == w.ranks[i]
    {
      FailedPreparation(w.ranks[i], rpc.faults(i));
    }
    CollectLeavesAlone(w, 0, Min(rpc.reach, |w.ranks|), rpc);
  }

  lemma CancellingTouchesNothing(w: World, rpc: Rpc)
    requires w.phase == Cancelling && AllClean(w.ranks)
    ensures CollectAll(w, rpc).ranks == w.ranks
  {
    forall i | 0 <= i < |w.ranks|
      ensures Call(CANCEL, w.ranks[i], rpc.faults(i)).0 == w.ranks[i]
    {
      CleanCancellation(w.ranks[i], rpc.faults(i));
    }
    CollectLeavesAlone(w, 0, Min(rpc.reach, |w.ranks|), rpc);
  }

  // Nothing is prepared, so the call goes on to the cancellation.
  lemma NothingPreparedRanks(w: World, plan: Plan)
    requires WorldInv(w) && Serving(w)
    requires forall i :: 0 <= i < |w.ranks| ==> !Call(PREPARE, w.ranks[i], plan.prepare.faults(i)).1
    ensures SleepCall(w, plan).ranks == w.ranks
  {
    ServingStarts(w);
    var started := Next(w, BeginSleep);
    var prepared := CollectAll(started, plan.prepare);
    PreparingTouchesNothing(started, plan.prepare);
    EndingKeepsRanks(prepared, Resumes);
    if !Lost(w, plan.prepare) {
      NothingPreparedCancels(w, plan);
      var returned := Returned(prepared, Resumes);
      CancellingTouchesNothing(returned, plan.cancel);
      EndingKeepsRanks(CollectAll(returned, plan.cancel), Resumes);
    }
  }

  lemma NothingPreparedCancels(w: World, plan: Plan)
    requires WorldInv(w) && Serving(w) && !Lost(w, plan.prepare)
    requires forall i :: 0 <= i < |w.ranks| ==> !Call(PREPARE, w.ranks[i], plan.prepare.faults(i)).1
    ensures var returned := Returned(CollectAll(Next(w, BeginSleep), plan.prepare), Resumes);
            returned.phase == Cancelling && returned.ranks == w.ranks && AllClean(w.ranks)
  {
    ServingStarts(w);
    PhasesAgree(w);
    PreparedReturns(Next(w, BeginSleep), plan.prepare);
    PreparingTouchesNothing(Next(w, BeginSleep), plan.prepare);
    EndingKeepsRanks(CollectAll(Next(w, BeginSleep), plan.prepare), Resumes);
  }

  // If no rank can prepare, because its backend is not found, or the save fails everywhere, no rank is touched: the
  // engine goes on serving, or an RPC that raises ends the loop.
  lemma NothingPreparedNothingTouched(w: World, plan: Plan)
    requires WorldInv(w) && Serving(w)
    requires forall i :: 0 <= i < |w.ranks| ==> !Call(PREPARE, w.ranks[i], plan.prepare.faults(i)).1
    ensures var w' := SleepCall(w, plan);
            w'.ranks == w.ranks && w'.model == w.model && (w'.phase == Crashed || (Serving(w') && BackUp(w')))
  {
    SleepCallOutcome(w, plan);
    NothingPreparedRanks(w, plan);
    if !Lost(w, plan.prepare) {
      NothingPreparedCancels(w, plan);
    }
  }

  // In particular when the workers do not have what the controller looks the backend up with.
  lemma MissingBackendNeverSleeps(w: World, plan: Plan)
    requires WorldInv(w) && Serving(w) && forall i :: 0 <= i < |w.ranks| ==> plan.prepare.faults(i).BeforeBackend?
    ensures SleepCall(w, plan).ranks == w.ranks
    ensures SleepCall(w, plan).phase == Crashed || Serving(SleepCall(w, plan))
  {
    NothingPreparedNothingTouched(w, plan);
  }

  // ------------------------------------------------------------------
  // The calls are runs of the step system
  // ------------------------------------------------------------------

  ghost predicate Reaches(w: World, w': World) {
    exists steps: seq<Step> :: Execute(w, steps) == w' && forall s <- steps :: !s.PayloadAltered?
  }

  lemma {:induction false} ExecuteAppend(w: World, a: seq<Step>, b: seq<Step>)
    ensures Execute(w, a + b) == Execute(Execute(w, a), b)
    decreases |a|
  {
    if a == [] {
      assert a + b == b;
    } else {
      assert (a + b)[1..] == a[1..] + b;
      ExecuteAppend(Next(w, a[0]), a[1..], b);
    }
  }

  lemma ReachesTransitive(a: World, b: World, c: World)
    requires Reaches(a, b) && Reaches(b, c)
    ensures Reaches(a, c)
  {
    var s: seq<Step> :| Execute(a, s) == b && forall x <- s :: !x.PayloadAltered?;
    var t: seq<Step> :| Execute(b, t) == c && forall x <- t :: !x.PayloadAltered?;
    ExecuteAppend(a, s, t);
  }

  lemma ReachesNext(w: World, s: Step)
    requires !s.PayloadAltered?
    ensures Reaches(w, Next(w, s))
  {
    assert Execute(w, [s]) == Execute(Next(w, s), []);
  }

  lemma ReachesCollected(w: World, rpc: Rpc)
    ensures Reaches(w, CollectAll(w, rpc))
  {
    var n := Min(rpc.reach, |w.ranks|);
    CollectIsARun(w, 0, n, rpc);
    assert Execute(w, RpcSteps(0, n, rpc)) == CollectAll(w, rpc);
  }

  lemma RaisedCallIsARun(w: World, rpc: Rpc)
    ensures Reaches(w, RaisedOut(CollectAll(w, rpc)))
  {
    var called := CollectAll(w, rpc);
    ReachesCollected(w, rpc);
    ReachesNext(called, CallRaises);
    ReachesTransitive(w, called, Next(called, CallRaises));
  }

  lemma ReturnedCallIsARun(w: World, rpc: Rpc, resume: Resume)
    ensures Reaches(w, Returned(CollectAll(w, rpc), resume))
  {
    var called := CollectAll(w, rpc);
    ReachesCollected(w, rpc);
    ReachesNext(called, CallReturns(resume));
    ReachesTransitive(w, called, Next(called, CallReturns(resume)));
  }

  lemma ReachesEnded(w: World, rpc: Rpc, resume: Resume)
    ensures Reaches(w, Ended(w, rpc, resume).0)
  {
    if Ended(w, rpc, resume).1 {
      ReturnedCallIsARun(w, rpc, resume);
    } else {
      RaisedCallIsARun(w, rpc);
    }
  }

  lemma SuspendCallIsARun(w: World, plan: Plan)
    ensures Reaches(w, SuspendCall(w, plan))
  {
    var paused := Next(w, PauseStep(plan.pause));
    ReachesNext(w, PauseStep(plan.pause));
    ReachesEnded(paused, plan.wakeUp, plan.resume);
    var (slept, ok) := Ended(paused, plan.sleep, Resumes);
    ReachesEnded(paused, plan.sleep, Resumes);
    ReachesEnded(slept, plan.wakeUp, plan.resume);
    if plan.pause.Completes? && !ok {
      ReachesTransitive(paused, slept, SuspendCall(w, plan));
    }
    if !plan.pause.Defers? {
      ReachesTransitive(w, paused, SuspendCall(w, plan));
    }
  }

  lemma AnsweredCallIsARun(w: World, plan: Plan)
    ensures Reaches(w, AnsweredCall(w, plan))
  {
    SuspendCallIsARun(w, plan);
    RaisedCallIsARun(w, plan.cancel);
    ReturnedCallIsARun(w, plan.cancel, Resumes);
  }

  // So all that holds of every step and every run holds inside `_sleep`, the idle callback, and the wake-ups.
  lemma SleepCallIsARun(w: World, plan: Plan)
    ensures Reaches(w, SleepCall(w, plan))
  {
    var started := Next(w, BeginSleep);
    ReachesNext(w, BeginSleep);
    if Lost(w, plan.prepare) {
      RaisedCallIsARun(started, plan.prepare);
    } else {
      var returned := Returned(CollectAll(started, plan.prepare), Resumes);
      ReturnedCallIsARun(started, plan.prepare, Resumes);
      AnsweredCallIsARun(returned, plan);
      ReachesTransitive(started, returned, SleepCall(w, plan));
    }
    ReachesTransitive(w, started, SleepCall(w, plan));
  }

  lemma FinishCallIsARun(w: World, raises: bool, rpc: Rpc)
    ensures Reaches(w, FinishCall(w, raises, rpc))
  {
    var due := Next(w, PauseFinishes(raises));
    ReachesNext(w, PauseFinishes(raises));
    if due.phase.Finishing? {
      ReachesEnded(due, rpc, Resumes);
      ReachesTransitive(w, due, FinishCall(w, raises, rpc));
    }
  }

  lemma ClientSleepCallIsARun(w: World, level: int, pause: Pause, rpc: Rpc)
    requires w.phase == Free
    ensures Reaches(w, ClientSleepCall(w, level, pause, rpc))
  {
    var begun := Next(w, ClientSleeps(level, pause));
    ReachesNext(w, ClientSleeps(level, pause));
    if begun.phase.ClientSuspending? {
      ReachesEnded(begun, rpc, Resumes);
      ReachesTransitive(w, begun, ClientSleepCall(w, level, pause, rpc));
    }
  }

  lemma WakeCallIsARun(w: World, waker: Waker, tags: Option<seq<string>>, rpc: Rpc, resume: Resume)
    requires w.phase == Free && (waker == Request ==> tags.None? && IsSleeping(w))
    ensures Reaches(w, WakeCall(w, waker, tags, rpc, resume).0)
  {
    var s := if waker == Request then RequestArrives(resume) else ClientWakes(tags, resume);
    var started := StartWakeUp(w, waker, tags, resume);
    ReachesNext(w, s);
    if started.phase.Waking? {
      ReachesEnded(started, rpc, resume);
      ReachesTransitive(w, started, WakeCall(w, waker, tags, rpc, resume).0);
    }
  }

  // ------------------------------------------------------------------
  // A cancellation that does not get through
  // ------------------------------------------------------------------

  // A failed preparation is cancelled on every rank the cancellation reaches. If it raises part way, a
  // snapshot is left exactly on the unreached ranks that had taken one.
  lemma LostCancellation(w: World)
    requires WorldInv(w) && w.phase == Cancelling
    ensures var w' := RaisedOut(w);
            && w'.phase == Crashed && w'.state == ACTIVE && w'.ranks == w.ranks
            && (AllClean(w'.ranks) <==> forall i :: 0 <= i < |w.ranks| && i !in w.replies ==> w.ranks[i].snapshot.None?)
  {
    forall i | 0 <= i < |w.ranks|
      ensures w.ranks[i].state == RUNNING && (i in w.replies ==> Clean(w.ranks[i]))
    {
      assert RankInPhase(w, w.ranks[i], ReplyOf(w, i));
    }
  }

  // ------------------------------------------------------------------
  // The engine's own code
  // ------------------------------------------------------------------

  lemma CollectStep(w: World, i: nat, n: nat, rpc: Rpc)
    requires i < n <= |w.ranks|
    ensures Collect(w, i, n, rpc) == Collect(Executed(w, i, rpc.faults(i)), i + 1, n, rpc)
  {
  }

  lemma SuspensionEnds(w: World, rpc: Rpc)
    requires (w.phase == Suspending || w.phase.Finishing? || w.phase.ClientSuspending?) && w.replies == map[]
    ensures var called := CollectAll(w, rpc);
            Ended(w, rpc, Resumes)
            == if !Lost(w, rpc) && AllOk(|w.ranks|, called.replies) then (Slept(called), true)
               else (RaisedOut(called), false)
  {
    CollectAllAnswers(w, rpc);
  }

  /**
    The controller's disk sleep, and the parts of the engine and its executor that it goes through. The
    idle callbacks, requests and clients are whoever calls the methods.
   */
  class DiskSleepEngine {
    var state: ControllerState
    var paused: bool
    var executorSleeping: bool
    var sleepingTags: set<string>
    var pending: seq<int>
    var ranks: seq<Rank>
    var replies: map<nat, bool>
    ghost var phase: Phase
    ghost var model: seq<Contents>

    ghost function Current(): World
      reads this
    {
      World(phase, state, paused, executorSleeping, sleepingTags, pending, ranks, model, replies)
    }

    method ExecuteOn(m: RankMethod, i: nat, fault: Fault)
      requires IsRpc(phase) && m == MethodOf(phase) && i < |ranks| && i !in replies
      modifies this`ranks, this`replies
      ensures Current() == Executed(old(Current()), i, fault)
      ensures |ranks| == |old(ranks)| && forall j: nat :: j in replies <==> j in old(replies) || j == i
    {
      var (rank, ok) := Call(m, ranks[i], fault);
      ranks := ranks[i := rank];
      replies := replies[i := ok];
    }

    method CallRanks(m: RankMethod, rpc: Rpc, reach: nat)
      requires IsRpc(phase) && m == MethodOf(phase) && replies == map[] && reach <= |ranks|
      modifies this`ranks, this`replies
      ensures Current() == Collect(old(Current()), 0, reach, rpc)
      ensures |ranks| == |old(ranks)| && forall j: nat :: j in replies <==> j < reach
    {
      ghost var all := Collect(Current(), 0, reach, rpc);
      for i := 0 to reach
        invariant |ranks| == |old(ranks)|
        invariant forall j: nat :: j in replies <==> j < i
        invariant all == Collect(Current(), i, reach, rpc)
      {
        CollectStep(Current(), i, reach, rpc);
        ExecuteOn(m, i, rpc.faults(i));
      }
    }

    method CollectiveRpc(m: RankMethod, rpc: Rpc) returns (lost: bool)
      requires IsRpc(phase) && m == MethodOf(phase) && replies == map[]
      modifies this`ranks, this`replies
      ensures Current() == CollectAll(old(Current()), rpc)
      ensures lost == Lost(old(Current()), rpc) && |ranks| == |old(ranks)|
      ensures !lost ==> AllReplied(|ranks|, replies)
    {
      CallRanks(m, rpc, Min(rpc.reach, |ranks|));
      lost := rpc.reach < |ranks|;
    }

    /** The executor's `sleep`. */
    method ExecutorSleep(level: int, rpc: Rpc) returns (ok: bool)
      requires IsRpc(phase) && MethodOf(phase) == SLEEP(level) && replies == map[] && !executorSleeping
      modifies this`ranks, this`replies, this`executorSleeping, this`sleepingTags
      ensures var called := CollectAll(old(Current()), rpc);
              && ok == (!Lost(old(Current()), rpc) && AllOk(|old(ranks)|, called.replies))
              && |called.ranks| == |ranks| == |old(ranks)| && called.phase == phase
              && Current() == if ok then Slept(called).(phase := phase) else called
    {
      var lost := CollectiveRpc(SLEEP(level), rpc);
      ok := !lost && AllOk(|ranks|, replies);
      if ok {
        executorSleeping, sleepingTags := true, EXECUTOR_TAGS;
      }
    }

    /** The exception handler of `_sleep`. */
    method Rollback(rpc: Rpc, resume: Resume) returns (raised: bool)
      requires phase == RollingBack && replies == map[] && state == SLEEPING
      modifies this
      ensures Current() == Ended(old(Current()), rpc, resume).0 && raised == (phase == Crashed)
    {
      var lost := CollectiveRpc(WAKE_UP(None), rpc);
      if lost || !AllOk(|ranks|, replies) {
        phase := Crashed;
        return true;
      }
      raised := ResumeAfterRollback(resume);
    }

    /** Every rank has answered the explicit wake-up. */
    method ResumeAfterRollback(resume: Resume) returns (raised: bool)
      requires phase == RollingBack && state == SLEEPING && AllOk(|ranks|, replies)
      modifies this
      ensures Current() == Returned(old(Current()), resume) && raised == (phase == Crashed)
    {
      executorSleeping, sleepingTags := false, {};
      raised := resume.Raises?;
      if raised {
        phase := Crashed;
      } else {
        paused, state, phase := paused && resume.Ignored?, ACTIVE, Free;
      }
    }

    /** The suspension after a pause that has completed, with the rollback if it raises. */
    method SuspendOrRollback(plan: Plan) returns (raised: bool)
      requires phase == Suspending && state == SLEEPING && replies == map[] && !executorSleeping
      modifies this
      ensures var (slept, ok) := Ended(old(Current()), plan.sleep, Resumes);
              Current() == if ok then slept else Ended(slept, plan.wakeUp, plan.resume).0
      ensures raised == (phase == Crashed)
    {
      SuspensionEnds(Current(), plan.sleep);
      var ok := ExecutorSleep(1, plan.sleep);
      if ok {
        phase := Free;
        return false;
      }
      phase, replies := RollingBack, map[];
      raised := Rollback(plan.wakeUp, plan.resume);
    }

    /** `_sleep` from its second phase on: `engine.sleep`, with the rollback if that raises. */
    method EngineSleep(plan: Plan) returns (raised: bool)
      requires phase == Pausing && state == SLEEPING && replies == map[] && !executorSleeping
      modifies this
      ensures Current() == SuspendCall(old(Current()), plan) && raised == (phase == Crashed)
    {
      match plan.pause {
        case Defers =>
          paused, pending, phase := true, pending + [1], Free;
          raised := false;
        case Completes =>
          paused, phase := true, Suspending;
          raised := SuspendOrRollback(plan);
        case _ =>
          paused := paused || plan.pause == RaisesAfter;
          phase := RollingBack;
          raised := Rollback(plan.wakeUp, plan.resume);
      }
    }

    method CancelPreparations(rpc: Rpc) returns (raised: bool)
      requires phase == Cancelling && state == ACTIVE && replies == map[]
      modifies this`ranks, this`replies, this`phase
      ensures Current() == CancelCall(old(Current()), rpc) && raised == (phase == Crashed)
    {
      raised := CollectiveRpc(CANCEL, rpc);
      phase := if raised then Crashed else Free;
    }

    /** `_sleep` once every rank has answered: it goes on only if there are answers, and all are good. */
    method Decide(plan: Plan) returns (raised: bool)
      requires phase == Preparing && state == ACTIVE && !executorSleeping && AllReplied(|ranks|, replies)
      modifies this
      ensures Current() == AnsweredCall(Returned(old(Current()), Resumes), plan) && raised == (phase == Crashed)
    {
      if |ranks| == 0 || !AllOk(|ranks|, replies) {
        replies, phase := map[], Cancelling;
        raised := CancelPreparations(plan.cancel);
      } else {
        replies, state, phase := map[], SLEEPING, Pausing;
        raised := EngineSleep(plan);
      }
    }

    /** `_sleep`; true if it raises. */
    method Sleep(plan: Plan) returns (raised: bool)
      requires WorldInv(Current()) && Serving(Current())
      modifies this
      ensures Current() == SleepCall(old(Current()), plan) && raised == (phase == Crashed)
    {
      ghost var started := Next(Current(), BeginSleep);
      ServingStarts(Current());
      replies, phase := map[], Preparing;
      assert Current() == started;
      CollectAllAnswers(started, plan.prepare);
      var lost := CollectiveRpc(PREPARE, plan.prepare);
      if lost {
        phase := Crashed;
        return true;
      }
      raised := Decide(plan);
    }

    /** A suspension whose failure the controller does not hear of. */
    method SuspendUnheard(level: int, rpc: Rpc)
      requires (phase == Finishing(level) || phase == ClientSuspending(level)) && replies == map[] && !executorSleeping
      modifies this
      ensures Current() == Ended(old(Current()), rpc, Resumes).0
    {
      SuspensionEnds(Current(), rpc);
      var ok := ExecutorSleep(level, rpc);
      phase := Free;
    }

    /** The idle callback of a deferred pause, and what is registered to follow it: a future that nobody reads. */
    method IdleCallback(raises: bool, rpc: Rpc)
      requires phase == Free && pending != []
      modifies this
      ensures Current() == FinishCall(old(Current()), raises, rpc)
    {
      var level := pending[0];
      pending := pending[1..];
      if raises {
        phase := Crashed;
      } else if !executorSleeping {
        phase, replies := Finishing(level), map[];
        SuspendUnheard(level, rpc);
      }
    }

    /** `EngineCore.sleep`, called by a client. */
    method ClientSleep(level: int, pause: Pause, rpc: Rpc)
      requires phase == Free
      modifies this
      ensures Current() == ClientSleepCall(old(Current()), level, pause, rpc)
    {
      if pause == RaisesBefore {
        return;
      }
      paused := true;
      if level < 1 {
        return;
      }
      if pause == Defers {
        pending := pending + [level];
      } else if pause == Completes && !executorSleeping {
        phase, replies := ClientSuspending(level), map[];
        SuspendUnheard(level, rpc);
      }
    }

    /** The executor's `wake_up` of tags that sleep. */
    method ExecutorWakeUp(waker: Waker, tags: Option<seq<string>>, rpc: Rpc) returns (ok: bool)
      requires phase == Waking(waker, tags) && replies == map[]
      modifies this`ranks, this`replies, this`executorSleeping, this`sleepingTags
      ensures var w := old(Current());
              var called := CollectAll(w, rpc);
              var left := LeftAsleep(w, tags);
              && |called.ranks| == |ranks| == |old(ranks)| && called.phase == phase
              && ok == (!Lost(w, rpc) && AllOk(|w.ranks|, called.replies))
              && Current() == if ok then called.(sleepingTags := left, executorSleeping := left != {}) else called
    {
      var lost := CollectiveRpc(WAKE_UP(tags), rpc);
      ok := !lost && AllOk(|ranks|, replies);
      if ok {
        sleepingTags := if tags.None? then {} else sleepingTags - set tag | tag in tags.value;
        executorSleeping := sleepingTags != {};
      }
    }

    /** An exception of the wake-up: it ends the loop under `_wake`, and a client is only told. */
    method WakeUpRaises(waker: Waker)
      modifies this`state, this`phase
      ensures Current() == if waker == Request then old(Current()).(phase := Crashed, state := SLEEPING)
                           else old(Current()).(phase := Free)
    {
      if waker == Request {
        state := SLEEPING;
      }
      phase := if waker == Request then Crashed else Free;
    }

    /** What follows the executor's wake-up. */
    method ResumeWhenAwake(waker: Waker, resume: Resume)
      modifies this`state, this`phase, this`paused
      ensures Current() == AfterWakeUp(old(Current()), waker, resume)
    {
      if !executorSleeping && resume.Raises? {
        WakeUpRaises(waker);
        return;
      }
      if !executorSleeping {
        paused := paused && resume.Ignored?;
      }
      if waker == Request {
        state := ACTIVE;
      }
      phase := Free;
    }

    method WakeRanks(waker: Waker, tags: Option<seq<string>>, rpc: Rpc, resume: Resume) returns (ok: bool)
      requires phase == Waking(waker, tags) && replies == map[]
      modifies this
      ensures (Current(), ok) == Ended(old(Current()), rpc, resume)
    {
      WakingEnds(Current(), waker, tags, rpc, resume);
      ok := ExecutorWakeUp(waker, tags, rpc);
      if ok {
        ResumeWhenAwake(waker, resume);
      } else {
        WakeUpRaises(waker);
      }
    }

    /** `EngineCore.wake_up`, by `_wake` or by a client; false if an RPC failed. */
    method WakeUp(waker: Waker, tags: Option<seq<string>>, rpc: Rpc, resume: Resume) returns (ok: bool)
      requires phase == Free
      modifies this
      ensures (Current(), ok) == WakeCall(old(Current()), waker, tags, rpc, resume)
    {
      if waker == Request {
        state := WAKING;
      }
      var asked := Asked(tags);
      if asked == Some([]) || ReturnsEarly(executorSleeping, sleepingTags, asked) {
        ok := true;
        ResumeWhenAwake(waker, resume);
      } else {
        replies, phase := map[], Waking(waker, asked);
        ok := WakeRanks(waker, asked, rpc, resume);
      }
    }
  }
}
