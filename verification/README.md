# Sleep, respawn and shape logic of the vLLM SM75 overlay, verified

This project models the parts of the repository where a mistake loses model weights, wedges the server or
computes on the wrong elements, and proves what they promise.

| file | what it models |
|---|---|
| `DiskSnapshot.dfy` | `DiskSnapshot`: streaming device regions through one reused buffer into a payload file, with short reads and writes, digests, bounded dirty data and a commit order; restoring a region |
| `DiskSleep.dfy` | `DiskSleepBackend`: one worker's prepare, cancel, suspend and (tagged) resume, with a fault possible at every primitive |
| `TwoPhaseSleep.dfy` | `AutoSleepController._sleep` and `_wake` over all tensor-parallel ranks: two phases, explicit rollback, pauses that complete at once or are deferred to an idle callback, wake-ups by requests and by clients, clients that put the engine to sleep themselves, any rank order, any fault, any lost RPC |
| `AutoSleepTimer.dfy` | the controller's timer threads, pokes, idle callbacks and message hooks, together with the engine's idle loop; every access of the shared timer slot is a step |
| `SleepViews.dfy` | the two modules above see one controller: each call over the ranks ends as the timer's view is told |
| `RespawnGate.dfy` | the deep-sleep respawn gate shared by all request coroutines |
| `RespawnRetry.dfy` | one respawn task: attempts, reaps, GPU-memory waits, backoff, and its time budget |
| `CudaGraph.dfy` | resolution of the CUDA-graph mode and capture sizes, and the second, independent computation of the rounded sizes |
| `NestedConfig.dfy` | nested configuration overrides, merged in place into a tree of configuration objects |
| `Collectives.dfy` | gathering and scattering tensors along an axis around NCCL's collectives on the first axis |
| `NodeRanks.dfy` | inferring data-parallel ranks and local sizes from node ranks |
| `Prelude.dfy` | datatypes shared by the others |

Code that updates objects or buffers step by step is a class or a method over arrays, proved equal to a
function of the old state; what the source promises is proved of these functions, over whole runs where the
source is a protocol. A run is any sequence of steps, so a theorem about runs covers every interleaving.

Assumptions, each visible as a contract, a step or a datatype:

- Every primitive (`create_and_map`, `unmap_and_release`, memcpy, a file operation, one rank's RPC) takes full
  effect or raises without effect. The unmap that compensates a failed restore succeeds.
- SHA-256 is ideal: `Digest` is a free constructor, so two messages with one digest are equal.
- A file may accept or deliver fewer bytes than asked; a write that accepts none raises.
- NCCL's all-gather concatenates, and its reduce-scatter deals out the sum, along the first axis.
- In the worker, what runs before or after the backend's call may raise too (`docker/speculative/vllm/v1/worker/gpu_worker.py:245-304`).
- `_prepare_disk_worker` and `_cancel_disk_worker` look the backend up with `_get_sleep_mode_backend()`
  (`vllm/v1/engine/auto_sleep.py:272` and `:280`), which the worker in this repository does not define; it has the
  property `sleep_mode_backend` (`docker/speculative/vllm/v1/worker/gpu_worker.py:233-243`), and its base class is not
  part of this model. The lookup may fail in every preparation; what a preparation found, its cancellation finds. If
  it fails on every rank, no disk sleep passes its first phase (`TwoPhaseSleep.MissingBackendNeverSleeps`).
- `pause_scheduler` may raise before or after it has set the pause state; `resume_scheduler` may, in every wake-up,
  raise or return without resuming, as it does under data parallelism while a pause is in flight or while engines
  step (`vllm/v1/engine/core.py:2197-2207`).
- The executor is not part of this model. It sleeps under the tags "weights" and "kv_cache" until none is left, its
  wake-up returns early unless it sleeps under the tags asked for, and allocations carry these tags
  (`docker/speculative/vllm/v1/worker/gpu_worker.py:502` and `:762`).
- A successful `respawn_engine()` clears `engine_sleeping`.
- Time is a real number, and any time may pass between two steps.
- The order of attention support is NEVER, UNIFORM_SINGLE_TOKEN_DECODE, UNIFORM_BATCH, ALWAYS;
  `vllm/v1/attention/backend.py` is not part of this model.

Where the code does less than its surroundings suggest, the exact condition is proved:

- A snapshot that `prepare` retains is reused as it is. A sleep and wake on it restores the current bytes if and
  only if it was taken of them (`DiskSleep.CycleRestoresIffFresh`).
- If the cancellation RPC raises part way, a snapshot stays on exactly the unreached ranks that had taken one
  (`TwoPhaseSleep.LostCancellation`).
- Ranks agree with the scheduler throughout a run, whatever clients do, if and only if no wake-up resumes while a
  suspension is outstanding, one that was deferred and has not begun, or has failed where the controller does not
  hear of it (`TwoPhaseSleep.RanksAgreeIff`). As long as no client puts the engine to sleep itself, that cannot
  happen when `_pause_complete()` is true, and the next request can bring it about when it is false
  (`TwoPhaseSleep.PauseDecidesIff`). After a deferred suspension the next request is safe if and only if the
  suspension reached every rank and succeeded there (`TwoPhaseSleep.DeferredSleepIsSafeIff`), after a client's own
  sleep if and only if that succeeded on every rank or left each as it was (`TwoPhaseSleep.ClientSleepIsSafeIff`). A
  callback that outlives an early wake-up unmaps memory that is in use (`TwoPhaseSleep.StaleSuspensionUnmaps`).
- A hook ends the main loop at the timer slot if and only if a timer thread empties the slot between the hook's test
  or store and its use (`AutoSleepTimer.HookRaisesIffCleared`), which is possible wherever a timer is cancelled, and
  in arming exactly while some thread has not yet emptied it (`AutoSleepTimer.WhereHooksMayRaise`). With any
  configuration, some run ends so (`AutoSleepTimer.ArrivalCanRaise`).
- A request that waited in the gate finds the engine awake if and only if every sleep episode that began since its
  task's own cold start has been ended by a later one (`RespawnGate.PassesAwakeIff`); a run in which it does not is
  `RespawnGate.LateWaiterPassesAsleep`.
- The size fallback makes the captured rows before and after resolution differ if and only if no size's rounding
  fits (`CudaGraph.RowsSurviveAdjustIff`). It never tells the support check from the later check: these agree if and
  only if accepted sizes are not rounded to a larger multiple for sequence parallelism
  (`CudaGraph.GuardSurvivesResolutionIff`), and always for the runner that installs the adapter
  (`CudaGraph.GuardSurvivesV2`).
- Two nested overrides compose on every tree if and only if none has a leaf where the later one has a dict
  (`NestedConfig.ComposesIffNoClash`).
- The inferred node intervals tile the data-parallel ranks if and only if a node's workers make up whole ranks,
  and match the ranks that have workers on the node if and only if one of the two sizes divides the other
  (`NodeRanks.TilesIff`, `NodeRanks.AssignedAsHostedIff`).
- `reduce_scatter` is right along an axis, for all tensors of a shape, if and only if the axis is the first or the
  second, or the moves keep the shape and leave nothing to move: no element, or one place on every axis up to this
  one (`Collectives.ScatterIsRightIff`, and for the shape alone `Collectives.ScatterShapeRightIff`).

## Model

| member | source | states |
|---|---|---|
| DiskSnapshot.EntriesTile | vllm/device_allocator/disk_snapshot.py:54-85 | entry offsets are prefix sums from 0 that end at the payload's length, with each region's address, size, tag and digest |
| DiskSnapshot.RoundTrip | vllm/device_allocator/disk_snapshot.py:117-136 | with distinct addresses, what a restore accepts from the untouched payload for a region is exactly what was saved of it |
| DiskSnapshot.VerifiesIffUnaltered | vllm/device_allocator/disk_snapshot.py:117-136 | a restore accepts a region if and only if the file has its full length and the region's bytes in it are unaltered |
| DiskSnapshot.OnlySavedBytesVerify | vllm/device_allocator/disk_snapshot.py:135-136 | whatever the payload holds, a restore accepts the saved bytes or nothing |
| DiskSnapshot.FindEntryFinds | vllm/device_allocator/disk_snapshot.py:117 | the search finds the first entry with an address |
| DiskSnapshot.FoundIffSaved | vllm/device_allocator/disk_snapshot.py:117 | an entry is found for an address if and only if a region with it was saved |
| DiskSnapshot.WellLoggedThroughout | vllm/device_allocator/disk_snapshot.py:72-99 | a well-logged save has, after every event, fewer unsynced bytes than the bound, and creates its manifest only when all it describes is written and synced |
| DiskSnapshot.WriteOnce | vllm/device_allocator/disk_snapshot.py:67-70 | one write puts a nonempty prefix of the data behind what is there, or raises |
| DiskSnapshot.WriteChunk | vllm/device_allocator/disk_snapshot.py:65-70 | however short the writes, the whole chunk ends up behind what was there |
| DiskSnapshot.SyncWhenDirty | vllm/device_allocator/disk_snapshot.py:72-76 | fewer than 64 MiB are unsynced afterwards |
| DiskSnapshot.SaveChunk | vllm/device_allocator/disk_snapshot.py:61-76 | a chunk goes through the buffer into the digest and the file; unsynced bytes stay below 64 MiB plus one buffer |
| DiskSnapshot.SaveRegion | vllm/device_allocator/disk_snapshot.py:56-85 | a region is streamed completely, its entry has the digest of its bytes and the offset where they begin; sizes of 0 or less raise |
| DiskSnapshot.SaveRegions | vllm/device_allocator/disk_snapshot.py:56-85 | all regions in order: the entries and the payload are those of the regions' bytes |
| DiskSnapshot.SavePayload | vllm/device_allocator/disk_snapshot.py:52-87 | the payload is presized, filled and completely synced |
| DiskSnapshot.SaveManifest | vllm/device_allocator/disk_snapshot.py:88-105 | the manifest follows the synced payload, is synced itself, and the directory after it |
| DiskSnapshot.Save | vllm/device_allocator/disk_snapshot.py:32-109 | a snapshot is returned only fully committed and describing the regions' bytes; a failure leaves no directory unless its removal failed; dirty data stay bounded in every outcome; the device is never written; without I/O errors it succeeds if and only if path, buffer, space and regions are valid |
| DiskSnapshot.ReadChunk | vllm/device_allocator/disk_snapshot.py:125-131 | however short the reads, the front of the buffer is filled with the file's next bytes, or it raises |
| DiskSnapshot.RestoreChunk | vllm/device_allocator/disk_snapshot.py:124-134 | one chunk reaches device and digest |
| DiskSnapshot.RestoreChunks | vllm/device_allocator/disk_snapshot.py:122-134 | the region's bytes in the file are on the device and in the digest; nothing outside the region changes, also on failure |
| DiskSnapshot.RestoreRegion | vllm/device_allocator/disk_snapshot.py:111-136 | it returns normally only if the payload is complete and the digest matches, and then those bytes are on the device; a wrong length is refused before anything is written; no outcome writes outside the region |
| DiskSnapshot.RestoreRegions | vllm/device_allocator/disk_snapshot.py:111-136 | restoring saved regions in any order and number of times puts the saved bytes there, also where regions overlap |
| DiskSnapshot.SaveThenRestore | vllm/device_allocator/disk_snapshot.py:32-136 | saving and then restoring onto a device that holds anything gives the saved bytes at every region, for any two buffer lengths and any short reads and writes |
| DiskSleep.DiskSleepBackend.Regions | vllm/device_allocator/disk_sleep.py:70-74 | the saved regions are the awake allocations outside the KV cache, in order |
| DiskSleep.DiskSleepBackend.Prepare | vllm/device_allocator/disk_sleep.py:61-86 | the new state is AfterPrepare of the old one: a retained snapshot is kept, otherwise one is taken of the awake model allocations, or it raises unchanged |
| DiskSleep.DiskSleepBackend.CancelPreparation | vllm/device_allocator/disk_sleep.py:88-93 | the new state is AfterCancel of the old one: refused unless RUNNING; the snapshot is dropped even if its removal raises |
| DiskSleep.DiskSleepBackend.Suspend | vllm/device_allocator/disk_sleep.py:95-113 | the new state is AfterSuspend of the old one, for a fault in the save or at any unmap |
| DiskSleep.DiskSleepBackend.Resume | vllm/device_allocator/disk_sleep.py:115-160 | the new state is AfterResume of the old one, for any tags and a fault at any primitive |
| DiskSleep.PrepareKeeps | vllm/device_allocator/disk_sleep.py:61-86 | prepare keeps the invariant, touches no allocation, and succeeds exactly when a snapshot is held afterwards |
| DiskSleep.SuspendKeeps | vllm/device_allocator/disk_sleep.py:95-113 | suspend keeps the invariant under every fault; normal return means SUSPENDED with a snapshot and, from RUNNING, all unmapped; if it is still RUNNING nothing changed |
| DiskSleep.ResumeKeeps | vllm/device_allocator/disk_sleep.py:115-160 | resume keeps the invariant under every fault and tag list; what was awake stays as it was; the snapshot goes only when RUNNING is reached |
| DiskSleep.OnlyVerifiedBytesWake | vllm/device_allocator/disk_sleep.py:127-147 | for any payload, tags and fault, a saved allocation becomes awake only with bytes whose length and digest verified |
| DiskSleep.RunKeeps | vllm/device_allocator/disk_sleep.py:61-160 | over every run of calls, faults and payload alterations: RUNNING means nothing asleep, otherwise a snapshot describing the model is held, and what is awake has the model's bytes |
| DiskSleep.NoLoss | vllm/device_allocator/disk_sleep.py:61-160 | in every run that leaves the payload alone, each model allocation is mapped with its bytes or held with them in the retained snapshot |
| DiskSleep.RecoversIffReadable | vllm/device_allocator/disk_sleep.py:115-160 | one undisturbed resume restores everything and drops the snapshot if and only if the payload verifies for every sleeping model allocation; otherwise it raises and can be retried |
| DiskSleep.EveryRunRecovers | vllm/device_allocator/disk_sleep.py:61-160 | after any run that leaves the payload alone, one undisturbed resume restores every byte |
| DiskSleep.CycleRestoresIffFresh | vllm/device_allocator/disk_sleep.py:63-64 | sleeping on a retained snapshot gives back the present bytes if and only if it was taken of them |
| TwoPhaseSleep.DiskSleepEngine.CollectiveRpc | vllm/v1/engine/auto_sleep.py:466-468 | an RPC runs on the ranks it reaches, and raises if it does not reach all; errors of the disk workers, also in looking their backend up, are answers |
| TwoPhaseSleep.DiskSleepEngine.Sleep | vllm/v1/engine/auto_sleep.py:461-504 | the controller's state, the flags and all ranks become those of SleepCall, for every plan of faults and every way the pause ends |
| TwoPhaseSleep.DiskSleepEngine.CancelPreparations | vllm/v1/engine/auto_sleep.py:467-472 | cancellation on every rank, and back to ACTIVE unless the RPC raised |
| TwoPhaseSleep.DiskSleepEngine.EngineSleep | vllm/v1/engine/core.py:925-961 | the scheduler is paused, and the ranks are suspended at once, with the rollback when that fails, or left to a registered callback |
| TwoPhaseSleep.DiskSleepEngine.ExecutorSleep | vllm/v1/engine/core.py:944-948 | every rank is suspended, and only if all succeed the executor counts as asleep |
| TwoPhaseSleep.DiskSleepEngine.IdleCallback | vllm/v1/engine/core.py:950-961 | the deferred suspension: an exception of `_finish_pause` ends the loop, one of the executor's sleep is unheard |
| TwoPhaseSleep.DiskSleepEngine.ClientSleep | vllm/v1/engine/core.py:925-961 | `engine.sleep` called by a client at any level: nothing is prepared or rolled back, and a failure is only reported |
| TwoPhaseSleep.DiskSleepEngine.Rollback | vllm/v1/engine/auto_sleep.py:477-498 | the explicit wake-up of every rank, then the scheduler; SLEEPING and as paused as it was if any of it raises |
| TwoPhaseSleep.DiskSleepEngine.WakeUp | vllm/v1/engine/core.py:963-979 | the wake-up of all or some tags by a request or a client; once the executor is not asleep, whether or not it asked the ranks, the scheduler is told to resume, which may raise or do nothing |
| TwoPhaseSleep.StartedInv | vllm/v1/engine/auto_sleep.py:293-315 | an engine that has just started satisfies the invariant, so the results about runs hold from there |
| TwoPhaseSleep.NextKeeps | vllm/v1/engine/core.py:925-979 | every step, by any rank in any phase with any fault and by any client, keeps the invariant of all ranks and flags, unless it is a wake-up that resumes while a suspension is outstanding |
| TwoPhaseSleep.RanksAgreeIff | vllm/v1/engine/core.py:925-979 | in every run, also with clients that put the engine to sleep themselves, an unpaused scheduler finds all ranks resident, RUNNING, without a snapshot and with no suspension pending throughout if and only if no wake-up ever resumes while a suspension is outstanding |
| TwoPhaseSleep.RanksAgreeWithoutDeferral | vllm/v1/engine/core.py:863-891 | where pauses complete in their call and no client puts the engine to sleep itself, ranks agree in every run, with any faults anywhere |
| TwoPhaseSleep.PauseDecidesIff | vllm/v1/engine/core.py:2044-2057 | what `_pause_complete()` returns decides: ranks agree in every continuation without another deferral or a client's own sleep if and only if it is true |
| TwoPhaseSleep.UnmapOnlyAfterCommit | vllm/v1/engine/auto_sleep.py:462-476 | in every run in which no client puts the engine to sleep itself and no wake-up comes early, nothing is unmapped on any rank before every rank holds a snapshot of what the model holds, and the scheduler is paused |
| TwoPhaseSleep.StaleSuspensionUnmaps | vllm/v1/engine/core.py:2044-2050 | a request before the deferred suspension resumes the scheduler and leaves the callback registered, which later unmaps every allocation of the ranks it reaches |
| TwoPhaseSleep.SleepCallOutcome | vllm/v1/engine/auto_sleep.py:461-504 | the engine is asleep afterwards if and only if every rank prepared, the pause completed and every rank suspended; it waits if and only if every rank prepared and the pause was deferred; otherwise, unless an exception ends the loop, every rank is RUNNING with its bytes and no snapshot, and the scheduler runs unless the rollback's `resume_scheduler` did nothing |
| TwoPhaseSleep.NothingPreparedNothingTouched | vllm/v1/engine/auto_sleep.py:466-472 | if no rank can prepare, no rank is touched, and the engine goes on serving or an RPC that raises ends the loop |
| TwoPhaseSleep.MissingBackendNeverSleeps | vllm/v1/engine/auto_sleep.py:268-284 | in particular if the workers do not have what their backend is looked up with |
| TwoPhaseSleep.FinishCallOutcome | vllm/v1/engine/core.py:950-961 | a deferred suspension leaves the engine asleep if and only if it reached every rank and none raised; otherwise it stays outstanding |
| TwoPhaseSleep.DeferredSleepIsSafeIff | vllm/v1/engine/core.py:950-979 | after a deferred suspension, the next request finds ranks that agree if and only if the suspension reached every rank and succeeded on each |
| TwoPhaseSleep.UnheardFailureUnmaps | vllm/v1/engine/core.py:958-979 | after one that failed unheard, the next request runs the scheduler without asking a rank, and all memory is there if and only if nothing had been unmapped |
| TwoPhaseSleep.ClientSleepIsSafeIff | vllm/v1/engine/core.py:944-948 | after a client's own sleep, the next request finds ranks that agree if and only if every rank was suspended, or each is RUNNING without a snapshot |
| TwoPhaseSleep.RollBackOutcome | vllm/v1/engine/auto_sleep.py:477-498 | rollback returns every rank with its bytes before the scheduler resumes, or ends SLEEPING and as paused as before; undisturbed, the ranks come back if and only if every payload still verifies |
| TwoPhaseSleep.WakeCallOutcome | vllm/v1/engine/auto_sleep.py:532-560 | with no pause pending, waking resumes the scheduler exactly when every rank is back and `resume_scheduler` resumes; a failed wake-up leaves it paused |
| TwoPhaseSleep.TaggedWakeOutcome | vllm/v1/engine/core.py:963-979 | a client's wake-up of some tags resumes the scheduler exactly if it succeeds and no tag is left, and then every rank is back |
| TwoPhaseSleep.NoRunLosesTheModel | vllm/v1/engine/auto_sleep.py:461-566 | wherever a run without altered payloads and early wake-ups ends, every sleeping rank can be woken with the model's bytes, and from sleep one undisturbed wake-up does it |
| TwoPhaseSleep.SleepCallIsARun | vllm/v1/engine/auto_sleep.py:461-504 | every call of `_sleep` is a run of the step system, so what holds of runs holds inside it |
| TwoPhaseSleep.FinishCallIsARun | vllm/v1/engine/core.py:950-961 | the same of a deferred suspension |
| TwoPhaseSleep.ClientSleepCallIsARun | vllm/v1/engine/core.py:925-961 | the same of a client's own sleep |
| TwoPhaseSleep.WakeCallIsARun | vllm/v1/engine/auto_sleep.py:532-560 | the same of a wake-up |
| TwoPhaseSleep.LostCancellation | vllm/v1/engine/auto_sleep.py:467-468 | a cancellation RPC that raises leaves a snapshot on exactly the unreached ranks that had taken one |
| AutoSleepTimer.AutoSleepController.WhenIdle | vllm/v1/engine/auto_sleep.py:334-361 | `on_idle`: re-registers, notices an outside wake-up, and arms a timer with a fresh window exactly when ACTIVE, untimed, awake and running; it raises where the accesses of Accesses do |
| AutoSleepTimer.AutoSleepController.OnRequestArrival | vllm/v1/engine/auto_sleep.py:363-376 | the clock is refreshed, the timer cancelled access by access, and the engine woken if asleep |
| AutoSleepTimer.AutoSleepController.OnWakeupPoke | vllm/v1/engine/auto_sleep.py:378-402 | every decision is taken anew; an early poke re-arms for the rest of the window |
| AutoSleepTimer.AutoSleepController.CancelTimer | vllm/v1/engine/auto_sleep.py:412-415 | test, cancel and clear as three accesses, with whatever other threads do before each; it raises if the slot is empty at the second |
| AutoSleepTimer.AutoSleepController.ArmTimer | vllm/v1/engine/auto_sleep.py:358-360 | store, mark and start as three accesses; it raises if the slot is empty at the second or third |
| AutoSleepTimer.AutoSleepController.PokeClears | vllm/v1/engine/auto_sleep.py:451 | the timer thread empties the slot, whichever timer is in it by then |
| AutoSleepTimer.AutoSleepController.PokePuts | vllm/v1/engine/auto_sleep.py:452 | and then queues WAKEUP |
| AutoSleepTimer.AutoSleepController.DeepSleepExit | vllm/v1/engine/auto_sleep.py:506-530 | without an exit path it stays ACTIVE, otherwise EXITED and not running |
| AutoSleepTimer.AutoSleepController.Sleep | vllm/v1/engine/auto_sleep.py:461-504 | the ways `_sleep` ends, as the idle loop sees them: asleep, deferred, awake again though maybe paused, or raised |
| AutoSleepTimer.AutoSleepController.NotifyIdleStateCallbacks | vllm/v1/engine/core.py:1530-1538 | one pass over a snapshot of the callbacks, in order, up to the first that raises |
| AutoSleepTimer.NextKeeps | vllm/v1/engine/auto_sleep.py:334-452 | every access of the slot and every other step of either thread keeps the invariant, in particular that a tracked timer is still going to poke |
| AutoSleepTimer.NoLostWakeup | vllm/v1/engine/core.py:1484-1497 | in every run, a main loop blocked while ACTIVE, awake, running and idle has a live timer thread or a queued WAKEUP, wherever in the hooks the timer threads come between |
| AutoSleepTimer.HookRaisesIffCleared | vllm/v1/engine/auto_sleep.py:412-415 | a hook raises in its accesses if and only if the slot is emptied between its test or store and its use of what was there |
| AutoSleepTimer.WhereHooksMayRaise | vllm/v1/engine/auto_sleep.py:448-452 | in every run, cancelling a timer that was found can raise, and arming can raise if and only if some timer thread has not yet emptied the slot |
| AutoSleepTimer.ArrivalCanRaise | vllm/v1/engine/auto_sleep.py:368-369 | with any configuration, in some run a request arrives just as the timer fires, and cancelling it ends the main loop |
| AutoSleepTimer.SleepsIffIdleLongEnough | vllm/v1/engine/auto_sleep.py:384-402 | in every run, a handled message enters sleep or exit if and only if it is a WAKEUP, the engine is ACTIVE, awake, running and without requests, and the whole timeout has elapsed since the latest arrival and the latest arming |
| AutoSleepTimer.TrackedTimerPutsToSleep | vllm/v1/engine/auto_sleep.py:356-402 | after any run, and any continuation without arrival or arming, once the tracked timer is due the next WAKEUP on an idle engine enters sleep or exit |
| AutoSleepTimer.BlockedLoopFallsAsleep | vllm/v1/engine/auto_sleep.py:358-402 | from any run that leaves the loop blocked and idle, any timer thread that is left, tracked or not, can still bring it to sleep or exit: after the window it pokes and is heard |
| AutoSleepTimer.IdleEngineFallsAsleep | vllm/v1/engine/auto_sleep.py:334-402 | from any run that leaves the engine idle, every continuation without arrivals, shutdown and client sleeps in which all timer threads finish, everything queued is handled and the loop blocks again has entered sleep or exit |
| AutoSleepTimer.EarlyPokeRearms | vllm/v1/engine/auto_sleep.py:390-398 | in every run, an early poke on an idle engine leaves the window as it is and a live timer due when it ends and a millisecond has passed; it raises if and only if the slot is emptied before a use |
| SleepViews.SleepViewsAgree | vllm/v1/engine/auto_sleep.py:461-504 | `_sleep` over all ranks ends as the outcome that the timer's view is given, with the same state, sleep flag and pending callbacks |
| SleepViews.FinishViewsAgree | vllm/v1/engine/core.py:2031-2033 | the same of the idle callback of a deferred pause, also after an early wake-up |
| SleepViews.WakeViewsAgree | vllm/v1/engine/auto_sleep.py:371-372 | the same of a request that finds the engine asleep |
| SleepViews.ClientSleepViewsAgree | vllm/v1/engine/core.py:925-961 | the same of a client's own sleep, at any level and however its pause ends |
| SleepViews.ClientWakeViewsAgree | vllm/v1/engine/core.py:963-979 | the same of a client's wake-up, of all or some tags |
| RespawnGate.AsyncLLM.AddRequest | vllm/v1/engine/async_llm.py:445-449 | a request enters the gate exactly when one of the flags is set |
| RespawnGate.AsyncLLM.AwaitDeepSleepRespawn | vllm/v1/engine/async_llm.py:1327-1360 | under the lock: leave if the gate has opened, join the unfinished task, or replace a missing or finished one |
| RespawnGate.AsyncLLM.ClearIfDone | vllm/v1/engine/async_llm.py:1361-1365 | the slot is cleared only by who saw its own task finished |
| RespawnGate.AsyncLLM.WaiterResumes | vllm/v1/engine/async_llm.py:1357-1365 | a waiter takes its task's outcome |
| RespawnGate.AsyncLLM.WaiterCancelled | vllm/v1/engine/async_llm.py:1357-1365 | a cancelled waiter leaves the shielded task alone |
| RespawnGate.AsyncLLM.RespawnEngineReturned | vllm/v1/engine/core_client.py:1323-1353 | a successful respawn ends the sleep episode |
| RespawnGate.AsyncLLM.RespawnTaskEnds | vllm/v1/engine/async_llm.py:1437-1454 | success clears the pending flag, failure sets it |
| RespawnGate.AsyncLLM.DeepSleepExiting | vllm/v1/engine/core_client.py:1204-1213 | the exit announcement of the engine starts a sleep episode |
| RespawnGate.NextKeeps | vllm/v1/engine/async_llm.py:1308-1454 | every step of any coroutine or task keeps the gate's invariant |
| RespawnGate.SingleFlight | vllm/v1/engine/async_llm.py:1327-1365 | in every run at most one task is unfinished and it is in the slot; cold starts never exceed sleep episodes; tasks never exceed cold starts plus failures plus one |
| RespawnGate.GateSound | vllm/v1/engine/async_llm.py:1323-1365 | a request passes only by seeing both flags clear or by a success of the task it waited for, after it began to wait |
| RespawnGate.PassesAwakeIff | vllm/v1/engine/async_llm.py:1357-1365 | a waiter that is let through finds the engine awake if and only if every sleep episode since its task's own cold start has been ended by a later cold start; in particular if none began |
| RespawnGate.LateWaiterPassesAsleep | vllm/v1/engine/async_llm.py:1357-1365 | in some run a waiter is let through to an engine that sleeps again |
| RespawnGate.PendingUntilSuccess | vllm/v1/engine/async_llm.py:1437-1448 | once a task has failed, the gate stays armed through every run in which no task succeeds, and every request that takes the lock then waits |
| RespawnGate.NextRequestIsServed | vllm/v1/engine/async_llm.py:1332-1345 | after any history, the next request finds the gate open or waits for a task that is still running, started for it exactly when none was |
| RespawnGate.CancelLeavesTheTask | vllm/v1/engine/async_llm.py:1357-1365 | cancelling a waiter leaves the task running and in the slot |
| RespawnRetry.EnoughFree | vllm/v1/engine/async_llm.py:1494-1521 | enough if and only if every device line that parses has room |
| RespawnRetry.WaitForGpuMemory | vllm/v1/engine/async_llm.py:1523-1540 | the polling loop ends when and how Wait says |
| RespawnRetry.WaitSucceedsIffPollFinds | vllm/v1/engine/async_llm.py:1525-1540 | the wait succeeds if and only if some poll finds room, or cannot tell, with no earlier poll ending at or past the deadline, and ends with that poll |
| RespawnRetry.WaitBounded | vllm/v1/engine/async_llm.py:1523-1540 | the wait ends by the deadline plus one poll interval and one query; it fails only past the deadline |
| RespawnRetry.AsyncLLM.CleanUp | vllm/v1/engine/async_llm.py:1397-1407 | before a retry, a reap and then a wait; before the first attempt, nothing |
| RespawnRetry.AsyncLLM.RespawnEngineWithRetries | vllm/v1/engine/async_llm.py:1367-1454 | outcome, end time and event log are those of Retry, and the pending flag is set exactly on failure |
| RespawnRetry.CallsBounded | vllm/v1/engine/async_llm.py:1386-1396 | at most MAX_ATTEMPTS calls of `respawn_engine()`, and fewer without success only when the budget is spent |
| RespawnRetry.OkIffLastCallSucceeded | vllm/v1/engine/async_llm.py:1410-1438 | a run succeeds if and only if its last event is a successful call |
| RespawnRetry.RunInOrder | vllm/v1/engine/async_llm.py:1384-1431 | a reap and a wait precede every call but the first, every attempt begins before the deadline, retries follow the pause after a failed call, nothing follows a success |
| RespawnRetry.RunBounded | vllm/v1/engine/async_llm.py:1384-1454 | for any delays within their limits, a run ends before its budget plus one reap, one GPU wait with a poll and a query, one attempt timeout and one backoff |
| RespawnRetry.RunIsOneTask | vllm/v1/engine/async_llm.py:1367-1454 | a run of the retry loop is one task of the gate: success is one cold start and opens it, anything else is one failure and leaves it armed |
| CudaGraph.RoundUpIsLeast | vllm/config/compilation.py:1572-1578 | rounding up gives the least multiple that covers a size |
| CudaGraph.CompilationConfig.AdjustCudagraphSizesForSpecDecode | vllm/config/compilation.py:1549-1594 | the new sizes and maximum are those of Adjust, or it raises with nothing changed |
| CudaGraph.CompilationConfig.RoundedSizes | vllm/config/compilation.py:1572-1578 | the set of the roundings that fit |
| CudaGraph.MultipleIsLcm | vllm/config/compilation.py:1552-1566 | under sequence parallelism the multiple exists if and only if one length divides the other, and is their least common multiple |
| CudaGraph.NewSizesCover | vllm/config/compilation.py:1572-1594 | the new list is nonempty, strictly ascending, within the old maximum, of multiples; every size that fits keeps its least covering multiple; nothing else is in it unless none fits |
| CudaGraph.NewSizesFails | vllm/config/compilation.py:1580-1591 | the rewrite raises if and only if no rounding and not the multiple itself fits |
| CudaGraph.AdjustIdempotent | vllm/config/compilation.py:1549-1594 | a second application changes nothing |
| CudaGraph.CompilationConfig.DowngradeMode | vllm/config/compilation.py:1403-1489 | the chain of downgrades ends in Downgraded |
| CudaGraph.CompilationConfig.ResolveCudagraphModeAndSizes | vllm/config/compilation.py:1384-1547 | configuration and result are those of Resolve, including the sizes that a Mamba error leaves rewritten |
| CudaGraph.DowngradedIsSupported | vllm/config/compilation.py:1403-1489 | downgrades end in a supported mode, leave a mode alone if and only if it is supported, and raise only for FULL on a backend that supports none |
| CudaGraph.DowngradeIsExact | vllm/config/compilation.py:1403-1489 | routine by routine: full graphs exactly where asked for and supported, piecewise graphs after a downgrade exactly when attention is compiled piecewise and they can be captured |
| CudaGraph.SafetyCheckNeverFires | vllm/config/compilation.py:1491-1503 | the check after the downgrades never raises |
| CudaGraph.ResolveIsSound | vllm/config/compilation.py:1384-1547 | a normal return stores the returned mode, and the backend supports it |
| CudaGraph.ResolveIsStable | vllm/config/compilation.py:1384-1547 | a second call with the same arguments, after a return or an error, changes nothing and has the same outcome |
| CudaGraph.RowsAreRoundedSizes | docker/speculative/sm75_fa2_graph.py:26-33 | for any sizes, the captured rows are the positive rounded sizes up to eight queries |
| CudaGraph.PositiveSizesRoundAboveZero | docker/speculative/sm75_fa2_graph.py:30-32 | the bound from below drops nothing if and only if every size that fits is positive |
| CudaGraph.RowsSurviveAdjustIff | docker/speculative/sm75_fa2_graph.py:26-40 | captured rows before and after the adjustment are equal if and only if some rounding fits; otherwise none becomes one |
| CudaGraph.GuardSurvivesResolutionIff | docker/speculative/sm75_fa2_graph.py:68-83 | the support check on the configured sizes and the later check on the resolved ones agree if and only if accepted sizes are not rounded to a larger multiple for sequence parallelism |
| CudaGraph.GuardSurvivesV2 | docker/speculative/vllm/v1/worker/gpu/model_runner.py:733-743 | the runner that installs the adapter has the sizes left alone, so the two checks always agree |
| CudaGraph.CapturesOneRequestIff | docker/speculative/sm75_fa2_graph.py:83 | the guard in terms of the sizes |
| NestedConfig.PathLookup | vllm/config/model.py:480-506 | what stands at any path after the update, in terms of what the override and the original have there |
| NestedConfig.SiblingsKept | vllm/config/model.py:486-506 | keys beside overridden ones keep their values at any depth |
| NestedConfig.UpdateIdempotent | vllm/config/model.py:480-506 | the same overrides again change nothing |
| NestedConfig.ComposesIffNoClash | vllm/config/model.py:480-506 | overriding twice equals overriding once with the combined overrides, on every tree, if and only if the two do not clash |
| NestedConfig.OneMoreKey | vllm/config/model.py:486 | keys can be handled one after another in any order |
| NestedConfig.ConfigNode.UpdateNested | vllm/config/model.py:480-506 | the in-place loop over the items leaves the tree with the contents of Update, changes no object of the overrides and creates none |
| NestedConfig.ConfigNode.UpdateKey | vllm/config/model.py:487-506 | one item: a dict that meets a container descends and leaves every entry in its place; anything else becomes the entry itself, shared with the overrides from then on |
| NestedConfig.ConfigNode.Descend | vllm/config/model.py:494-500 | a recursive update changes the nested container and nothing beside it |
| NestedConfig.ConfigNode.SetItem | vllm/config/model.py:502-506 | one entry is replaced or added, by the value itself and not by a copy |
| NestedConfig.ConfigNode.ApplyOverride | vllm/config/model.py:515-523 | one top-level override: merge into a nested model configuration, raise if it is not a dict, else set whole |
| NestedConfig.ConfigNode.ApplyDictOverrides | vllm/config/model.py:508-523 | the overrides in their order, up to the first that raises |
| NestedConfig.ApplyOutcome | vllm/config/model.py:508-523 | each override takes effect on its own; the call raises exactly at the first non-dict override of a nested model configuration, with those before it applied |
| Collectives.Unravel | vllm/distributed/device_communicators/cuda_communicator.py:483-489 | row-major order: every place has an index in bounds |
| Collectives.UnravelRavel | vllm/distributed/device_communicators/cuda_communicator.py:483-489 | and every index in bounds one place: the two are inverse |
| Collectives.MergeAxes | vllm/distributed/device_communicators/cuda_communicator.py:485-489 | merging two neighbouring axes by reshape keeps the place of every element |
| Collectives.MoveDimAt | vllm/distributed/device_communicators/cuda_communicator.py:484 | moving the first axis keeps every element under its moved index |
| Collectives.AllGatherAt | vllm/distributed/device_communicators/cuda_communicator.py:476-489 | for any rank count, shape and axis, rank w's element j of the axis is at w * size + j, other indices unchanged |
| Collectives.AllGatherFirstAxis | vllm/distributed/device_communicators/cuda_communicator.py:455-489 | along the first axis the result is the plain concatenation |
| Collectives.CudaCommunicator.Gather | vllm/distributed/device_communicators/cuda_communicator.py:455-489 | the call fills its buffer and returns AllGather, negative axes counted from the end |
| Collectives.CudaCommunicator.Scatter | vllm/distributed/device_communicators/cuda_communicator.py:491-516 | the call returns ReduceScatter or fails its divisibility assertion |
| Collectives.ReduceScatterAt | vllm/distributed/device_communicators/cuda_communicator.py:491-516 | along axis 0 or 1, rank r gets its block of the elementwise sum |
| Collectives.ReduceScatterThenAllGather | vllm/distributed/device_communicators/cuda_communicator.py:455-516 | scattering and gathering again along axis 0 or 1 gives every rank the elementwise sum |
| Collectives.ReduceScatterTakes | vllm/distributed/device_communicators/cuda_communicator.py:491-516 | along any axis, every element of the result is the sum of the elements that the two moves bring there |
| Collectives.ScatterShapeRightIff | vllm/distributed/device_communicators/cuda_communicator.py:499-516 | along axis 2 and above, the result has the right shape if and only if the sizes of the shifted axes repeat |
| Collectives.ScatterIsRightIff | vllm/distributed/device_communicators/cuda_communicator.py:491-516 | the call is right along an axis, for all tensors of a shape on all ranks, if and only if the axis is the first or second, or the moves keep the shape and there is nothing to move |
| NodeRanks.EngineArgs.PlaceNode | vllm/engine/arg_utils.py:2280-2318 | the layout checks and the inferred rank and local size of a node |
| NodeRanks.EngineArgs.ChooseBalancing | vllm/engine/arg_utils.py:2319-2407 | the choice between external, hybrid and internal balancing, with its errors |
| NodeRanks.EngineArgs.InferDataParallel | vllm/engine/arg_utils.py:2262-2407 | the whole inference, every error before or after the fields it may already have set |
| NodeRanks.RanksInRange | vllm/engine/arg_utils.py:2303-2306 | inferred ranks begin at 0 and, with the local size, stay within the data-parallel size |
| NodeRanks.RanksMonotone | vllm/engine/arg_utils.py:2303-2306 | inferred ranks follow the order of the nodes |
| NodeRanks.TilesIff | vllm/engine/arg_utils.py:2303-2318 | the nodes' intervals tile the ranks exactly once if and only if a node's workers make up whole ranks |
| NodeRanks.RankSpansNodes | vllm/engine/arg_utils.py:2303-2306 | if whole nodes make up a rank, it is spanned by exactly that many consecutive nodes |
| NodeRanks.AssignedAsHostedIff | vllm/engine/arg_utils.py:2303-2318 | every node runs exactly the ranks with workers on it if and only if one of the two sizes divides the other |
| NodeRanks.InternalLaunchInfers | vllm/engine/arg_utils.py:2262-2407 | an internally balanced launch is accepted if and only if the nodes divide the world, and gives each node its inferred rank and local size |
| NodeRanks.LaunchRunsEveryRankOnceIff | vllm/engine/arg_utils.py:2262-2407 | from options to outcome: an accepted internal launch runs every rank on exactly one node if and only if a node's share is a whole number of ranks |
| NodeRanks.ExternalLaunchInfers | vllm/engine/arg_utils.py:2307-2357 | an externally balanced launch is accepted if and only if the nodes divide the world and there are several ranks of a mixture-of-experts model, and gives each node its inferred rank |

## Left out

- TwoPhaseSleep.DiskSleepEngine.Sleep: the disk target only; the reload target's weight reload and the KV cache's contents, which the engine invalidates on sleep, are not modelled.
- TwoPhaseSleep.SleepCallOutcome: says only `Crashed` when an RPC of the first phase or the rollback itself raises, because the exception then leaves the engine's main loop.
- TwoPhaseSleep.DiskSleepEngine.ClientSleep: that the callback of a deferred pause of level 0, which owes no suspension, may raise is not modelled.
- AutoSleepTimer.AutoSleepController.Sleep: a controller without configuration does nothing and is left out.
- RespawnGate.AsyncLLM.RespawnTaskEnds: a timed-out attempt whose worker thread keeps running is not modelled; an attempt has ended when its call has.
- RespawnRetry.RunBounded: sleeps and timeouts last exactly as long as asked, without scheduling delay.
- DiskSleep.DiskSleepBackend.Resume: the staging buffer is allocated or raises; the state RESUMING that this leaves behind is treated like SUSPENDED.
- DiskSnapshot.Save: the RAM-disk check of `_require_disk`, page-cache hints and the textual form of the manifest are not modelled.
- NestedConfig.ConfigNode.UpdateNested: overrides whose own values share a container, with each other or with the target, are not modelled; values are trees.
- NestedConfig.ConfigNode.ApplyOverride: attribute lookup is a map; properties and class attributes are not modelled.
- Collectives.CudaCommunicator.Scatter: `reduce_scatterv`, the symmetric-memory and ROCm variants are not modelled.
- CudaGraph.CapturesOneRequestIff: the other conditions of `supports` and `build` (device, data types, head sizes) are tests of configuration values and are left out, as is the per-shape wrapper dictionary.
- NodeRanks.EngineArgs.InferDataParallel: addresses, ports and the other parts of `create_engine_config` are plumbing.
- CUDA, cumem, NCCL, SHA-256 and file-system internals are foreign and appear only as contracts.
- `firefly_allreduce.py`, `custom_all_reduce.py`, `sm75_gdn_metadata.py`: their substance is in kernels or in a reference path that is not part of this model.
- Page-cache warming and its keeper thread, logging and metrics are performance hints.
- That EXITED is terminal is not claimed: a request arrival can set the controller back to ACTIVE.
