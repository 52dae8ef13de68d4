/**
  One worker's disk-backed sleep (vllm/device_allocator/disk_sleep.py).

  A `Rank` value is everything `DiskSleepBackend` decides on. The functions below say what
  each method makes of it, for every primitive that may raise; the class at the end of the
  file does it step by step. A payload may be altered behind the backend's back at any time.
 */
module DiskSleep {
  import opened Prelude
  import DS = DiskSnapshot

  const KV_CACHE: string := "kv_cache"

  datatype State = RUNNING | SUSPENDED | RESUMING

  /** Device memory behind one allocation. `Fresh` is mapped, with no particular contents. */
  datatype Memory = Unmapped | Fresh | Holding(bytes: seq<Byte>)

  datatype Allocation = Allocation(ptr: nat, tag: string, memory: Memory, isAsleep: bool) {
    predicate Model() { tag != KV_CACHE }
  }

  /** The committed manifest, and whatever the payload file holds by now. */
  datatype Snapshot = Snapshot(entries: seq<DS.Entry>, total: nat, payload: seq<Byte>)

  datatype Rank = Rank(state: State, snapshot: Option<Snapshot>, allocations: seq<Allocation>)

  /**
    The primitive that raises during one call, if any; `nth` counts allocations. `BeforeBackend` and
    `AfterBackend` are the worker's own code around the call of its backend.
   */
  datatype Fault =
    | NoFault
    | BeforeBackend
    | AfterBackend
    | AtSave
    | AtUnmap(nth: nat)
    | AtStaging
    | AtMap(nth: nat)
    | AtRestore(nth: nat)
    | AtSynchronize
    | AtRemove

  // ------------------------------------------------------------------
  // What each method does
  // ------------------------------------------------------------------

  function BytesOf(m: Memory): seq<Byte> { if m.Holding? then m.bytes else [] }

  function SavedImages(allocations: seq<Allocation>): seq<DS.Image> {
    if allocations == [] then []
    else
      var a := allocations[0];
      (if a.Model() && !a.isAsleep then [DS.Image(a.ptr, a.tag, BytesOf(a.memory))] else [])
      + SavedImages(allocations[1..])
  }

  function SnapshotOf(images: seq<DS.Image>): Snapshot {
    Snapshot(DS.Entries(images), |DS.Payload(images)|, DS.Payload(images))
  }

  /** `save` refuses a region without bytes. */
  predicate SaveRaises(images: seq<DS.Image>, fault: Fault) {
    fault.AtSave? || exists image <- images :: image.bytes == []
  }

  function AfterPrepare(r: Rank, fault: Fault): (Rank, bool) {
    var images := SavedImages(r.allocations);
    if r.snapshot.Some? then (r, true)
    else if SaveRaises(images, fault) then (r, false)
    else (r.(snapshot := Some(SnapshotOf(images))), true)
  }

  function AfterCancel(r: Rank, fault: Fault): (Rank, bool) {
    if r.state != RUNNING then (r, false)
    else (r.(snapshot := None), r.snapshot.None? || !fault.AtRemove?)
  }

  function Unmap(a: Allocation): Allocation { a.(memory := Unmapped, isAsleep := true) }

  function UnmapFrom(a: seq<Allocation>, n: nat, fault: Fault): (seq<Allocation>, bool)
    requires n <= |a|
    decreases |a| - n
  {
    if n == |a| then (a, true)
    else if a[n].isAsleep then UnmapFrom(a, n + 1, fault)
    else if fault == AtUnmap(n) then (a, false)
    else UnmapFrom(a[n := Unmap(a[n])], n + 1, fault)
  }

  function AfterSuspend(r: Rank, level: int, fault: Fault): (Rank, bool) {
    if level != 1 then (r, false)
    else if r.state == SUSPENDED then (r, true)
    else
      var (prepared, ok) := AfterPrepare(r, fault);
      if !ok then (r, false)
      else
        var (a, ok) := UnmapFrom(prepared.allocations, 0, fault);
        (prepared.(state := SUSPENDED, allocations := a), ok)
  }

  /** Whether `resume` passes an allocation over. */
  predicate Skipped(a: Allocation, tags: Option<seq<string>>) {
    !a.isAsleep || (tags.Some? && a.tag !in tags.value)
  }

  /** What a freshly mapped allocation holds after its restore; nothing if the restore raises. */
  function Refill(s: Snapshot, ptr: nat): Option<Memory> {
    if DS.FindEntry(s.entries, ptr).None? then Some(Fresh)
    else
      match DS.Verified(s.entries, s.total, s.payload, ptr)
      case None => None
      case Some(bytes) => Some(Holding(bytes))
  }

  /** A region that could not be restored is unmapped again and stays asleep. */
  function UnmapAgain(a: seq<Allocation>, n: nat): seq<Allocation>
    requires n < |a|
  {
    a[n := a[n].(memory := Unmapped)]
  }

  function Remapped(a: seq<Allocation>, n: nat, memory: Memory): seq<Allocation>
    requires n < |a|
  {
    a[n := a[n].(memory := memory, isAsleep := false)]
  }

  function MapFrom(a: seq<Allocation>, n: nat, s: Snapshot, tags: Option<seq<string>>, fault: Fault)
    : (seq<Allocation>, bool)
    requires n <= |a|
    decreases |a| - n
  {
    if n == |a| then (a, true)
    else if Skipped(a[n], tags) then MapFrom(a, n + 1, s, tags, fault)
    else if fault == AtMap(n) then (a, false)
    else if fault == AtRestore(n) && DS.FindEntry(s.entries, a[n].ptr).Some? then (UnmapAgain(a, n), false)
    else
      match Refill(s, a[n].ptr)
      case None => (UnmapAgain(a, n), false)
      case Some(memory) => MapFrom(Remapped(a, n, memory), n + 1, s, tags, fault)
  }

  predicate AnyAsleep(a: seq<Allocation>) { exists x <- a :: x.isAsleep }

  function AfterResume(r: Rank, tags: Option<seq<string>>, fault: Fault): (Rank, bool) {
    match r.snapshot
    case None => (r, true)
    case Some(s) =>
      if fault.AtStaging? then (r.(state := RESUMING), false)
      else
        var (a, ok) := MapFrom(r.allocations, 0, s, tags, fault);
        if !ok || fault.AtSynchronize? then (r.(state := SUSPENDED, allocations := a), false)
        else if AnyAsleep(a) then (r.(state := SUSPENDED, allocations := a), true)
        else (Rank(RUNNING, None, a), true)
  }

  // ------------------------------------------------------------------
  // Runs
  // ------------------------------------------------------------------

  datatype Event =
    | DoPrepare(fault: Fault)
    | DoCancel(fault: Fault)
    | DoSuspend(level: int, fault: Fault)
    | DoResume(tags: Option<seq<string>>, fault: Fault)
    | Corrupt(payload: seq<Byte>)

  function Step(r: Rank, e: Event): Rank {
    match e
    case DoPrepare(fault) => AfterPrepare(r, fault).0
    case DoCancel(fault) => AfterCancel(r, fault).0
    case DoSuspend(level, fault) => AfterSuspend(r, level, fault).0
    case DoResume(tags, fault) => AfterResume(r, tags, fault).0
    case Corrupt(payload) =>
      if r.snapshot.None? then r else r.(snapshot := Some(r.snapshot.value.(payload := payload)))
  }

  function Run(r: Rank, events: seq<Event>): Rank
    decreases |events|
  {
    if events == [] then r else Run(Step(r, events[0]), events[1..])
  }

  // ------------------------------------------------------------------
  // The invariant. `model[i]` is what allocation i held when nobody had slept yet.
  // ------------------------------------------------------------------

  type Contents = seq<seq<Byte>>

  ghost predicate DistinctPointers(a: seq<Allocation>) {
    forall i, j :: 0 <= i < j < |a| ==> a[i].ptr != a[j].ptr
  }

  /** The images of all model allocations, asleep or not. */
  function ModelImages(a: seq<Allocation>, model: Contents): seq<DS.Image>
    requires |a| == |model|
  {
    if a == [] then []
    else
      (if a[0].Model() then [DS.Image(a[0].ptr, a[0].tag, model[0])] else []) + ModelImages(a[1..], model[1..])
  }

  ghost predicate Live(a: Allocation, bytes: seq<Byte>) {
    && (a.isAsleep <==> a.memory.Unmapped?)
    && (a.Model() && !a.isAsleep ==> a.memory == Holding(bytes))
  }

  /** Every allocation that is awake holds the model's bytes. */
  ghost predicate AllLive(a: seq<Allocation>, model: Contents) {
    |a| == |model| && DistinctPointers(a) && forall i :: 0 <= i < |a| ==> Live(a[i], model[i])
  }

  /** The manifest describes every model allocation, whatever became of the payload. */
  ghost predicate Describes(s: Snapshot, a: seq<Allocation>, model: Contents)
    requires |a| == |model|
  {
    var images := ModelImages(a, model);
    s.entries == DS.Entries(images) && s.total == |DS.Payload(images)|
  }

  ghost predicate Inv(r: Rank, model: Contents) {
    && AllLive(r.allocations, model)
    && (r.state == RUNNING ==> !AnyAsleep(r.allocations))
    && (r.state != RUNNING ==> r.snapshot.Some?)
    && (r.snapshot.Some? ==> Describes(r.snapshot.value, r.allocations, model))
  }

  /** Nobody altered the payload. */
  ghost predicate Intact(r: Rank, model: Contents)
    requires |r.allocations| == |model|
  {
    r.snapshot.Some? ==> r.snapshot.value.payload == DS.Payload(ModelImages(r.allocations, model))
  }

  // ------------------------------------------------------------------
  // Images
  // ------------------------------------------------------------------

  ghost predicate SameLayout(a: seq<Allocation>, b: seq<Allocation>) {
    |a| == |b| && forall i :: 0 <= i < |a| ==> a[i].ptr == b[i].ptr && a[i].tag == b[i].tag
  }

  lemma {:induction false} LayoutFixesImages(a: seq<Allocation>, b: seq<Allocation>, model: Contents)
    requires SameLayout(a, b) && |a| == |model|
    ensures ModelImages(a, model) == ModelImages(b, model)
  {
    if a != [] {
      LayoutFixesImages(a[1..], b[1..], model[1..]);
    }
  }

  lemma {:induction false} SavedIsModel(a: seq<Allocation>, model: Contents)
    requires AllLive(a, model) && !AnyAsleep(a)
    ensures SavedImages(a) == ModelImages(a, model)
  {
    if a != [] {
      assert a[0] in a && forall x <- a[1..] :: x in a;
      SavedIsModel(a[1..], model[1..]);
    }
  }

  lemma {:induction false} ImageOfAllocation(a: seq<Allocation>, model: Contents, image: DS.Image) returns (i: nat)
    requires |a| == |model| && image in ModelImages(a, model)
    ensures i < |a| && a[i].Model() && a[i].ptr == image.address
  {
    if a[0].Model() && image == DS.Image(a[0].ptr, a[0].tag, model[0]) {
      i := 0;
    } else {
      i := ImageOfAllocation(a[1..], model[1..], image);
      i := i + 1;
    }
  }

  lemma {:induction false} ImagesAddresses(a: seq<Allocation>, model: Contents)
    requires |a| == |model| && DistinctPointers(a)
    ensures DS.DistinctAddresses(ModelImages(a, model))
  {
    if a != [] {
      ImagesAddresses(a[1..], model[1..]);
      var rest := ModelImages(a[1..], model[1..]);
      forall image <- rest
        ensures image.address != a[0].ptr
      {
        var i := ImageOfAllocation(a[1..], model[1..], image);
        assert a[i + 1].ptr == image.address;
      }
    }
  }

  lemma {:induction false} ImageIndex(a: seq<Allocation>, model: Contents, i: nat) returns (k: nat)
    requires |a| == |model| && i < |a| && a[i].Model()
    ensures k < |ModelImages(a, model)|
    ensures ModelImages(a, model)[k] == DS.Image(a[i].ptr, a[i].tag, model[i])
  {
    if i == 0 {
      k := 0;
    } else {
      k := ImageIndex(a[1..], model[1..], i - 1);
      k := k + if a[0].Model() then 1 else 0;
    }
  }

  lemma FoundIffModel(a: seq<Allocation>, model: Contents, i: nat)
    requires |a| == |model| && i < |a| && DistinctPointers(a)
    ensures DS.FindEntry(DS.Entries(ModelImages(a, model)), a[i].ptr).Some? <==> a[i].Model()
  {
    var images := ModelImages(a, model);
    DS.FoundIffSaved(images, a[i].ptr);
    if a[i].Model() {
      var k := ImageIndex(a, model, i);
      assert images[k] in images;
    } else {
      forall image <- images
        ensures image.address != a[i].ptr
      {
        var j := ImageOfAllocation(a, model, image);
      }
    }
  }

  // What a described snapshot gives back for one allocation: for a model allocation its own
  // bytes or nothing, and its own bytes if the payload is intact; for the KV cache no entry.
  lemma RefillIsModel(s: Snapshot, a: seq<Allocation>, model: Contents, i: nat)
    requires |a| == |model| && i < |a| && DistinctPointers(a) && Describes(s, a, model)
    ensures DS.FindEntry(s.entries, a[i].ptr).Some? <==> a[i].Model()
    ensures a[i].Model() && Refill(s, a[i].ptr).Some? ==> Refill(s, a[i].ptr) == Some(Holding(model[i]))
    ensures s.payload == DS.Payload(ModelImages(a, model)) ==> Refill(s, a[i].ptr).Some?
    ensures !a[i].Model() ==> Refill(s, a[i].ptr) == Some(Fresh)
  {
    FoundIffModel(a, model, i);
    if a[i].Model() {
      var images := ModelImages(a, model);
      ImagesAddresses(a, model);
      var k := ImageIndex(a, model, i);
      DS.OnlySavedBytesVerify(images, s.payload, k);
      DS.RoundTrip(images, k);
    }
  }

  // ------------------------------------------------------------------
  // The two loops
  // ------------------------------------------------------------------

  lemma {:induction false} UnmapKeeps(a: seq<Allocation>, n: nat, fault: Fault, model: Contents)
    requires n <= |a| && AllLive(a, model)
    ensures var (b, ok) := UnmapFrom(a, n, fault);
            && AllLive(b, model) && SameLayout(a, b)
            && (ok ==> forall i :: n <= i < |b| ==> b[i].isAsleep)
            && (forall i :: 0 <= i < n ==> b[i] == a[i])
    decreases |a| - n
  {
    if n < |a| && !a[n].isAsleep && fault != AtUnmap(n) {
      UnmapKeeps(a[n := Unmap(a[n])], n + 1, fault, model);
    } else if n < |a| && a[n].isAsleep {
      UnmapKeeps(a, n + 1, fault, model);
    }
  }

  // Waking one allocation with what the snapshot gives for it.
  lemma WakeKeeps(a: seq<Allocation>, n: nat, s: Snapshot, model: Contents)
    requires n < |a| && AllLive(a, model) && Describes(s, a, model) && Refill(s, a[n].ptr).Some?
    ensures var a' := Remapped(a, n, Refill(s, a[n].ptr).value);
            AllLive(a', model) && SameLayout(a, a') && Describes(s, a', model)
  {
    RefillIsModel(s, a, model, n);
    LayoutFixesImages(a, Remapped(a, n, Refill(s, a[n].ptr).value), model);
  }

  /** The restore loop ends at this allocation. */
  predicate Stops(a: Allocation, n: nat, s: Snapshot, fault: Fault) {
    || fault == AtMap(n)
    || (fault == AtRestore(n) && DS.FindEntry(s.entries, a.ptr).Some?)
    || Refill(s, a.ptr).None?
  }

  // One turn of the restore loop. Where it ends, what was mapped for nothing is unmapped again.
  lemma MapTurns(a: seq<Allocation>, n: nat, s: Snapshot, tags: Option<seq<string>>, fault: Fault)
    requires n < |a| && (a[n].isAsleep ==> a[n].memory.Unmapped?)
    ensures MapFrom(a, n, s, tags, fault)
            == if Skipped(a[n], tags) then MapFrom(a, n + 1, s, tags, fault)
               else if Stops(a[n], n, s, fault) then (a, false)
               else MapFrom(Remapped(a, n, Refill(s, a[n].ptr).value), n + 1, s, tags, fault)
  {
    if !Skipped(a[n], tags) {
      assert UnmapAgain(a, n) == a;
    }
  }

  lemma {:induction false} MapKeeps(a: seq<Allocation>, n: nat, s: Snapshot, tags: Option<seq<string>>, fault: Fault,
                                    model: Contents)
    requires n <= |a| && AllLive(a, model) && Describes(s, a, model)
    ensures var (b, ok) := MapFrom(a, n, s, tags, fault);
            && AllLive(b, model) && SameLayout(a, b)
            && (forall i :: 0 <= i < |a| && !a[i].isAsleep ==> b[i] == a[i])
    decreases |a| - n
  {
    if n < |a| {
      MapTurns(a, n, s, tags, fault);
      if Skipped(a[n], tags) {
        MapKeeps(a, n + 1, s, tags, fault, model);
      } else if !Stops(a[n], n, s, fault) {
        WakeKeeps(a, n, s, model);
        MapKeeps(Remapped(a, n, Refill(s, a[n].ptr).value), n + 1, s, tags, fault, model);
      }
    }
  }

  // A restore loop that is not disturbed gets through exactly when every sleeping allocation
  // it visits can be refilled, and then leaves none of them asleep.
  lemma {:induction false} MapCompletes(a: seq<Allocation>, n: nat, s: Snapshot, tags: Option<seq<string>>)
    requires n <= |a| && DistinctPointers(a)
    ensures var (b, ok) := MapFrom(a, n, s, tags, NoFault);
            && SameLayout(a, b)
            && (ok <==> forall i :: n <= i < |a| && !Skipped(a[i], tags) ==> Refill(s, a[i].ptr).Some?)
            && (ok ==> forall i :: n <= i < |a| ==>
                             b[i] == if Skipped(a[i], tags) then a[i]
                                     else a[i].(memory := Refill(s, a[i].ptr).value, isAsleep := false))
            && (forall i :: 0 <= i < n ==> b[i] == a[i])
    decreases |a| - n
  {
    if n < |a| {
      if Skipped(a[n], tags) {
        MapCompletes(a, n + 1, s, tags);
      } else if Refill(s, a[n].ptr).Some? {
        var a' := Remapped(a, n, Refill(s, a[n].ptr).value);
        MapCompletes(a', n + 1, s, tags);
      }
    }
  }

  // Only verified bytes become live, in any state, with any payload, tags and fault.
  lemma {:induction false} OnlyVerifiedBytesWake(a: seq<Allocation>, n: nat, s: Snapshot, tags: Option<seq<string>>,
                                                 fault: Fault)
    requires n <= |a|
    ensures var (b, ok) := MapFrom(a, n, s, tags, fault);
            && SameLayout(a, b)
            && (forall i :: 0 <= i < |a| && !a[i].isAsleep ==> b[i] == a[i])
            && forall i :: 0 <= i < |a| && a[i].isAsleep && !b[i].isAsleep ==>
                 && (DS.FindEntry(s.entries, a[i].ptr).Some? ==>
                       && DS.Verified(s.entries, s.total, s.payload, a[i].ptr).Some?
                       && b[i].memory == Holding(DS.Verified(s.entries, s.total, s.payload, a[i].ptr).value))
    decreases |a| - n
  {
    if n < |a| {
      if Skipped(a[n], tags) {
        OnlyVerifiedBytesWake(a, n + 1, s, tags, fault);
      } else if fault != AtMap(n) && (fault != AtRestore(n) || DS.FindEntry(s.entries, a[n].ptr).None?)
                && Refill(s, a[n].ptr).Some? {
        var a' := Remapped(a, n, Refill(s, a[n].ptr).value);
        OnlyVerifiedBytesWake(a', n + 1, s, tags, fault);
      }
    }
  }

  // ------------------------------------------------------------------
  // Every method keeps the invariant
  // ------------------------------------------------------------------

  lemma PrepareKeeps(r: Rank, fault: Fault, model: Contents)
    requires Inv(r, model)
    ensures var (r', ok) := AfterPrepare(r, fault);
            && Inv(r', model) && r'.state == r.state && r'.allocations == r.allocations
            && (ok <==> r'.snapshot.Some?)
            && (Intact(r, model) ==> Intact(r', model))
  {
    if r.snapshot.None? {
      SavedIsModel(r.allocations, model);
    }
  }

  lemma SuspendKeeps(r: Rank, level: int, fault: Fault, model: Contents)
    requires Inv(r, model)
    ensures var (r', ok) := AfterSuspend(r, level, fault);
            && Inv(r', model) && SameLayout(r.allocations, r'.allocations)
            && (Intact(r, model) ==> Intact(r', model))
            && (ok ==> r'.state == SUSPENDED && r'.snapshot.Some?)
            && (ok && r.state != SUSPENDED ==> forall a <- r'.allocations :: a.isAsleep)
            && (r'.state == RUNNING ==> !ok && r' == r)
  {
    if level == 1 && r.state != SUSPENDED {
      PrepareKeeps(r, fault, model);
      var (p, ok) := AfterPrepare(r, fault);
      if ok {
        UnmapKeeps(p.allocations, 0, fault, model);
        LayoutFixesImages(p.allocations, UnmapFrom(p.allocations, 0, fault).0, model);
      }
    }
  }

  lemma ResumeKeeps(r: Rank, tags: Option<seq<string>>, fault: Fault, model: Contents)
    requires Inv(r, model)
    ensures var (r', ok) := AfterResume(r, tags, fault);
            && Inv(r', model) && SameLayout(r.allocations, r'.allocations)
            && (Intact(r, model) ==> Intact(r', model))
            && (r'.snapshot == if r'.state == RUNNING then None else r.snapshot)
            && (forall i :: 0 <= i < |r.allocations| && !r.allocations[i].isAsleep ==>
                              r'.allocations[i] == r.allocations[i])
            && (!ok ==> r'.state != RUNNING)
            && (ok && tags.None? ==> r'.state == RUNNING)
  {
    if r.snapshot.Some? {
      MapKeepsRank(r, tags, fault, model);
    }
  }

  lemma MapKeepsRank(r: Rank, tags: Option<seq<string>>, fault: Fault, model: Contents)
    requires Inv(r, model) && r.snapshot.Some?
    ensures var (a, ok) := MapFrom(r.allocations, 0, r.snapshot.value, tags, fault);
            && AllLive(a, model) && SameLayout(r.allocations, a)
            && ModelImages(a, model) == ModelImages(r.allocations, model)
            && (forall i :: 0 <= i < |r.allocations| && !r.allocations[i].isAsleep ==> a[i] == r.allocations[i])
            && (ok && tags.None? ==> !AnyAsleep(a))
  {
    var s := r.snapshot.value;
    MapKeeps(r.allocations, 0, s, tags, fault, model);
    var (a, ok) := MapFrom(r.allocations, 0, s, tags, fault);
    LayoutFixesImages(r.allocations, a, model);
    if ok && tags.None? {
      MapAllWakes(r.allocations, 0, s, fault);
    }
  }

  lemma {:induction false} MapAllWakes(a: seq<Allocation>, n: nat, s: Snapshot, fault: Fault)
    requires n <= |a| && forall i :: 0 <= i < n ==> !a[i].isAsleep
    requires MapFrom(a, n, s, None, fault).1
    ensures !AnyAsleep(MapFrom(a, n, s, None, fault).0)
    decreases |a| - n
  {
    if n < |a| {
      if Skipped(a[n], None) {
        MapAllWakes(a, n + 1, s, fault);
      } else {
        MapAllWakes(Remapped(a, n, Refill(s, a[n].ptr).value), n + 1, s, fault);
      }
    }
  }

  /** A worker that has just loaded its model: everything mapped, nothing saved. */
  ghost predicate Started(r: Rank, model: Contents) {
    && r.state == RUNNING && r.snapshot.None?
    && |r.allocations| == |model| && DistinctPointers(r.allocations)
    && forall i :: 0 <= i < |model| ==>
         var a := r.allocations[i];
         !a.isAsleep && !a.memory.Unmapped? && (a.Model() ==> a.memory == Holding(model[i]))
  }

  lemma StartedKeeps(r: Rank, model: Contents)
    requires Started(r, model)
    ensures Inv(r, model) && Intact(r, model)
  {
  }

  lemma StepKeeps(r: Rank, e: Event, model: Contents)
    requires Inv(r, model)
    ensures Inv(Step(r, e), model)
    ensures SameLayout(r.allocations, Step(r, e).allocations)
    ensures Intact(r, model) && !e.Corrupt? ==> Intact(Step(r, e), model)
  {
    match e
    case DoPrepare(fault) => PrepareKeeps(r, fault, model);
    case DoCancel(_) =>
    case DoSuspend(level, fault) => SuspendKeeps(r, level, fault, model);
    case DoResume(tags, fault) => ResumeKeeps(r, tags, fault, model);
    case Corrupt(_) =>
  }

  // No run, whatever faults strike and whatever happens to the payload, breaks the invariant:
  // what is awake holds the model's bytes, RUNNING means nothing is asleep, and a rank that is
  // not RUNNING has a snapshot that describes the model.
  lemma {:induction false} RunKeeps(r: Rank, events: seq<Event>, model: Contents)
    requires Inv(r, model)
    ensures Inv(Run(r, events), model)
    ensures Intact(r, model) && (forall e <- events :: !e.Corrupt?) ==> Intact(Run(r, events), model)
    decreases |events|
  {
    if events != [] {
      StepKeeps(r, events[0], model);
      assert events == [events[0]] + events[1..];
      RunKeeps(Step(r, events[0]), events[1..], model);
    }
  }

  // ------------------------------------------------------------------
  // Nothing is lost
  // ------------------------------------------------------------------

  /** The payload still yields the bytes of one allocation. */
  ghost predicate Readable(r: Rank, a: Allocation) {
    match r.snapshot
    case None => false
    case Some(s) => DS.Verified(s.entries, s.total, s.payload, a.ptr).Some?
  }

  /** All model bytes are where the model left them, and no snapshot is held any more. */
  ghost predicate FullyRestored(r: Rank, model: Contents) {
    && r.state == RUNNING && r.snapshot.None?
    && |r.allocations| == |model|
    && forall i :: 0 <= i < |model| ==>
                     && !r.allocations[i].isAsleep
                     && (r.allocations[i].Model() ==> r.allocations[i].memory == Holding(model[i]))
  }

  // In every run that leaves the payload alone, each model allocation is either mapped with its
  // bytes or asleep with those bytes in the retained snapshot.
  lemma NoLoss(r: Rank, events: seq<Event>, model: Contents)
    requires Inv(r, model) && Intact(r, model)
    requires forall e <- events :: !e.Corrupt?
    ensures var r' := Run(r, events);
            && |r'.allocations| == |model|
            && forall i :: 0 <= i < |model| && r'.allocations[i].Model() ==>
                 var a := r'.allocations[i];
                 if a.isAsleep then Readable(r', a) && Refill(r'.snapshot.value, a.ptr) == Some(Holding(model[i]))
                 else a.memory == Holding(model[i])
  {
    RunKeeps(r, events, model);
    var r' := Run(r, events);
    forall i | 0 <= i < |model| && r'.allocations[i].Model()
      ensures var a := r'.allocations[i];
              if a.isAsleep then Readable(r', a) && Refill(r'.snapshot.value, a.ptr) == Some(Holding(model[i]))
              else a.memory == Holding(model[i])
    {
      assert Live(r'.allocations[i], model[i]);
      if r'.allocations[i].isAsleep {
        RefillIsModel(r'.snapshot.value, r'.allocations, model, i);
      }
    }
  }

  // One undisturbed resume(None) ends RUNNING with every byte restored exactly when the payload
  // still verifies for every model allocation that is asleep. Otherwise it raises, marks nothing
  // awake that does not verify, and keeps the snapshot for a retry.
  lemma RecoversIffReadable(r: Rank, model: Contents)
    requires Inv(r, model)
    ensures var (r', ok) := AfterResume(r, None, NoFault);
            && (r'.state == RUNNING <==> forall a <- r.allocations :: a.isAsleep && a.Model() ==> Readable(r, a))
            && (r'.state == RUNNING ==> ok && FullyRestored(r', model))
            && (r'.state != RUNNING ==> !ok && r'.state == SUSPENDED && r'.snapshot == r.snapshot && Inv(r', model))
  {
    ResumeKeeps(r, None, NoFault, model);
    if r.snapshot.Some? {
      var s := r.snapshot.value;
      MapCompletes(r.allocations, 0, s, None);
      forall i | 0 <= i < |r.allocations|
        ensures Refill(s, r.allocations[i].ptr).Some? <==> !r.allocations[i].Model() || Readable(r, r.allocations[i])
      {
        RefillIsModel(s, r.allocations, model, i);
      }
      var (a, ok) := MapFrom(r.allocations, 0, s, None, NoFault);
      assert forall i :: 0 <= i < |r.allocations| ==> r.allocations[i] in r.allocations;
      if ok {
        assert !AnyAsleep(a);
        assert forall i :: 0 <= i < |a| ==> a[i] in a;
        forall i | 0 <= i < |model| && a[i].Model()
          ensures a[i].memory == Holding(model[i])
        {
          assert Live(r.allocations[i], model[i]);
          RefillIsModel(s, r.allocations, model, i);
        }
      }
    } else {
      assert forall i :: 0 <= i < |model| ==> r.allocations[i] in r.allocations && Live(r.allocations[i], model[i]);
    }
  }

  // So no run strands the model: after any run that leaves the payload alone, one undisturbed
  // resume(None) returns normally and everything is back.
  lemma EveryRunRecovers(r: Rank, events: seq<Event>, model: Contents)
    requires Inv(r, model) && Intact(r, model)
    requires forall e <- events :: !e.Corrupt?
    ensures var (r', ok) := AfterResume(Run(r, events), None, NoFault);
            ok && FullyRestored(r', model)
  {
    RunKeeps(r, events, model);
    var final := Run(r, events);
    forall a <- final.allocations
      ensures a.isAsleep && a.Model() ==> Readable(final, a)
    {
      var i :| 0 <= i < |final.allocations| && final.allocations[i] == a;
      if a.isAsleep && a.Model() {
        RefillIsModel(final.snapshot.value, final.allocations, model, i);
      }
    }
    RecoversIffReadable(final, model);
  }

  // ------------------------------------------------------------------
  // A retained snapshot and later writes
  // ------------------------------------------------------------------

  // `prepare` keeps a snapshot it already has. Suspending and waking on it brings back the bytes
  // the allocations held before exactly when it was taken of these bytes: an allocation that was
  // added or written after the save is lost.
  lemma CycleRestoresIffFresh(r: Rank, images: seq<DS.Image>)
    requires r.state == RUNNING && r.snapshot == Some(SnapshotOf(images))
    requires DS.DistinctAddresses(images) && DistinctPointers(r.allocations)
    requires forall a <- r.allocations :: !a.isAsleep && a.memory.Holding?
    ensures var r' := AfterResume(AfterSuspend(r, 1, NoFault).0, None, NoFault).0;
            && r'.state == RUNNING && |r'.allocations| == |r.allocations|
            && ((forall i :: 0 <= i < |r.allocations| && r.allocations[i].Model() ==>
                               r'.allocations[i] == r.allocations[i])
                <==>
                (forall i :: 0 <= i < |r.allocations| && r.allocations[i].Model() ==>
                               ImageHeld(images, r.allocations[i])))
  {
    var s := SnapshotOf(images);
    var asleep := AfterSuspend(r, 1, NoFault).0;
    UnmapCompletes(r.allocations, 0);
    MapCompletes(asleep.allocations, 0, s, None);
    var (a, ok) := MapFrom(asleep.allocations, 0, s, None, NoFault);
    forall i | 0 <= i < |r.allocations|
      ensures Refill(s, r.allocations[i].ptr).Some?
      ensures Refill(s, r.allocations[i].ptr).value == r.allocations[i].memory <==> ImageHeld(images, r.allocations[i])
    {
      assert r.allocations[i] in r.allocations;
      RefillIsImage(images, r.allocations[i]);
    }
    assert forall i :: 0 <= i < |a| ==> !a[i].isAsleep;
  }

  ghost predicate ImageHeld(images: seq<DS.Image>, a: Allocation) {
    exists k :: 0 <= k < |images| && images[k].address == a.ptr && Holding(images[k].bytes) == a.memory
  }

  lemma {:induction false} UnmapCompletes(a: seq<Allocation>, n: nat)
    requires n <= |a|
    ensures var (b, ok) := UnmapFrom(a, n, NoFault);
            && ok && |b| == |a|
            && (forall i :: 0 <= i < n ==> b[i] == a[i])
            && (forall i :: n <= i < |a| ==> b[i] == if a[i].isAsleep then a[i] else Unmap(a[i]))
    decreases |a| - n
  {
    if n < |a| {
      UnmapCompletes(if a[n].isAsleep then a else a[n := Unmap(a[n])], n + 1);
    }
  }

  lemma RefillIsImage(images: seq<DS.Image>, a: Allocation)
    requires DS.DistinctAddresses(images) && a.memory.Holding?
    ensures Refill(SnapshotOf(images), a.ptr).Some?
    ensures Refill(SnapshotOf(images), a.ptr).value == a.memory <==> ImageHeld(images, a)
  {
    DS.FoundIffSaved(images, a.ptr);
    if k :| 0 <= k < |images| && images[k].address == a.ptr {
      DS.RoundTrip(images, k);
    }
  }

  // ------------------------------------------------------------------
  // The backend itself
  // ------------------------------------------------------------------

  class DiskSleepBackend {
    var state: State
    var snapshot: Option<Snapshot>
    var allocations: seq<Allocation>

    function Value(): Rank
      reads this
    {
      Rank(state, snapshot, allocations)
    }

    constructor (allocations: seq<Allocation>)
      ensures Value() == Rank(RUNNING, None, allocations)
    {
      state, snapshot, this.allocations := RUNNING, None, allocations;
    }

    /** The regions `prepare` saves: model allocations that are awake. */
    method Regions() returns (regions: seq<DS.Image>)
      ensures regions == SavedImages(allocations)
    {
      regions := [];
      var n := 0;
      while n < |allocations|
        invariant 0 <= n <= |allocations|
        invariant SavedImages(allocations) == regions + SavedImages(allocations[n..])
      {
        var data := allocations[n];
        assert allocations[n..][1..] == allocations[n + 1..];
        if data.tag != KV_CACHE && !data.isAsleep {
          regions := regions + [DS.Image(data.ptr, data.tag, BytesOf(data.memory))];
        }
        n := n + 1;
      }
    }

    method Prepare(fault: Fault) returns (ok: bool)
      modifies this`snapshot
      ensures (Value(), ok) == AfterPrepare(old(Value()), fault)
    {
      if snapshot.Some? {
        return true;
      }
      var regions := Regions();
      if SaveRaises(regions, fault) {
        return false;
      }
      snapshot := Some(SnapshotOf(regions));
      ok := true;
    }

    method CancelPreparation(fault: Fault) returns (ok: bool)
      modifies this`snapshot
      ensures (Value(), ok) == AfterCancel(old(Value()), fault)
    {
      if state != RUNNING {
        return false;
      }
      var held := snapshot;
      snapshot := None;
      if held.Some? {
        return !fault.AtRemove?;
      }
      ok := true;
    }

    method Suspend(level: int, fault: Fault) returns (ok: bool)
      modifies this
      ensures (Value(), ok) == AfterSuspend(old(Value()), level, fault)
    {
      if level != 1 {
        return false;
      }
      if state == SUSPENDED {
        return true;
      }
      ok := Prepare(fault);
      if !ok {
        return;
      }
      ghost var before := allocations;
      var n := 0;
      while n < |allocations|
        invariant 0 <= n <= |allocations|
        invariant UnmapFrom(before, 0, fault) == UnmapFrom(allocations, n, fault)
        invariant Value() == AfterPrepare(old(Value()), fault).0.(allocations := allocations)
      {
        if !allocations[n].isAsleep {
          if fault == AtUnmap(n) {
            state := SUSPENDED;
            return false;
          }
          allocations := allocations[n := Unmap(allocations[n])];
        }
        n := n + 1;
      }
      state := SUSPENDED;
    }

    /** What `resume` does for one allocation that it does not pass over. */
    method RemapAndRestore(n: nat, held: Snapshot, ghost tags: Option<seq<string>>, fault: Fault) returns (ok: bool)
      requires n < |allocations| && !Skipped(allocations[n], tags)
      modifies this`allocations
      ensures |allocations| == |old(allocations)|
      ensures old(MapFrom(allocations, n, held, tags, fault))
           == if ok then MapFrom(allocations, n + 1, held, tags, fault) else (allocations, false)
    {
      ghost var before := allocations;
      var data := allocations[n];
      if fault == AtMap(n) {
        return false;
      }
      allocations := allocations[n := data.(memory := Fresh)];
      if DS.FindEntry(held.entries, data.ptr).Some? {
        var verified := DS.Verified(held.entries, held.total, held.payload, data.ptr);
        if fault == AtRestore(n) || verified.None? {
          allocations := allocations[n := data.(memory := Unmapped)];
          assert allocations == UnmapAgain(before, n);
          return false;
        }
        allocations := allocations[n := data.(memory := Holding(verified.value))];
      }
      allocations := allocations[n := allocations[n].(isAsleep := false)];
      assert allocations == Remapped(before, n, Refill(held, data.ptr).value);
      ok := true;
    }

    method Resume(tags: Option<seq<string>>, fault: Fault) returns (ok: bool)
      modifies this
      ensures (Value(), ok) == AfterResume(old(Value()), tags, fault)
    {
      if snapshot.None? {
        return true;
      }
      var held := snapshot.value;
      state := RESUMING;
      if fault.AtStaging? {
        return false;
      }
      ghost var before := allocations;
      var n := 0;
      while n < |allocations|
        invariant 0 <= n <= |allocations|
        invariant MapFrom(before, 0, held, tags, fault) == MapFrom(allocations, n, held, tags, fault)
        invariant state == RESUMING && snapshot == Some(held)
      {
        if allocations[n].isAsleep && (tags.None? || allocations[n].tag in tags.value) {
          ok := RemapAndRestore(n, held, tags, fault);
          if !ok {
            state := SUSPENDED;
            return;
          }
        }
        n := n + 1;
      }
      if fault.AtSynchronize? {
        state := SUSPENDED;
        return false;
      }
      if exists data <- allocations :: data.isAsleep {
        state := SUSPENDED;
        return true;
      }
      // A snapshot that cannot be removed is only logged.
      snapshot := None;
      state := RUNNING;
      ok := true;
    }
  }
}

