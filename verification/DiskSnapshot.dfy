/**
  Durable byte snapshots of device memory (vllm/device_allocator/disk_snapshot.py).

  `Save` streams the regions through one reused buffer into a payload file and
  `RestoreRegion` streams one region back. The file system is the class
  `SnapshotDirectory`: every primitive on it may raise, and reads and writes may
  be short. The directory also keeps a log of what was done to it, which the
  statements about commit order and dirty data are about.
 */
module DiskSnapshot {
  import opened Prelude

  const DIRTY_LIMIT: nat := 64 * 1024 * 1024

  datatype Region = Region(address: nat, size: int, tag: string)

  datatype Entry = Entry(address: nat, size: nat, tag: string, offset: nat, sha256: Digest)

  /** What one region held when it was saved. */
  datatype Image = Image(address: nat, tag: string, bytes: seq<Byte>)

  datatype Event =
    | Truncate(length: nat)
    | Write(count: nat)
    | SyncPayload
    | CreateManifest(entries: seq<Entry>, total: nat)
    | SyncManifest
    | SyncDirectory
    | RemoveTree

  // ------------------------------------------------------------------
  // The layout a saved snapshot has
  // ------------------------------------------------------------------

  function TotalSize(regions: seq<Region>): int {
    if regions == [] then 0
    else TotalSize(regions[..|regions| - 1]) + regions[|regions| - 1].size
  }

  ghost predicate Savable(regions: seq<Region>, memory: seq<Byte>) {
    forall r <- regions :: 0 < r.size && r.address + r.size <= |memory|
  }

  function ImageOf(r: Region, memory: seq<Byte>): Image
    requires 0 < r.size && r.address + r.size <= |memory|
  {
    Image(r.address, r.tag, memory[r.address..r.address + r.size])
  }

  function ImagesOf(regions: seq<Region>, memory: seq<Byte>): (images: seq<Image>)
    requires Savable(regions, memory)
    ensures |images| == |regions|
    ensures forall i :: 0 <= i < |regions| ==> images[i] == ImageOf(regions[i], memory)
  {
    seq(|regions|, i requires 0 <= i < |regions| => ImageOf(regions[i], memory))
  }

  function Payload(images: seq<Image>): seq<Byte> {
    if images == [] then []
    else Payload(images[..|images| - 1]) + images[|images| - 1].bytes
  }

  function EntryAt(image: Image, offset: nat): Entry {
    Entry(image.address, |image.bytes|, image.tag, offset, Sha256(image.bytes))
  }

  function Entries(images: seq<Image>): (entries: seq<Entry>)
    ensures |entries| == |images|
  {
    if images == [] then []
    else
      var front := images[..|images| - 1];
      Entries(front) + [EntryAt(images[|images| - 1], |Payload(front)|)]
  }

  /** The entry `next(item for item in entries if item["address"] == address)` finds. */
  function FindEntry(entries: seq<Entry>, address: nat): Option<Entry> {
    if entries == [] then None
    else if entries[0].address == address then Some(entries[0])
    else FindEntry(entries[1..], address)
  }

  /** The bytes of an entry in a payload that is long enough to hold them. */
  function Slice(payload: seq<Byte>, e: Entry): seq<Byte>
    requires e.offset + e.size <= |payload|
  {
    payload[e.offset..e.offset + e.size]
  }

  /** What a restore of `address` accepts: the whole file is there and the digest matches. */
  function Verified(entries: seq<Entry>, total: nat, payload: seq<Byte>, address: nat): Option<seq<Byte>> {
    match FindEntry(entries, address)
    case None => None
    case Some(e) =>
      if |payload| == total && e.offset + e.size <= |payload| && Sha256(Slice(payload, e)) == e.sha256
      then Some(Slice(payload, e))
      else None
  }

  ghost predicate DistinctAddresses(images: seq<Image>) {
    forall i, j :: 0 <= i < j < |images| ==> images[i].address != images[j].address
  }

  // Offsets are prefix sums: the entries tile [0, |payload|) in order, without gaps.
  lemma {:induction false} EntriesTile(images: seq<Image>)
    ensures forall i :: 0 <= i < |images| ==>
                          && Entries(images)[i].address == images[i].address
                          && Entries(images)[i].tag == images[i].tag
                          && Entries(images)[i].size == |images[i].bytes|
                          && Entries(images)[i].sha256 == Sha256(images[i].bytes)
    ensures images != [] ==> Entries(images)[0].offset == 0
    ensures forall i :: 0 <= i < |images| - 1 ==>
                          Entries(images)[i + 1].offset == Entries(images)[i].offset + Entries(images)[i].size
    ensures images != [] ==>
              var last := Entries(images)[|images| - 1];
              last.offset + last.size == |Payload(images)|
  {
    if images != [] {
      var front := images[..|images| - 1];
      EntriesTile(front);
      forall i | 0 <= i < |front|
        ensures Entries(images)[i] == Entries(front)[i]
      {
      }
    }
  }

  lemma SlicePrefix(a: seq<Byte>, b: seq<Byte>, e: Entry)
    requires e.offset + e.size <= |a|
    ensures Slice(a + b, e) == Slice(a, e)
  {
  }

  lemma {:induction false} SliceIsImage(images: seq<Image>, i: nat)
    requires i < |images|
    ensures Entries(images)[i].offset + Entries(images)[i].size <= |Payload(images)|
    ensures Entries(images)[i] == EntryAt(images[i], Entries(images)[i].offset)
    ensures Slice(Payload(images), Entries(images)[i]) == images[i].bytes
  {
    var front, last := images[..|images| - 1], images[|images| - 1];
    if i < |front| {
      SliceIsImage(front, i);
      assert Entries(images)[i] == Entries(front)[i];
      SlicePrefix(Payload(front), last.bytes, Entries(front)[i]);
    } else {
      assert Entries(images)[i] == EntryAt(last, |Payload(front)|);
      assert (Payload(front) + last.bytes)[|Payload(front)|..] == last.bytes;
    }
  }

  lemma {:induction false} FindEntryFinds(entries: seq<Entry>, i: nat)
    requires i < |entries|
    requires forall j :: 0 <= j < i ==> entries[j].address != entries[i].address
    ensures FindEntry(entries, entries[i].address) == Some(entries[i])
  {
    if i > 0 {
      FindEntryFinds(entries[1..], i - 1);
    }
  }

  lemma {:induction false} FindEntrySound(entries: seq<Entry>, address: nat)
    ensures FindEntry(entries, address).Some? ==>
              && FindEntry(entries, address).value in entries
              && FindEntry(entries, address).value.address == address
    ensures FindEntry(entries, address).None? <==> forall e <- entries :: e.address != address
  {
    if entries != [] {
      FindEntrySound(entries[1..], address);
      assert entries == [entries[0]] + entries[1..];
    }
  }

  // The entry that is found for the i-th region.
  lemma EntryFound(images: seq<Image>, i: nat)
    requires DistinctAddresses(images) && i < |images|
    ensures var e := Entries(images)[i];
            && FindEntry(Entries(images), images[i].address) == Some(e) && e == EntryAt(images[i], e.offset)
            && e.offset + e.size <= |Payload(images)| && Slice(Payload(images), e) == images[i].bytes
  {
    EntriesTile(images);
    FindEntryFinds(Entries(images), i);
    SliceIsImage(images, i);
  }

  // What a restore accepts, once its entry is found: the bytes that the entry was made of, or nothing.
  lemma AcceptedIffEqual(entries: seq<Entry>, total: nat, payload: seq<Byte>, image: Image, e: Entry)
    requires FindEntry(entries, image.address) == Some(e) && e == EntryAt(image, e.offset)
    ensures Verified(entries, total, payload, image.address)
            == if |payload| == total && e.offset + e.size <= |payload|
                  && payload[e.offset..e.offset + e.size] == image.bytes
               then Some(image.bytes) else None
  {
  }

  // The round trip at the level of the layout: with distinct addresses, what a
  // restore accepts for the i-th region of an untouched payload is what was saved.
  lemma RoundTrip(images: seq<Image>, i: nat)
    requires DistinctAddresses(images)
    requires i < |images|
    ensures Verified(Entries(images), |Payload(images)|, Payload(images), images[i].address)
            == Some(images[i].bytes)
  {
    EntryFound(images, i);
    AcceptedIffEqual(Entries(images), |Payload(images)|, Payload(images), images[i], Entries(images)[i]);
  }

  // A restore of the i-th region accepts a payload exactly when the file has its full length
  // and the region's part of it is unaltered; what it then accepts are the saved bytes.
  lemma VerifiesIffUnaltered(images: seq<Image>, payload: seq<Byte>, i: nat)
    requires DistinctAddresses(images)
    requires i < |images|
    ensures var e := Entries(images)[i];
            var v := Verified(Entries(images), |Payload(images)|, payload, images[i].address);
            v.Some? <==>
              && |payload| == |Payload(images)|
              && e.offset + e.size <= |payload|
              && payload[e.offset..e.offset + e.size] == images[i].bytes
  {
    EntryFound(images, i);
    AcceptedIffEqual(Entries(images), |Payload(images)|, payload, images[i], Entries(images)[i]);
  }

  // Whatever happened to the payload since, a restore accepts the saved bytes or nothing.
  lemma OnlySavedBytesVerify(images: seq<Image>, payload: seq<Byte>, i: nat)
    requires DistinctAddresses(images)
    requires i < |images|
    ensures var v := Verified(Entries(images), |Payload(images)|, payload, images[i].address);
            v == None || v == Some(images[i].bytes)
  {
    EntryFound(images, i);
    AcceptedIffEqual(Entries(images), |Payload(images)|, payload, images[i], Entries(images)[i]);
  }

  lemma {:induction false} FoundIffSaved(images: seq<Image>, address: nat)
    ensures FindEntry(Entries(images), address).Some? <==> exists image <- images :: image.address == address
  {
    var entries := Entries(images);
    EntriesTile(images);
    FindEntrySound(entries, address);
    if image :| image in images && image.address == address {
      var k :| 0 <= k < |images| && images[k] == image;
      assert entries[k] in entries;
    }
    if e :| e in entries && e.address == address {
      var k :| 0 <= k < |entries| && entries[k] == e;
      assert images[k] in images;
    }
  }

  // ------------------------------------------------------------------
  // What the log of a save must look like
  // ------------------------------------------------------------------

  /** Payload bytes written since the payload was last synced. */
  function Dirty(log: seq<Event>): nat {
    if log == [] then 0
    else
      var before := Dirty(log[..|log| - 1]);
      match log[|log| - 1]
      case Write(count) => before + count
      case SyncPayload => 0
      case _ => before
  }

  /** All payload bytes written. */
  function Written(log: seq<Event>): nat {
    if log == [] then 0
    else
      Written(log[..|log| - 1]) + if log[|log| - 1].Write? then log[|log| - 1].count else 0
  }

  /**
    After each event fewer than `bound` bytes are waiting to be synced, and a manifest
    appears only when every byte it describes has been written and synced.
   */
  ghost predicate WellLogged(log: seq<Event>, bound: nat) {
    && Dirty(log) < bound
    && (log != [] ==>
          var before, e := log[..|log| - 1], log[|log| - 1];
          && WellLogged(before, bound)
          && (e.CreateManifest? ==> Dirty(before) == 0 && Written(before) == e.total))
  }

  // The same, said of every moment of the log.
  lemma {:induction false} WellLoggedThroughout(log: seq<Event>, bound: nat)
    requires WellLogged(log, bound)
    ensures forall k :: 0 <= k <= |log| ==> Dirty(log[..k]) < bound
    ensures forall k :: 0 <= k < |log| && log[k].CreateManifest? ==>
                          Dirty(log[..k]) == 0 && Written(log[..k]) == log[k].total
  {
    if log != [] {
      var before := log[..|log| - 1];
      WellLoggedThroughout(before, bound);
      forall k | 0 <= k <= |log|
        ensures Dirty(log[..k]) < bound
        ensures k < |log| && log[k].CreateManifest? ==> Dirty(log[..k]) == 0 && Written(log[..k]) == log[k].total
      {
        if k < |log| {
          assert log[..k] == before[..k];
        } else {
          assert log[..k] == log;
        }
      }
    }
  }

  lemma LogAppend(log: seq<Event>, e: Event, bound: nat)
    requires WellLogged(log, bound)
    requires e.Write? ==> Dirty(log) + e.count < bound
    requires e.CreateManifest? ==> Dirty(log) == 0 && Written(log) == e.total
    ensures WellLogged(log + [e], bound)
    ensures Dirty(log + [e]) == (match e case Write(n) => Dirty(log) + n case SyncPayload => 0 case _ => Dirty(log))
    ensures Written(log + [e]) == Written(log) + if e.Write? then e.count else 0
  {
    assert (log + [e])[..|log|] == log;
  }

  /** `p` with `data` written over it from position `at`. */
  function Overwrite(p: seq<Byte>, at: nat, data: seq<Byte>): seq<Byte>
    requires at <= |p|
  {
    p[..at] + data + if at + |data| <= |p| then p[at + |data|..] else []
  }

  // ------------------------------------------------------------------
  // Foreign calls
  // ------------------------------------------------------------------

  /**
    The snapshot directory and the payload file opened in it. Each operation
    takes full effect or raises without effect; when `reliable`, none raises.
   */
  class SnapshotDirectory {
    const reliable: bool
    var present: bool
    var payload: seq<Byte>
    var position: nat
    var log: seq<Event>

    constructor (reliable: bool)
      ensures this.reliable == reliable
      ensures present && payload == [] && position == 0 && log == []
    {
      this.reliable := reliable;
      present, payload, position, log := true, [], 0, [];
    }

    method Truncate(total: int) returns (r: Result<Unit>)
      modifies this
      ensures present == old(present) && position == old(position)
      ensures r.Raised? ==> unchanged(this)
      ensures r.Ok? ==>
                && 0 <= total
                && payload == old(if total <= |payload| then payload[..total]
                                  else payload + seq(total - |payload|, _ => 0))
                && log == old(log) + [Event.Truncate(total)]
      ensures reliable && 0 <= total ==> r.Ok?
    {
      var fails: bool := *;
      if total < 0 || (fails && !reliable) {
        return Raised(OSError);
      }
      payload := if total <= |payload| then payload[..total] else payload + seq(total - |payload|, _ => 0);
      log := log + [Event.Truncate(total)];
      r := Ok(Unit);
    }

    /** Writes any prefix of `data`, possibly none of it. */
    method Write(data: seq<Byte>) returns (r: Result<nat>)
      requires position <= |payload|
      modifies this
      ensures present == old(present)
      ensures r.Raised? ==> unchanged(this)
      ensures r.Ok? ==>
                && r.value <= |data|
                && payload == Overwrite(old(payload), old(position), data[..r.value])
                && position == old(position) + r.value
                && log == old(log) + [Event.Write(r.value)]
      ensures reliable ==> r.Ok? && (data != [] ==> 0 < r.value)
    {
      var fails: bool := *;
      if fails && !reliable {
        return Raised(OSError);
      }
      var count: nat :| count <= |data| && (reliable && data != [] ==> 0 < count);
      payload := Overwrite(payload, position, data[..count]);
      position := position + count;
      log := log + [Event.Write(count)];
      r := Ok(count);
    }

    /** Reads at most `n` bytes at the position; none at the end of the file. */
    method ReadInto(n: nat) returns (r: Result<seq<Byte>>)
      requires 0 < n
      modifies this`position
      ensures r.Raised? ==> position == old(position) && !reliable
      ensures r.Ok? ==>
                && |r.value| <= n
                && position == old(position) + |r.value|
                && (r.value != [] ==> position <= |payload| && r.value == payload[old(position)..position])
                && (reliable && old(position) < |payload| ==> r.value != [])
    {
      var fails: bool := *;
      if fails && !reliable {
        return Raised(OSError);
      }
      if |payload| <= position {
        return Ok([]);
      }
      var count: nat :| count <= n && position + count <= |payload| && (reliable ==> 0 < count);
      r := Ok(payload[position..position + count]);
      position := position + count;
    }

    /** The fsync of the payload, the manifest or the directory, and the creation of the manifest. */
    method Log(e: Event) returns (r: Result<Unit>)
      requires !e.Write? && !e.Truncate? && !e.RemoveTree?
      modifies this`log
      ensures log == if r.Ok? then old(log) + [e] else old(log)
      ensures reliable ==> r.Ok?
    {
      var fails: bool := *;
      if fails && !reliable {
        return Raised(OSError);
      }
      log := log + [e];
      r := Ok(Unit);
    }

    method Remove() returns (ok: bool)
      modifies this`present, this`log
      ensures present == (old(present) && !ok)
      ensures log == if ok then old(log) + [RemoveTree] else old(log)
      ensures reliable ==> ok
    {
      var fails: bool := *;
      ok := !fails || reliable;
      if ok {
        present := false;
        log := log + [RemoveTree];
      }
    }
  }

  /** Copies device bytes into the front of the buffer, or raises without effect. */
  method CopyFromDevice(device: array<Byte>, address: nat, buffer: array<Byte>, n: nat, reliable: bool)
    returns (r: Result<Unit>)
    requires buffer != device && n <= buffer.Length
    modifies buffer
    ensures r.Ok? ==> address + n <= device.Length && buffer[..n] == device[address..address + n]
    ensures r.Raised? ==> buffer[..] == old(buffer[..])
    ensures reliable && address + n <= device.Length ==> r.Ok?
  {
    var fails: bool := *;
    if device.Length < address + n || (fails && !reliable) {
      return Raised(RuntimeError);
    }
    forall i | 0 <= i < n {
      buffer[i] := device[address + i];
    }
    r := Ok(Unit);
  }

  /** `memory` with `bytes` at `address`. */
  function Patch(memory: seq<Byte>, address: nat, bytes: seq<Byte>): seq<Byte>
    requires address + |bytes| <= |memory|
  {
    memory[..address] + bytes + memory[address + |bytes|..]
  }

  /** Copies the front of the buffer onto the device, or raises without effect. */
  method CopyToDevice(buffer: array<Byte>, n: nat, device: array<Byte>, address: nat, reliable: bool)
    returns (r: Result<Unit>)
    requires buffer != device && n <= buffer.Length
    modifies device
    ensures r.Ok? ==>
              && address + n <= device.Length
              && device[..] == Patch(old(device[..]), address, buffer[..n])
    ensures r.Raised? ==> device[..] == old(device[..])
    ensures reliable && address + n <= device.Length ==> r.Ok?
  {
    var fails: bool := *;
    if device.Length < address + n || (fails && !reliable) {
      return Raised(RuntimeError);
    }
    forall i | 0 <= i < n {
      device[address + i] := buffer[i];
    }
    r := Ok(Unit);
  }

  // ------------------------------------------------------------------
  // save
  // ------------------------------------------------------------------

  /** The payload, truncated to `total` at first, begins with `front`, and the next write goes behind it. */
  ghost predicate Holds(dir: SnapshotDirectory, front: seq<Byte>, total: nat)
    reads dir
  {
    && dir.position == |front|
    && |dir.payload| == Max(total, |front|)
    && dir.payload[..|front|] == front
  }

  /** Less than `bound` is ever unsynced, and all of `front` is accounted for in the log. */
  ghost predicate Logged(dir: SnapshotDirectory, written: nat, flushed: int, bound: nat)
    reads dir
  {
    && WellLogged(dir.log, bound)
    && Written(dir.log) == written
    && Dirty(dir.log) == written - flushed
  }

  lemma OverwriteAtEnd(p: seq<Byte>, front: seq<Byte>, data: seq<Byte>, total: nat)
    requires |p| == Max(total, |front|) && p[..|front|] == front
    ensures var q := Overwrite(p, |front|, data);
            |q| == Max(total, |front + data|) && q[..|front + data|] == front + data
  {
  }

  /** One call of `write`: some prefix of `data`, not the empty one, goes behind `front`. */
  method WriteOnce(dir: SnapshotDirectory, data: seq<Byte>,
                   ghost front: seq<Byte>, ghost total: nat, ghost flushed: nat, ghost bound: nat)
    returns (r: Result<nat>)
    requires data != [] && Holds(dir, front, total)
    requires Logged(dir, |front|, flushed, bound) && |front| - flushed + |data| < bound
    modifies dir
    ensures dir.present == old(dir.present)
    ensures WellLogged(dir.log, bound)
    ensures r.Ok? ==>
              && 0 < r.value <= |data|
              && Holds(dir, front + data[..r.value], total)
              && Logged(dir, |front| + r.value, flushed, bound)
    ensures dir.reliable ==> r.Ok?
  {
    ghost var log, payload := dir.log, dir.payload;
    r := dir.Write(data);
    if r.Raised? {
      return;
    }
    OverwriteAtEnd(payload, front, data[..r.value], total);
    LogAppend(log, Event.Write(r.value), bound);
    if r.value == 0 {
      return Raised(OSError);
    }
  }

  /** The inner loop of `save`: writes all of `chunk`, whatever prefixes the file accepts. */
  method WriteChunk(dir: SnapshotDirectory, chunk: seq<Byte>,
                    ghost front: seq<Byte>, ghost total: nat, ghost flushed: nat, ghost bound: nat)
    returns (r: Result<Unit>)
    requires Holds(dir, front, total)
    requires Logged(dir, |front|, flushed, bound) && |front| - flushed + |chunk| < bound
    modifies dir
    ensures dir.present == old(dir.present)
    ensures WellLogged(dir.log, bound)
    ensures r.Ok? ==> Holds(dir, front + chunk, total) && Logged(dir, |front + chunk|, flushed, bound)
    ensures dir.reliable ==> r.Ok?
  {
    var written := 0;
    ghost var now := front;
    while written < |chunk|
      invariant 0 <= written <= |chunk|
      invariant dir.present == old(dir.present)
      invariant now == front + chunk[..written] && |now| == |front| + written
      invariant Holds(dir, now, total)
      invariant Logged(dir, |front| + written, flushed, bound)
    {
      var count := WriteOnce(dir, chunk[written..], now, total, flushed, bound);
      if count.Raised? {
        return Raised(count.error);
      }
      now := now + chunk[written..][..count.value];
      written := written + count.value;
    }
    assert chunk[..written] == chunk;
    r := Ok(Unit);
  }

  /** `n` bytes of memory from `address` on, if there are that many. */
  function Part(memory: seq<Byte>, address: nat, n: nat): seq<Byte> {
    if address + n <= |memory| then memory[address..address + n] else []
  }

  /** `done` bytes of the region at `address` are digested and in the file behind `front`. */
  ghost predicate Saved(dir: SnapshotDirectory, memory: seq<Byte>, address: nat, done: nat, digest: Digest,
                        front: seq<Byte>, total: nat)
    reads dir
  {
    && (0 < done ==> address + done <= |memory|)
    && digest == Sha256(Part(memory, address, done))
    && Holds(dir, front + Part(memory, address, done), total)
  }

  /** Between two chunks the log is in order and less than 64 MiB are unsynced. */
  ghost predicate Steady(dir: SnapshotDirectory, flushed: nat, bufferLength: nat)
    reads dir
  {
    Logged(dir, dir.position, flushed, DIRTY_LIMIT + bufferLength) && dir.position - flushed < DIRTY_LIMIT
  }

  lemma PartExtends(front: seq<Byte>, memory: seq<Byte>, address: nat, done: nat, chunk: seq<Byte>)
    requires address + done + |chunk| <= |memory|
    requires chunk == memory[address + done..address + done + |chunk|]
    ensures Part(memory, address, done) + chunk == Part(memory, address, done + |chunk|)
    ensures front + Part(memory, address, done) + chunk == front + Part(memory, address, done + |chunk|)
  {
  }

  /** Bounds the dirty page cache: syncs the payload once 64 MiB of it are unsynced. */
  method SyncWhenDirty(dir: SnapshotDirectory, alreadyFlushed: nat, ghost bound: nat)
    returns (r: Result<Unit>, flushed: nat)
    requires Logged(dir, dir.position, alreadyFlushed, bound)
    modifies dir`log
    ensures WellLogged(dir.log, bound)
    ensures r.Ok? ==> Logged(dir, dir.position, flushed, bound) && dir.position - flushed < DIRTY_LIMIT
    ensures dir.reliable ==> r.Ok?
  {
    flushed := alreadyFlushed;
    if dir.position - flushed >= DIRTY_LIMIT {
      ghost var log := dir.log;
      var synced := dir.Log(SyncPayload);
      if synced.Raised? {
        return Raised(synced.error), flushed;
      }
      LogAppend(log, SyncPayload, bound);
      flushed := dir.position;
    }
    r := Ok(Unit);
  }

  /** `n` bytes of the device through the buffer. */
  method ReadDevice(device: array<Byte>, address: nat, buffer: array<Byte>, n: nat, reliable: bool)
    returns (r: Result<seq<Byte>>)
    requires buffer != device && n <= buffer.Length
    modifies buffer
    ensures r.Ok? ==> address + n <= device.Length && r.value == device[..][address..address + n]
    ensures reliable && address + n <= device.Length ==> r.Ok?
  {
    var copied := CopyFromDevice(device, address, buffer, n, reliable);
    r := if copied.Ok? then Ok(buffer[..n]) else Raised(copied.error);
  }

  /** A chunk to the file, and a sync if that makes 64 MiB dirty. */
  method WriteAndSync(dir: SnapshotDirectory, chunk: seq<Byte>, alreadyFlushed: nat,
                      ghost front: seq<Byte>, ghost total: nat, ghost bufferLength: nat)
    returns (r: Result<Unit>, flushed: nat)
    requires Holds(dir, front, total) && Steady(dir, alreadyFlushed, bufferLength) && |chunk| <= bufferLength
    modifies dir
    ensures dir.present == old(dir.present)
    ensures WellLogged(dir.log, DIRTY_LIMIT + bufferLength)
    ensures r.Ok? ==> Holds(dir, front + chunk, total) && Steady(dir, flushed, bufferLength)
    ensures dir.reliable ==> r.Ok?
  {
    ghost var bound := DIRTY_LIMIT + bufferLength;
    flushed := alreadyFlushed;
    r := WriteChunk(dir, chunk, front, total, flushed, bound);
    if r.Ok? {
      r, flushed := SyncWhenDirty(dir, flushed, bound);
    }
  }

  /** One chunk: device to buffer, buffer to digest and file, and a sync whenever 64 MiB are dirty. */
  method SaveChunk(dir: SnapshotDirectory, buffer: array<Byte>, device: array<Byte>, address: nat, done: nat,
                   length: nat, digest: Digest, alreadyFlushed: nat, ghost front: seq<Byte>, ghost total: nat)
    returns (r: Result<Digest>, flushed: nat)
    requires buffer != device && length <= buffer.Length
    requires Saved(dir, device[..], address, done, digest, front, total)
    requires Steady(dir, alreadyFlushed, buffer.Length)
    modifies dir, buffer
    ensures dir.present == old(dir.present)
    ensures WellLogged(dir.log, DIRTY_LIMIT + buffer.Length)
    ensures r.Ok? ==>
              && Saved(dir, device[..], address, done + length, r.value, front, total)
              && Steady(dir, flushed, buffer.Length)
    ensures dir.reliable && address + done + length <= device.Length ==> r.Ok?
  {
    flushed := alreadyFlushed;
    ghost var memory := device[..];
    var chunk := ReadDevice(device, address + done, buffer, length, dir.reliable);
    if chunk.Raised? {
      return Raised(chunk.error), flushed;
    }
    PartExtends(front, memory, address, done, chunk.value);
    var written;
    written, flushed := WriteAndSync(dir, chunk.value, flushed, front + Part(memory, address, done), total,
                                     buffer.Length);
    if written.Raised? {
      return Raised(written.error), flushed;
    }
    r := Ok(Sha256(digest.message + chunk.value));
  }

  /** The body of the outer loop of `save`: streams one region into the payload. */
  method SaveRegion(dir: SnapshotDirectory, region: Region, buffer: array<Byte>, device: array<Byte>,
                    alreadyFlushed: nat, ghost front: seq<Byte>, ghost total: nat)
    returns (r: Result<Entry>, flushed: nat)
    requires buffer != device && 0 < buffer.Length
    requires Holds(dir, front, total) && Steady(dir, alreadyFlushed, buffer.Length)
    modifies dir, buffer
    ensures dir.present == old(dir.present)
    ensures WellLogged(dir.log, DIRTY_LIMIT + buffer.Length)
    ensures r.Ok? ==>
              && 0 < region.size && region.address + region.size <= device.Length
              && r.value == EntryAt(ImageOf(region, device[..]), |front|)
              && Holds(dir, front + ImageOf(region, device[..]).bytes, total)
              && Steady(dir, flushed, buffer.Length)
    ensures dir.reliable && 0 < region.size && region.address + region.size <= device.Length ==> r.Ok?
  {
    flushed := alreadyFlushed;
    if region.size <= 0 {
      return Raised(ValueError), flushed;
    }
    var start := dir.position;
    var digest := Sha256([]);
    var relative := 0;
    assert front + Part(device[..], region.address, 0) == front;
    while relative < region.size
      invariant 0 <= relative
      invariant dir.present == old(dir.present)
      invariant Saved(dir, device[..], region.address, Min(relative, region.size), digest, front, total)
      invariant Steady(dir, flushed, buffer.Length)
    {
      var length := Min(buffer.Length, region.size - relative);
      var chunk;
      chunk, flushed := SaveChunk(dir, buffer, device, region.address, relative, length, digest, flushed, front, total);
      if chunk.Raised? {
        return Raised(chunk.error), flushed;
      }
      digest := chunk.value;
      relative := relative + buffer.Length;
    }
    r := Ok(Entry(region.address, region.size, region.tag, start, digest));
  }

  lemma {:induction false} SavableTotal(regions: seq<Region>, memory: seq<Byte>)
    requires Savable(regions, memory)
    ensures 0 <= TotalSize(regions)
  {
    if regions != [] {
      SavableTotal(regions[..|regions| - 1], memory);
    }
  }

  /** `entries` and `front` are what saving `regions` adds to the manifest and the payload. */
  ghost predicate Recorded(regions: seq<Region>, memory: seq<Byte>, entries: seq<Entry>, front: seq<Byte>) {
    && Savable(regions, memory)
    && entries == Entries(ImagesOf(regions, memory))
    && front == Payload(ImagesOf(regions, memory))
    && |front| == TotalSize(regions)
  }

  lemma RecordedExtends(regions: seq<Region>, n: nat, memory: seq<Byte>, entries: seq<Entry>, front: seq<Byte>)
    requires n < |regions| && Recorded(regions[..n], memory, entries, front)
    requires 0 < regions[n].size && regions[n].address + regions[n].size <= |memory|
    ensures var image := ImageOf(regions[n], memory);
            Recorded(regions[..n + 1], memory, entries + [EntryAt(image, |front|)], front + image.bytes)
  {
    assert regions[..n + 1] == regions[..n] + [regions[n]];
    assert regions[..n + 1][..n] == regions[..n];
    assert ImagesOf(regions[..n + 1], memory)[..n] == ImagesOf(regions[..n], memory);
  }

  /** The outer loop of `save`. */
  method SaveRegions(dir: SnapshotDirectory, regions: seq<Region>, buffer: array<Byte>, device: array<Byte>,
                     ghost total: nat)
    returns (r: Result<seq<Entry>>, ghost front: seq<Byte>)
    requires buffer != device && 0 < buffer.Length
    requires Holds(dir, [], total) && Steady(dir, 0, buffer.Length)
    modifies dir, buffer
    ensures dir.present == old(dir.present)
    ensures WellLogged(dir.log, DIRTY_LIMIT + buffer.Length)
    ensures r.Ok? ==>
              && Recorded(regions, device[..], r.value, front)
              && Holds(dir, front, total)
              && Written(dir.log) == |front|
    ensures dir.reliable && Savable(regions, device[..]) ==> r.Ok?
  {
    var entries: seq<Entry> := [];
    var flushed := 0;
    front := [];
    ghost var memory := device[..];
    assert ImagesOf(regions[..0], memory) == [];
    for n := 0 to |regions|
      invariant dir.present == old(dir.present)
      invariant device[..] == memory
      invariant Recorded(regions[..n], memory, entries, front)
      invariant Holds(dir, front, total) && Steady(dir, flushed, buffer.Length)
    {
      var entry;
      entry, flushed := SaveRegion(dir, regions[n], buffer, device, flushed, front, total);
      if entry.Raised? {
        return Raised(entry.error), front;
      }
      RecordedExtends(regions, n, memory, entries, front);
      entries := entries + [entry.value];
      front := front + ImageOf(regions[n], memory).bytes;
    }
    assert regions[..|regions|] == regions;
    r := Ok(entries);
  }

  method Presize(dir: SnapshotDirectory, total: int, ghost bound: nat) returns (r: Result<Unit>)
    requires dir.payload == [] && dir.position == 0 && dir.log == [] && DIRTY_LIMIT < bound
    modifies dir
    ensures dir.present == old(dir.present)
    ensures WellLogged(dir.log, bound)
    ensures r.Ok? ==> 0 <= total && Holds(dir, [], total) && Logged(dir, 0, 0, bound)
    ensures dir.reliable && 0 <= total ==> r.Ok?
  {
    r := dir.Truncate(total);
    if r.Ok? {
      LogAppend([], Event.Truncate(total), bound);
    }
  }

  method SyncAll(dir: SnapshotDirectory, ghost bound: nat) returns (r: Result<Unit>)
    requires WellLogged(dir.log, bound)
    modifies dir`log
    ensures WellLogged(dir.log, bound)
    ensures Written(dir.log) == old(Written(dir.log))
    ensures r.Ok? ==> Dirty(dir.log) == 0 && dir.log != [] && dir.log[|dir.log| - 1] == SyncPayload
    ensures dir.reliable ==> r.Ok?
  {
    ghost var log := dir.log;
    r := dir.Log(SyncPayload);
    if r.Ok? {
      LogAppend(log, SyncPayload, bound);
    }
  }

  /** The payload part of `save`: every region in order, then the final sync. */
  method SavePayload(dir: SnapshotDirectory, regions: seq<Region>, buffer: array<Byte>, device: array<Byte>, total: int)
    returns (r: Result<seq<Entry>>)
    requires buffer != device && 0 < buffer.Length
    requires dir.payload == [] && dir.position == 0 && dir.log == [] && total == TotalSize(regions)
    modifies dir, buffer
    ensures dir.present == old(dir.present)
    ensures WellLogged(dir.log, DIRTY_LIMIT + buffer.Length)
    ensures r.Ok? ==>
              && Recorded(regions, device[..], r.value, dir.payload)
              && Dirty(dir.log) == 0 && Written(dir.log) == total
              && dir.log != [] && dir.log[|dir.log| - 1] == SyncPayload
    ensures dir.reliable && Savable(regions, device[..]) ==> r.Ok?
  {
    ghost var bound := DIRTY_LIMIT + buffer.Length;
    if Savable(regions, device[..]) {
      SavableTotal(regions, device[..]);
    }
    var truncated := Presize(dir, total, bound);
    if truncated.Raised? {
      return Raised(truncated.error);
    }
    ghost var front;
    r, front := SaveRegions(dir, regions, buffer, device, total);
    if r.Raised? {
      return;
    }
    assert dir.payload == dir.payload[..|front|] == front;
    var synced := SyncAll(dir, bound);
    if synced.Raised? {
      return Raised(synced.error);
    }
  }

  datatype Snapshot = Snapshot(directory: SnapshotDirectory, entries: seq<Entry>, total: nat)

  /** The events that commit a snapshot, in order. */
  function Commit(entries: seq<Entry>, total: nat, posix: bool): seq<Event> {
    [SyncPayload, CreateManifest(entries, total), SyncManifest] + if posix then [SyncDirectory] else []
  }

  ghost predicate Committed(log: seq<Event>, entries: seq<Entry>, total: nat, posix: bool) {
    var commit := Commit(entries, total, posix);
    |commit| <= |log| && log[|log| - |commit|..] == commit
  }

  /** The manifest part of `save`. */
  method SaveManifest(dir: SnapshotDirectory, entries: seq<Entry>, total: nat, posix: bool, ghost bound: nat)
    returns (r: Result<Unit>)
    requires WellLogged(dir.log, bound) && Dirty(dir.log) == 0 && Written(dir.log) == total
    requires dir.log != [] && dir.log[|dir.log| - 1] == SyncPayload
    modifies dir`log
    ensures WellLogged(dir.log, bound)
    ensures r.Ok? ==> Committed(dir.log, entries, total, posix)
    ensures dir.reliable ==> r.Ok?
  {
    ghost var log := dir.log;
    r := dir.Log(CreateManifest(entries, total));
    if r.Raised? {
      return;
    }
    LogAppend(log, CreateManifest(entries, total), bound);
    log := dir.log;
    r := dir.Log(SyncManifest);
    if r.Raised? {
      return;
    }
    LogAppend(log, SyncManifest, bound);
    if posix {
      log := dir.log;
      r := dir.Log(SyncDirectory);
      if r.Raised? {
        return;
      }
      LogAppend(log, SyncDirectory, bound);
    }
  }

  /**
    `DiskSnapshot.save`. The device is not in the modifies clause: no outcome writes it.
    `free` is what the disk has left and `absolute` whether the root path is.
   */
  method Save(absolute: bool, free: int, posix: bool, reliable: bool,
              regions: seq<Region>, buffer: array<Byte>, device: array<Byte>)
    returns (r: Result<Snapshot>, dir: SnapshotDirectory?, removalFailed: bool)
    requires buffer != device
    modifies buffer
    ensures dir != null ==> fresh(dir) && dir.reliable == reliable && WellLogged(dir.log, DIRTY_LIMIT + buffer.Length)
    ensures r.Ok? ==>
              && dir != null && r.value.directory == dir && dir.present
              && Recorded(regions, device[..], r.value.entries, dir.payload)
              && r.value.total == |dir.payload| == TotalSize(regions)
              && Committed(dir.log, r.value.entries, r.value.total, posix)
    ensures r.Raised? && dir != null ==> (dir.present <==> removalFailed)
    ensures reliable ==>
              && !removalFailed
              && (r.Ok? <==> && absolute && 0 < buffer.Length && TotalSize(regions) + DIRTY_LIMIT <= free
                             && Savable(regions, device[..]))
  {
    dir, removalFailed := null, false;
    if !absolute {
      return Raised(ValueError), dir, removalFailed;
    }
    if buffer.Length == 0 {
      return Raised(ValueError), dir, removalFailed;
    }
    var total := TotalSize(regions);
    if free < total + DIRTY_LIMIT {
      return Raised(OSError), dir, removalFailed;
    }
    var fails: bool := *;
    if fails && !reliable {
      return Raised(OSError), dir, removalFailed;
    }
    dir := new SnapshotDirectory(reliable);
    var entries := SavePayload(dir, regions, buffer, device, total);
    var outcome: Result<Unit>;
    if entries.Ok? {
      outcome := SaveManifest(dir, entries.value, total, posix, DIRTY_LIMIT + buffer.Length);
    } else {
      outcome := Raised(entries.error);
    }
    if outcome.Raised? {
      ghost var log := dir.log;
      var removed := dir.Remove();
      if removed {
        LogAppend(log, RemoveTree, DIRTY_LIMIT + buffer.Length);
      }
      return Raised(outcome.error), dir, !removed;
    }
    r := Ok(Snapshot(dir, entries.value, total));
  }

  // ------------------------------------------------------------------
  // restore_region
  // ------------------------------------------------------------------

  lemma Consecutive(s: seq<Byte>, a: nat, b: nat, c: nat)
    requires a <= b <= c <= |s|
    ensures s[a..b] + s[b..c] == s[a..c]
  {
  }

  /** The inner loop of `restore_region`: fills the front of the buffer, however short the reads are. */
  method ReadChunk(dir: SnapshotDirectory, buffer: array<Byte>, length: nat) returns (r: Result<Unit>)
    requires length <= buffer.Length
    modifies dir`position, buffer
    ensures r.Ok? && 0 < length ==>
              && dir.position == old(dir.position) + length <= |dir.payload|
              && buffer[..length] == dir.payload[old(dir.position)..dir.position]
    ensures r.Ok? && length == 0 ==> dir.position == old(dir.position)
    ensures dir.reliable && old(dir.position) + length <= |dir.payload| ==> r.Ok?
  {
    var count := 0;
    while count < length
      invariant 0 <= count <= length
      invariant dir.position == old(dir.position) + count
      invariant 0 < count ==> dir.position <= |dir.payload|
                              && buffer[..count] == dir.payload[old(dir.position)..dir.position]
    {
      ghost var before := buffer[..count];
      var got := dir.ReadInto(length - count);
      if got.Raised? {
        return Raised(got.error);
      }
      if got.value == [] {
        return Raised(OSError);
      }
      forall i | 0 <= i < |got.value| {
        buffer[count + i] := got.value[i];
      }
      assert buffer[..count] == before;
      assert buffer[..count + |got.value|] == before + got.value;
      Consecutive(dir.payload, old(dir.position), dir.position - |got.value|, dir.position);
      count := count + |got.value|;
    }
    r := Ok(Unit);
  }

  lemma PatchTwice(memory: seq<Byte>, address: nat, a: seq<Byte>, b: seq<Byte>)
    requires address + |a| + |b| <= |memory|
    ensures Patch(Patch(memory, address, a), address + |a|, b) == Patch(memory, address, a + b)
  {
  }

  /** `done` bytes of the entry are digested and on the device, which is otherwise as before. */
  ghost predicate Restored(payload: seq<Byte>, e: Entry, address: nat, done: nat, digest: Digest,
                           before: seq<Byte>, now: seq<Byte>)
  {
    && (0 < done ==> e.offset + done <= |payload| && address + done <= |before|)
    && digest == Sha256(Part(payload, e.offset, done))
    && |now| == |before|
    && now == if done == 0 then before else Patch(before, address, Part(payload, e.offset, done))
  }

  lemma RestoredExtends(payload: seq<Byte>, e: Entry, address: nat, done: nat, digest: Digest,
                        before: seq<Byte>, now: seq<Byte>, chunk: seq<Byte>)
    requires Restored(payload, e, address, done, digest, before, now)
    requires 0 < |chunk| && e.offset + done + |chunk| <= |payload| && address + done + |chunk| <= |before|
    requires chunk == payload[e.offset + done..e.offset + done + |chunk|]
    ensures Restored(payload, e, address, done + |chunk|, Sha256(digest.message + chunk),
                     before, Patch(now, address + done, chunk))
  {
    var part := Part(payload, e.offset, done);
    PartExtends([], payload, e.offset, done, chunk);
    if done > 0 {
      PatchTwice(before, address, part, chunk);
    } else {
      assert part + chunk == chunk;
    }
  }

  ghost predicate UnchangedOutside(before: seq<Byte>, now: seq<Byte>, address: nat, size: nat) {
    && |now| == |before|
    && forall i :: 0 <= i < |now| && !(address <= i < address + size) ==> now[i] == before[i]
  }

  lemma RestoredStaysInside(payload: seq<Byte>, e: Entry, address: nat, done: nat, digest: Digest,
                            before: seq<Byte>, now: seq<Byte>)
    requires Restored(payload, e, address, done, digest, before, now) && done <= e.size
    ensures UnchangedOutside(before, now, address, e.size)
  {
  }

  /** One chunk from the file through the buffer to the device. */
  method Transfer(dir: SnapshotDirectory, length: nat, buffer: array<Byte>, device: array<Byte>, address: nat)
    returns (r: Result<seq<Byte>>)
    requires buffer != device && 0 < length <= buffer.Length
    modifies dir`position, buffer, device
    ensures r.Raised? ==> device[..] == old(device[..])
    ensures r.Ok? ==>
              && dir.position == old(dir.position) + length <= |dir.payload|
              && r.value == dir.payload[old(dir.position)..dir.position]
              && address + length <= device.Length
              && device[..] == Patch(old(device[..]), address, r.value)
    ensures dir.reliable && old(dir.position) + length <= |dir.payload| && address + length <= device.Length
            ==> r.Ok?
  {
    var read := ReadChunk(dir, buffer, length);
    if read.Raised? {
      return Raised(read.error);
    }
    var written := CopyToDevice(buffer, length, device, address, dir.reliable);
    if written.Raised? {
      return Raised(written.error);
    }
    r := Ok(buffer[..length]);
  }

  /** One iteration of the chunk loop: the chunk is on the device and in the digest. */
  method RestoreChunk(dir: SnapshotDirectory, e: Entry, address: nat, done: nat, length: nat, digest: Digest,
                      buffer: array<Byte>, device: array<Byte>, ghost before: seq<Byte>)
    returns (r: Result<Digest>)
    requires buffer != device && 0 < length <= buffer.Length && dir.position == e.offset + done
    requires Restored(dir.payload, e, address, done, digest, before, device[..])
    modifies dir`position, buffer, device
    ensures r.Raised? ==> device[..] == old(device[..])
    ensures r.Ok? ==>
              && dir.position == e.offset + done + length
              && Restored(dir.payload, e, address, done + length, r.value, before, device[..])
    ensures dir.reliable && e.offset + done + length <= |dir.payload| && address + done + length <= device.Length
            ==> r.Ok?
  {
    ghost var now := device[..];
    var chunk := Transfer(dir, length, buffer, device, address + done);
    if chunk.Raised? {
      return Raised(chunk.error);
    }
    assert device[..] == Patch(now, address + done, chunk.value);
    RestoredExtends(dir.payload, e, address, done, digest, before, now, chunk.value);
    r := Ok(Sha256(digest.message + chunk.value));
  }

  /** The chunk loop of `restore_region`. Bytes reach the device before their digest is checked. */
  method RestoreChunks(dir: SnapshotDirectory, e: Entry, address: nat, buffer: array<Byte>, device: array<Byte>)
    returns (r: Result<Digest>)
    requires buffer != device && 0 < buffer.Length && 0 < e.size && dir.position == e.offset
    modifies dir`position, buffer, device
    ensures r.Ok? ==> Restored(dir.payload, e, address, e.size, r.value, old(device[..]), device[..])
    ensures UnchangedOutside(old(device[..]), device[..], address, e.size)
    ensures dir.reliable && e.offset + e.size <= |dir.payload| && address + e.size <= device.Length ==> r.Ok?
  {
    var digest := Sha256([]);
    var relative := 0;
    ghost var before := device[..];
    while relative < e.size
      invariant 0 <= relative
      invariant dir.position == e.offset + Min(relative, e.size)
      invariant Restored(dir.payload, e, address, Min(relative, e.size), digest, before, device[..])
    {
      RestoredStaysInside(dir.payload, e, address, relative, digest, before, device[..]);
      var length := Min(buffer.Length, e.size - relative);
      var chunk := RestoreChunk(dir, e, address, relative, length, digest, buffer, device, before);
      if chunk.Raised? {
        return Raised(chunk.error);
      }
      digest := chunk.value;
      relative := relative + buffer.Length;
    }
    RestoredStaysInside(dir.payload, e, address, e.size, digest, before, device[..]);
    r := Ok(digest);
  }

  /**
    `DiskSnapshot.restore_region`. It returns normally only if the whole payload is there and
    the region's digest matches, and then those bytes are on the device. A payload of the wrong
    length is refused before anything is written; no outcome touches bytes outside the region.
   */
  method RestoreRegion(snapshot: Snapshot, address: nat, buffer: array<Byte>, device: array<Byte>)
    returns (r: Result<Unit>)
    requires buffer != device
    requires forall e <- snapshot.entries :: 0 < e.size
    modifies snapshot.directory`position, buffer, device
    ensures var verified := Verified(snapshot.entries, snapshot.total, snapshot.directory.payload, address);
            && (r.Ok? ==>
                  && verified.Some?
                  && address + |verified.value| <= device.Length
                  && device[..] == Patch(old(device[..]), address, verified.value))
            && (verified.Some? && address + |verified.value| <= device.Length
                && snapshot.directory.reliable && snapshot.directory.present && 0 < buffer.Length
                ==> r.Ok?)
    ensures FindEntry(snapshot.entries, address).None?
            || |snapshot.directory.payload| != snapshot.total
            || !snapshot.directory.present
            ==> r.Raised? && device[..] == old(device[..])
    ensures FindEntry(snapshot.entries, address).Some? ==>
              UnchangedOutside(old(device[..]), device[..], address, FindEntry(snapshot.entries, address).value.size)
  {
    var dir := snapshot.directory;
    var found := FindEntry(snapshot.entries, address);
    if found.None? {
      return Raised(LookupFailed);
    }
    FindEntrySound(snapshot.entries, address);
    var e := found.value;
    if !dir.present {
      return Raised(OSError);
    }
    if |dir.payload| != snapshot.total {
      return Raised(OSError);
    }
    if buffer.Length == 0 {
      return Raised(ValueError);
    }
    dir.position := e.offset;
    var digest := RestoreChunks(dir, e, address, buffer, device);
    if digest.Raised? {
      return Raised(digest.error);
    }
    if digest.value != e.sha256 {
      return Raised(OSError);
    }
    r := Ok(Unit);
  }

  /** `memory` and `saved` agree on the bytes of a region. */
  ghost predicate Agree(memory: seq<Byte>, saved: seq<Byte>, r: Region) {
    && 0 < r.size && r.address + r.size <= |memory| && r.address + r.size <= |saved|
    && forall x :: r.address <= x < r.address + r.size ==> memory[x] == saved[x]
  }

  ghost predicate DistinctRegions(regions: seq<Region>) {
    forall i, j :: 0 <= i < j < |regions| ==> regions[i].address != regions[j].address
  }

  // A region that verifies against an untouched payload verifies with its saved bytes.
  lemma RegionVerifies(regions: seq<Region>, memory: seq<Byte>, i: nat)
    requires i < |regions| && Savable(regions, memory) && DistinctRegions(regions)
    ensures var images := ImagesOf(regions, memory);
            Verified(Entries(images), |Payload(images)|, Payload(images), regions[i].address)
            == Some(memory[regions[i].address..regions[i].address + regions[i].size])
  {
    RoundTrip(ImagesOf(regions, memory), i);
  }

  // Copying a saved region over the memory restores it, and leaves other restored regions restored, even where
  // they overlap.
  lemma PatchAgrees(before: seq<Byte>, saved: seq<Byte>, r: Region, other: Region)
    requires 0 < r.size && r.address + r.size <= |before| && r.address + r.size <= |saved|
    requires other == r || Agree(before, saved, other)
    ensures Agree(Patch(before, r.address, saved[r.address..r.address + r.size]), saved, other)
  {
  }

  /** The first n regions of an order agree. */
  ghost predicate AgreeUpTo(memory: seq<Byte>, saved: seq<Byte>, regions: seq<Region>, order: seq<nat>, n: nat)
    requires n <= |order| && forall m :: 0 <= m < |order| ==> order[m] < |regions|
  {
    forall m :: 0 <= m < n ==> Agree(memory, saved, regions[order[m]])
  }

  lemma OneMoreAgrees(before: seq<Byte>, now: seq<Byte>, saved: seq<Byte>, regions: seq<Region>, order: seq<nat>,
                      n: nat)
    requires n < |order| && forall m :: 0 <= m < |order| ==> order[m] < |regions|
    requires AgreeUpTo(before, saved, regions, order, n)
    requires var r := regions[order[n]];
             0 < r.size && r.address + r.size <= |before| && r.address + r.size <= |saved|
    requires var r := regions[order[n]]; now == Patch(before, r.address, saved[r.address..r.address + r.size])
    ensures AgreeUpTo(now, saved, regions, order, n + 1)
  {
    var r := regions[order[n]];
    forall m | 0 <= m < n + 1
      ensures Agree(now, saved, regions[order[m]])
    {
      PatchAgrees(before, saved, r, regions[order[m]]);
    }
  }

  /** `snapshot` is what saving `regions` of `memory` committed, and nobody touched its payload since. */
  ghost predicate Untouched(snapshot: Snapshot, regions: seq<Region>, memory: seq<Byte>)
    reads snapshot.directory
  {
    && DistinctRegions(regions)
    && Recorded(regions, memory, snapshot.entries, snapshot.directory.payload)
    && snapshot.total == |snapshot.directory.payload|
  }

  lemma UntouchedVerifies(snapshot: Snapshot, regions: seq<Region>, memory: seq<Byte>, i: nat)
    requires Untouched(snapshot, regions, memory) && i < |regions|
    ensures forall e <- snapshot.entries :: 0 < e.size
    ensures Savable(regions, memory)
    ensures var r := regions[i];
            Verified(snapshot.entries, snapshot.total, snapshot.directory.payload, r.address)
            == Some(memory[r.address..r.address + r.size])
  {
    EntriesTile(ImagesOf(regions, memory));
    RegionVerifies(regions, memory, i);
  }

  method RestoreSaved(snapshot: Snapshot, regions: seq<Region>, i: nat, ghost memory: seq<Byte>,
                      buffer: array<Byte>, target: array<Byte>)
    returns (r: Result<Unit>)
    requires buffer != target && i < |regions| && Untouched(snapshot, regions, memory)
    modifies snapshot.directory`position, buffer, target
    ensures r.Ok? ==>
              && var region := regions[i];
              && 0 < region.size && region.address + region.size <= |memory|
              && region.address + region.size <= target.Length
              && target[..] == Patch(old(target[..]), region.address,
                                     memory[region.address..region.address + region.size])
    ensures && snapshot.directory.reliable && snapshot.directory.present && 0 < buffer.Length
            && regions[i].address + regions[i].size <= target.Length
            ==> r.Ok?
  {
    UntouchedVerifies(snapshot, regions, memory, i);
    r := RestoreRegion(snapshot, regions[i].address, buffer, target);
  }

  /** One more region of an order. */
  method RestoreNext(snapshot: Snapshot, regions: seq<Region>, order: seq<nat>, n: nat, ghost memory: seq<Byte>,
                     buffer: array<Byte>, target: array<Byte>)
    returns (r: Result<Unit>)
    requires buffer != target && Untouched(snapshot, regions, memory)
    requires n < |order| && forall m :: 0 <= m < |order| ==> order[m] < |regions|
    requires AgreeUpTo(target[..], memory, regions, order, n)
    modifies snapshot.directory`position, buffer, target
    ensures r.Ok? ==> AgreeUpTo(target[..], memory, regions, order, n + 1)
    ensures && snapshot.directory.reliable && snapshot.directory.present && 0 < buffer.Length
            && regions[order[n]].address + regions[order[n]].size <= target.Length
            ==> r.Ok?
  {
    ghost var before := target[..];
    r := RestoreSaved(snapshot, regions, order[n], memory, buffer, target);
    if r.Ok? {
      ghost var now := target[..];
      OneMoreAgrees(before, now, memory, regions, order, n);
    }
  }

  /**
    Restoring regions in any order, any number of times, onto a device that holds anything
    puts the saved bytes there, as long as nobody touched the payload.
   */
  method RestoreRegions(snapshot: Snapshot, regions: seq<Region>, order: seq<nat>, ghost memory: seq<Byte>,
                        buffer: array<Byte>, target: array<Byte>)
    returns (r: Result<Unit>)
    requires buffer != target && Untouched(snapshot, regions, memory)
    requires forall n :: 0 <= n < |order| ==> order[n] < |regions|
    modifies snapshot.directory`position, buffer, target
    ensures r.Ok? ==> forall n :: 0 <= n < |order| ==> Agree(target[..], memory, regions[order[n]])
    ensures && snapshot.directory.reliable && snapshot.directory.present && 0 < buffer.Length
            && (forall region <- regions :: region.address + region.size <= target.Length)
            ==> r.Ok?
  {
    for n := 0 to |order|
      invariant AgreeUpTo(target[..], memory, regions, order, n)
    {
      r := RestoreNext(snapshot, regions, order, n, memory, buffer, target);
      if r.Raised? {
        return;
      }
    }
    r := Ok(Unit);
  }

  /** The round trip end to end, with two buffers of any nonzero length. */
  method SaveThenRestore(free: int, posix: bool, reliable: bool, regions: seq<Region>, order: seq<nat>,
                         saveBuffer: array<Byte>, restoreBuffer: array<Byte>, device: array<Byte>, target: array<Byte>)
    returns (r: Result<Unit>)
    requires saveBuffer != device && restoreBuffer != target && target != device && saveBuffer != target
    requires restoreBuffer != device && DistinctRegions(regions)
    requires forall n :: 0 <= n < |order| ==> order[n] < |regions|
    modifies saveBuffer, restoreBuffer, target
    ensures r.Ok? ==> forall n :: 0 <= n < |order| ==> Agree(target[..], device[..], regions[order[n]])
    ensures && reliable && 0 < saveBuffer.Length && 0 < restoreBuffer.Length
            && TotalSize(regions) + DIRTY_LIMIT <= free
            && Savable(regions, device[..]) && Savable(regions, target[..])
            ==> r.Ok?
  {
    var snapshot, dir, _ := Save(true, free, posix, reliable, regions, saveBuffer, device);
    if snapshot.Raised? {
      return Raised(snapshot.error);
    }
    r := RestoreRegions(snapshot.value, regions, order, device[..], restoreBuffer, target);
  }
}
