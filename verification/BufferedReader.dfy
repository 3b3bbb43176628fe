// internal/bufferedread/buffered_reader.go: the reader itself.  Its methods work on its
// fields; the ghost trace records the events they and the download tasks produce, so
// that all that is proved of runs holds of every sequence of calls.
module BufferedReaders {
  import opened Bytes
  import opened Blocks
  import opened BlockPools
  import opened ReaderState
  import opened ReaderProofs
  import opened ReaderRuns
  import opened ReaderDemand

  datatype ReadError = NoError | EndOfFile | FallbackToAnotherReader | WaitFailed | DownloadError

  datatype ScheduleResult = Scheduled | NoMemory | NoBlock

  /** `buffer[lo..hi]` of the block of an entry: a slice that aliases the block's memory. */
  datatype Slice = Slice(entry: EntryId, lo: int, hi: int)

  datatype Response = Response(data: seq<Slice>, size: int)

  // ------------------------------------------------- references and slices

  /** All references of `s` are still out in `t`, and what they refer to is untouched. */
  ghost predicate Keeps(s: State, t: State) {
    && t.cfg == s.cfg && s.inflight <= t.inflight
    && (forall e <- s.inflight :: Untouched(s, t, e))
  }

  /** And a contiguous window stays one. */
  ghost predicate Preserves(s: State, t: State) {
    Keeps(s, t) && (Windowed(s) ==> Windowed(t))
  }

  /** What is still referenced in `s` is as it was in `r`, and no queued block has failed since. */
  ghost predicate Remains(r: State, s: State) {
    (forall e <- s.inflight :: Untouched(r, s, e)) && (Sound(r) ==> Sound(s))
  }

  lemma PreservesItself(s: State)
    requires Inv(s)
    ensures Preserves(s, s)
  {
    hide Inv, Untouched;
    forall e | e in s.inflight ensures Untouched(s, s, e) {
      SameAsItself(s, e);
    }
  }

  lemma KeepsThen(r: State, s: State, t: State)
    requires Keeps(r, s) && Keeps(s, t)
    ensures Keeps(r, t)
  {
    hide Untouched;
    forall e | e in r.inflight ensures Untouched(r, t, e) {
      SameOverTwo(r, s, t, e);
    }
  }

  lemma PreservesTwice(r: State, s: State, t: State)
    requires Preserves(r, s) && Preserves(s, t)
    ensures Preserves(r, t)
  {
    hide Untouched, Windowed;
    KeepsThen(r, s, t);
  }

  lemma PreservedAfter(r: State, s: State, t: State)
    requires Keeps(r, s) && Preserves(s, t)
    ensures Keeps(r, t) && (Preserves(r, s) ==> Preserves(r, t)) && (Windowed(s) ==> Windowed(t))
  {
    hide Untouched, Windowed;
    KeepsThen(r, s, t);
  }

  lemma RemainsItself(s: State)
    requires Inv(s)
    ensures Remains(s, s)
  {
    hide Inv;
    PreservesItself(s);
  }

  lemma StepKeeps(s: State, ev: Event)
    requires Inv(s) && Guard(s, ev) && !ev.Callback? && !ev.Leak?
    ensures Keeps(s, Next(s, ev))
  {
    hide Inv, Untouched;
    forall e | e in s.inflight ensures Untouched(s, Next(s, ev), e) {
      StepKeepsReference(s, ev, e);
    }
  }

  lemma StepPreserves(s: State, ev: Event)
    requires Inv(s) && Guard(s, ev) && !ev.Callback? && !ev.Leak? && !Jumps(s, ev)
    ensures Preserves(s, Next(s, ev))
  {
    hide Inv, Windowed;
    StepKeeps(s, ev);
    if Windowed(s) { NextKeepsWindow(s, ev); }
  }

  /** The slice lies within the data of its block. */
  ghost predicate Placed(s: State, x: Slice) {
    && x.entry < |s.entries| && s.entries[x.entry].block < |s.blocks|
    && 0 <= x.lo < x.hi <= s.blocks[s.entries[x.entry].block].mem.Size()
  }

  ghost predicate ValidSlice(s: State, x: Slice) {
    x.entry in s.inflight && Placed(s, x)
  }

  ghost function SliceStart(s: State, x: Slice): int
    requires Placed(s, x)
  {
    s.blocks[s.entries[x.entry].block].absStartOff + x.lo
  }

  ghost function SliceBytes(s: State, x: Slice): seq<byte>
    requires Placed(s, x)
  {
    s.blocks[s.entries[x.entry].block].mem.buffer[x.lo .. x.hi]
  }

  /** The slice starts at `offset`, is as long as wanted or up to its block's end, and holds the object's bytes. */
  ghost predicate Serves(s: State, x: Slice, offset: int, want: int) {
    && ValidSlice(s, x) && 0 <= offset == SliceStart(s, x)
    && x.hi - x.lo == Min(want, s.cfg.Limit(offset - x.lo) - offset)
    && offset + x.hi - x.lo <= s.cfg.Size()
    && SliceBytes(s, x) == s.cfg.content[offset .. offset + x.hi - x.lo]
  }

  /** The bytes a caller sees through the slices. */
  ghost function Data(s: State, slices: seq<Slice>): seq<byte>
    requires forall k :: 0 <= k < |slices| ==> ValidSlice(s, slices[k])
  {
    if slices == [] then []
    else
      var last := slices[|slices| - 1];
      assert ValidSlice(s, last);
      Data(s, slices[..|slices| - 1]) + SliceBytes(s, last)
  }

  lemma SliceStays(s: State, t: State, x: Slice)
    requires Preserves(s, t) && ValidSlice(s, x)
    ensures ValidSlice(t, x) && SliceStart(t, x) == SliceStart(s, x)
    ensures SliceBytes(t, x) == SliceBytes(s, x)
  {
    assert Untouched(s, t, x.entry);
  }

  lemma DataStays(s: State, t: State, slices: seq<Slice>)
    requires Preserves(s, t) && forall k :: 0 <= k < |slices| ==> ValidSlice(s, slices[k])
    ensures forall k :: 0 <= k < |slices| ==>
      Placed(s, slices[k]) && ValidSlice(t, slices[k]) && SliceStart(t, slices[k]) == SliceStart(s, slices[k])
    ensures Data(t, slices) == Data(s, slices)
  {
    hide Preserves;
    forall k | 0 <= k < |slices|
      ensures Placed(s, slices[k]) && ValidSlice(t, slices[k]) && SliceStart(t, slices[k]) == SliceStart(s, slices[k])
    {
      SliceStays(s, t, slices[k]);
    }
    if slices != [] {
      DataStays(s, t, slices[..|slices| - 1]);
      SliceStays(s, t, slices[|slices| - 1]);
    }
  }

  lemma TaskRoom(s: State, b: BlockId)
    requires Inv(s) && b in s.tasks
    ensures b < |s.blocks| && s.blocks[b].absStartOff + s.blocks[b].mem.Size() <= s.cfg.Limit(s.blocks[b].absStartOff)
  {
    TaskBlock(s, b);
    InUseBlock(s, b);
  }

  lemma FailedHasNoRefs(s: State, b: BlockId)
    requires Inv(s) && b in s.holder && b < |s.blocks| && s.blocks[b].status == DownloadFailed
    ensures s.blocks[b].refCount <= 0
  {
    InUseBlock(s, b);
  }

  lemma NextInFile(s: State)
    requires Inv(s)
    ensures 0 <= s.next <= BlockCount(s.cfg.Size(), s.cfg.blockSize)
  {
  }

  /** The head block is the one that `offset` falls into. */
  predicate Covers(s: State, offset: int)
    requires WellFormed(s)
  {
    s.queue != [] && Head(s).absStartOff <= offset < Head(s).absStartOff + s.cfg.blockSize
  }

  lemma HeadIsFaithful(s: State)
    requires Inv(s) && s.queue != []
    ensures Faithful(s.cfg, Head(s)) && Head(s).mem.capacity == s.cfg.blockSize
  {
    QueuedBlock(s, 0);
    InUseBlock(s, s.entries[s.queue[0]].block);
  }

  lemma CoveringHead(s: State, offset: int)
    requires offset >= 0 && Inv(s) && Covers(s, offset)
    ensures Head(s).absStartOff == StartAt(s.cfg, offset) && Head(s).mem.capacity == s.cfg.blockSize
  {
    hide Partition, Counted, Owned, Referenced, Consistent, StartOf;
    HeadIsFaithful(s);
    Covering(offset, Head(s).absStartOff / s.cfg.blockSize, s.cfg.blockSize);
  }

  lemma HeadStart(s: State)
    requires Inv(s) && Windowed(s) && s.queue != []
    ensures |s.queue| <= s.next && Head(s).absStartOff == StartOf(s.next - |s.queue|, s.cfg.blockSize)
    ensures Head(s).mem.capacity == s.cfg.blockSize
  {
    QueuedBlock(s, 0);
    InUseBlock(s, s.entries[s.queue[0]].block);
  }

  /** In a contiguous window the head covers `offset` exactly if it is the block of that index. */
  lemma CoveringIndex(s: State, offset: int)
    requires Inv(s) && Windowed(s) && s.queue != [] && offset >= 0
    ensures Covers(s, offset) <==> s.next - |s.queue| == offset / s.cfg.blockSize
  {
    hide Partition, Counted, Owned, Referenced, Consistent, Faithful, StartOf;
    HeadStart(s);
    Covering(offset, s.next - |s.queue|, s.cfg.blockSize);
  }

  /** The offset lies in the part of the object that the queue covers. */
  predicate InWindow(s: State, offset: int)
    requires s.cfg.blockSize > 0
  {
    s.queue != [] && s.next - |s.queue| <= offset / s.cfg.blockSize < s.next
  }

  predicate RandomSeek(s: State, offset: int)
    requires s.cfg.blockSize > 0
  {
    if s.queue == [] then offset != 0 else !InWindow(s, offset)
  }

  /** How many entries at the front of the queue do not reach `offset`. */
  function Dropped(s: State, offset: int): (n: nat)
    requires s.cfg.blockSize > 0
    ensures n <= |s.queue|
  {
    if InWindow(s, offset) then offset / s.cfg.blockSize - (s.next - |s.queue|) else |s.queue|
  }

  lemma WindowEnd(s: State, offset: int)
    requires Inv(s) && Windowed(s) && s.queue != [] && offset >= 0
    ensures InWindow(s, offset) <==>
      Head(s).absStartOff <= offset < Head(s).absStartOff + |s.queue| * s.cfg.blockSize
  {
    hide Faithful, Partition, Counted, Owned, Referenced, InFile, Window, Windowed;
    HeadStart(s);
    Stretch(s.next - |s.queue|, s.next, offset, s.cfg.blockSize);
  }

  lemma LeakPreserves(r: State, s: State, refs: multiset<EntryId>)
    requires Inv(s) && Preserves(r, s) && refs <= s.inflight && r.inflight <= s.inflight - refs
    ensures Preserves(r, Next(s, Leak(refs)))
  {
    hide Inv, Windowed;
    forall e | e in r.inflight ensures Untouched(r, Next(s, Leak(refs)), e) {
      assert e in s.inflight;
      SameAsItself(s, e);
    }
    if Windowed(s) { NextKeepsWindow(s, Leak(refs)); }
  }

  /** What a ready head block offers at `offset`: bytes of the object, and at least one. */
  lemma HeadSlice(s: State, offset: int)
    requires Inv(s) && Covers(s, offset) && 0 <= offset < s.cfg.Size()
    requires Head(s).notification == Closed && Head(s).status == Downloaded
    ensures 0 <= Head(s).absStartOff <= offset < Head(s).absStartOff + Head(s).mem.Size()
    ensures Head(s).absStartOff + Head(s).mem.Size() == s.cfg.Limit(Head(s).absStartOff)
    ensures Head(s).mem.buffer == s.cfg.content[Head(s).absStartOff .. s.cfg.Limit(Head(s).absStartOff)]
  {
    hide Partition, Counted, Owned, Referenced, InFile, StartOf;
    HeadIsFaithful(s);
  }

  lemma ClosedIsDecided(s: State, b: BlockId)
    requires Inv(s) && b in s.holder && b < |s.blocks| && s.blocks[b].notification == Closed
    ensures s.blocks[b].status == Downloaded || s.blocks[b].status == DownloadFailed
  {
    InUseBlock(s, b);
  }

  /** Where the `k`-th slice of a read starts: at a block boundary, except for the first. */
  function Position(offset: nat, k: nat, blockSize: nat): (p: nat)
    requires blockSize > 0
  {
    if k == 0 then offset else StartOf(offset / blockSize + k, blockSize)
  }

  /** The `k`-th block a read touches is the `k`-th after the one that covers its offset. */
  lemma NextBlockOffset(offset: nat, k: nat, at: nat, blockSize: nat)
    requires blockSize > 0
    requires at == Position(offset, k, blockSize)
    ensures StartOf(at / blockSize, blockSize) + blockSize == Position(offset, k + 1, blockSize)
  {
    Covering(at, offset / blockSize + k, blockSize);
  }

  lemma ValidParts(s: State)
    requires Inv(s)
    ensures s.cfg.Valid() && WellFormed(s)
  {
  }

  lemma CallbackKeepsOthers(r: State, s: State, f: EntryId)
    requires Inv(s) && Guard(s, Callback(f)) && Remains(r, s)
    ensures Remains(r, Next(s, Callback(f)))
  {
    hide Inv, Untouched, Sound;
    if Sound(s) { CallbackSound(s, f); }
    forall e | e in Next(s, Callback(f)).inflight ensures Untouched(r, Next(s, Callback(f)), e) {
      StepKeepsReference(s, Callback(f), e);
      SameOverTwo(r, s, Next(s, Callback(f)), e);
    }
  }

  lemma CallbackRemains(r: State, s: State, f: EntryId)
    requires Inv(s) && f in s.inflight && Remains(r, s)
    ensures f < |s.entries| && Guard(s, Callback(f)) && Remains(r, Next(s, Callback(f)))
    ensures Windowed(s) ==> Windowed(Next(s, Callback(f)))
  {
    hide Inv, Remains, Windowed, Untouched;
    ReferencedBlock(s, f);
    if Windowed(s) { NextKeepsWindow(s, Callback(f)); }
    CallbackKeepsOthers(r, s, f);
  }

  function Tail(refs: seq<EntryId>, i: nat): multiset<EntryId>
    requires i <= |refs|
  {
    multiset(refs[i..])
  }

  lemma WholeTail(all: multiset<EntryId>, refs: seq<EntryId>)
    requires multiset(refs) <= all
    ensures all == all - multiset(refs) + Tail(refs, 0) && Tail(refs, |refs|) == multiset{}
  {
    assert refs[0..] == refs;
  }

  lemma TailStep(rest: multiset<EntryId>, refs: seq<EntryId>, i: nat, m: multiset<EntryId>)
    requires i < |refs| && m == rest + Tail(refs, i)
    ensures refs[i] in m && m - multiset{refs[i]} == rest + Tail(refs, i + 1)
  {
    assert refs[i..] == [refs[i]] + refs[i + 1..];
  }

  lemma NoTaskLeft(s: State)
    requires Inv(s) && s.queue == []
    ensures s.tasks == {}
  {
    forall b | b in s.tasks ensures false {
      TaskBlock(s, b);
      InUseBlock(s, b);
      SettledByReference(s.cfg, s.blocks[b]);
    }
  }

  lemma QueuedEntry(s: State, e: EntryId)
    requires Inv(s) && e in s.queue
    ensures e < |s.entries|
    ensures var b := s.entries[e].block; b in s.holder && s.holder[b] == e
  {
    var i :| 0 <= i < |s.queue| && s.queue[i] == e;
    QueuedBlock(s, i);
  }

  lemma SliceOfContent(content: seq<byte>, start: int, limit: int, lo: int, hi: int)
    requires 0 <= start && start + hi <= limit <= |content| && 0 <= lo <= hi
    ensures content[start .. limit][lo .. hi] == content[start + lo .. start + hi]
  {
    var a, b := content[start .. limit][lo .. hi], content[start + lo .. start + hi];
    assert |a| == |b| && forall i :: 0 <= i < |a| ==> a[i] == b[i];
  }

  function Entries(slices: seq<Slice>): multiset<EntryId> {
    multiset(seq(|slices|, i requires 0 <= i < |slices| => slices[i].entry))
  }

  lemma EntriesOfMore(slices: seq<Slice>, x: Slice)
    ensures Entries(slices + [x]) == Entries(slices) + multiset{x.entry}
  {
    var a, b := seq(|slices|, i requires 0 <= i < |slices| => slices[i].entry), slices + [x];
    assert seq(|b|, i requires 0 <= i < |b| => b[i].entry) == a + [x.entry];
  }

  /**
   * The slices are valid, each but the first starts at the start of the next block, and
   * together they read as the object from `offset` up to `end`.
   */
  ghost predicate Reads(s: State, slices: seq<Slice>, offset: int, end: int) {
    && s.cfg.blockSize > 0 && 0 <= offset <= end <= s.cfg.Size()
    && (forall k :: 0 <= k < |slices| ==> ValidSlice(s, slices[k]))
    && (forall k :: 0 <= k < |slices| ==>
          SliceStart(s, slices[k]) == Position(offset, k, s.cfg.blockSize))
    && Data(s, slices) == s.cfg.content[offset .. end]
  }

  lemma ReadsNothing(s: State, offset: int)
    requires s.cfg.Valid() && 0 <= offset <= s.cfg.Size()
    ensures Reads(s, [], offset, offset) && Entries([]) == multiset{}
    ensures Position(offset, 0, s.cfg.blockSize) == offset
  {
  }

  lemma ReadsStay(s: State, t: State, slices: seq<Slice>, offset: int, end: int)
    requires Preserves(s, t) && Reads(s, slices, offset, end)
    ensures Reads(t, slices, offset, end)
  {
    hide Untouched;
    DataStays(s, t, slices);
  }

  lemma ReadsMore(s: State, slices: seq<Slice>, offset: int, end: int, x: Slice)
    requires Reads(s, slices, offset, end) && ValidSlice(s, x) && SliceStart(s, x) == end
    requires end == Position(offset, |slices|, s.cfg.blockSize)
    requires end + x.hi - x.lo <= s.cfg.Size() && SliceBytes(s, x) == s.cfg.content[end .. end + x.hi - x.lo]
    ensures Reads(s, slices + [x], offset, end + x.hi - x.lo)
  {
    var more := slices + [x];
    assert more[..|more| - 1] == slices;
    assert s.cfg.content[offset .. end] + s.cfg.content[end .. end + x.hi - x.lo]
        == s.cfg.content[offset .. end + x.hi - x.lo];
  }

  /** One slice for each of the first blocks that a read at `offset` touches. */
  ghost predicate Cut(s: State, slices: seq<Slice>, offset: int) {
    && s.cfg.blockSize > 0 && 0 <= offset
    && forall k :: 0 <= k < |slices| ==>
      Placed(s, slices[k]) && SliceStart(s, slices[k]) == Position(offset, k, s.cfg.blockSize)
  }

  lemma LeakedIsCut(s: State, slices: seq<Slice>, offset: int, end: int)
    requires Inv(s) && Reads(s, slices, offset, end) && Guard(s, Leak(Entries(slices)))
    ensures Cut(Next(s, Leak(Entries(slices))), slices, offset)
  {
    hide Inv, Data;
    var t := Next(s, Leak(Entries(slices)));
    forall k | 0 <= k < |slices|
      ensures Placed(t, slices[k]) && SliceStart(t, slices[k]) == Position(offset, k, s.cfg.blockSize)
    {
      assert ValidSlice(s, slices[k]);
    }
  }

  /** A read that has gone past its first block crosses a block boundary. */
  lemma PastFirstCrosses(c: Config, offset: nat, length: nat, k: nat)
    requires c.Valid() && k > 0 && Position(offset, k, c.blockSize) < Min(offset + length, c.Size())
    ensures Crosses(c, offset, length)
  {
    if k > 1 { StartsAreMonotone(offset / c.blockSize + 1, offset / c.blockSize + k, c.blockSize); }
  }

  /** What a read at `offset` gathered before it met a block it could not have, still within its range. */
  ghost predicate Lost(s: State, slices: seq<Slice>, offset: int, length: int) {
    && s.cfg.Valid() && offset >= 0 && Cut(s, slices, offset)
    && (slices != [] ==> Position(offset, |slices|, s.cfg.blockSize) < Min(offset + length, s.cfg.Size()))
  }

  lemma LostNothing(s: State, offset: int, length: int)
    requires s.cfg.Valid() && offset >= 0
    ensures Lost(s, [], offset, length) && Entries([]) == multiset{}
  {
  }

  lemma LostSoFar(s: State, slices: seq<Slice>, offset: int, length: int)
    requires s.cfg.Valid() && offset >= 0 && Cut(s, slices, offset)
    requires Position(offset, |slices|, s.cfg.blockSize) < Min(offset + length, s.cfg.Size())
    ensures Lost(s, slices, offset, length)
  {
  }

  lemma LostCrosses(s: State, slices: seq<Slice>, offset: int, length: int)
    requires Lost(s, slices, offset, length) && slices != [] && length >= 0
    ensures Crosses(s.cfg, offset, length)
  {
    PastFirstCrosses(s.cfg, offset, length, |slices|);
  }

  /** Some reference is out, or was leaked. */
  ghost predicate Unreturned(s: State) {
    exists e :: e in s.inflight || e in s.leaked
  }

  /**
   * A block is refused with none free: memory ran out, or a reference is out unless nothing
   * is reserved; and if permits are to be had, all blocks are referenced.
   */
  ghost predicate Refusal(s: State, r: ScheduleResult, may: Faults) {
    !r.Scheduled? ==>
      && s.pool.free == [] && (r.NoMemory? ==> may.memory)
      && (r.NoBlock? ==> s.cfg.reserved == 0 || Unreturned(s))
      && (r.NoBlock? && !may.permit ==> |Pinned(s)| == s.cfg.maxPrefetch)
  }

  lemma RefusalHasCause(s: State, r: ScheduleResult, may: Faults)
    requires Inv(s) && s.queue == [] && s.pool.free == [] && (r.NoMemory? ==> may.memory)
    requires r.NoBlock? ==> !Granted(TryGet(s.pool, false, true).0)
    requires r.NoBlock? && !may.permit ==> s.pool.total >= s.pool.maxBlocks
    ensures Refusal(s, r, may)
  {
    hide Inv, Pinned, TryGet;
    if r.NoBlock? && s.cfg.reserved >= 1 { FallbackNeedsReferences(s, false); }
    if r.NoBlock? && !may.permit { ExhaustedIsPinned(s); }
  }

  /** Restarting and leaking leave queue and blocks as they are. */
  lemma SameAhead(s: State, t: State, at: int, may: Faults)
    requires Inv(s) && Inv(t) && t == s.(next := t.next, inflight := t.inflight, leaked := t.leaked)
    ensures Undisturbed(s, t, at, may) && Line(t) == Line(s) && Pinned(t) == Pinned(s)
  {
    hide Partition, Counted, Owned, Referenced, InFile, Consistent, Faithful, Reusable;
    SameLine(s, t);
  }

  /** What was read from `at` on goes up to the end of its block, and not of the object. */
  predicate Consumed(c: Config, at: nat, end: int)
    requires c.Valid()
  {
    end < c.Size() && end == StartAt(c, at) + c.blockSize
  }

  /** The end of a slice lies in the same block as its start, or is the start of the next one. */
  lemma BlockAfter(c: Config, at: nat, end: nat)
    requires c.Valid() && at <= end <= StartAt(c, at) + c.blockSize
    ensures end / c.blockSize == at / c.blockSize + if end < StartAt(c, at) + c.blockSize then 0 else 1
  {
    var k := at / c.blockSize;
    Covering(at, k, c.blockSize);
    Covering(end, k, c.blockSize);
    Covering(end, k + 1, c.blockSize);
  }

  /** A window that starts at the block of `at` starts at that of `end` once that block is used up. */
  lemma NextInWindow(s: State, t: State, at: nat, end: nat)
    requires Inv(s) && Windowed(s) && Covers(s, at) && t.cfg == s.cfg && at <= end < s.cfg.Size()
    requires end <= StartAt(s.cfg, at) + s.cfg.blockSize && t.queue != []
    requires t.next - |t.queue| == s.next - |s.queue| + if Consumed(s.cfg, at, end) then 1 else 0
    ensures InWindow(t, end)
  {
    hide Partition, Counted, Owned, Referenced, Consistent, Faithful, StartAt, Windowed;
    CoveringIndex(s, at);
    BlockAfter(s.cfg, at, end);
  }

  lemma ServedEnd(s: State, x: Slice, at: nat, want: nat)
    requires s.cfg.Valid() && want > 0 && Serves(s, x, at, want) && at - x.lo == StartAt(s.cfg, at)
    ensures var end := at + x.hi - x.lo;
      && at < end <= Min(at + want, s.cfg.Size()) && end <= StartAt(s.cfg, at) + s.cfg.blockSize
      && (end < at + want && end < s.cfg.Size() ==> end == StartAt(s.cfg, at) + s.cfg.blockSize)
    ensures ValidSlice(s, x) && SliceStart(s, x) == at && SliceBytes(s, x) == s.cfg.content[at .. at + x.hi - x.lo]
  {
    hide StartAt;
  }

  lemma ConsumedHead(s: State, at: nat, end: nat)
    requires Inv(s) && Covers(s, at) && at < s.cfg.Size()
    requires Head(s).notification == Closed && Head(s).status == Downloaded
    requires end <= StartAt(s.cfg, at) + s.cfg.blockSize && end < s.cfg.Size()
    ensures Consumed(s.cfg, at, end) <==> end >= Head(s).absStartOff + Head(s).mem.Size()
  {
    hide Partition, Counted, Owned, Referenced, InFile, Consistent, Faithful, StartAt;
    HeadSlice(s, at);
    CoveringHead(s, at);
  }

  lemma PastHead(s: State, at: nat, end: nat)
    requires Inv(s) && Covers(s, at) && Consumed(s.cfg, at, end)
    ensures !Covers(s, end)
  {
    hide Partition, Counted, Owned, Referenced, InFile, Consistent, Faithful, StartAt;
    CoveringHead(s, at);
  }

  lemma DropUndisturbed(r: State, s: State, t: State, at: int, may: Faults)
    requires Undisturbed(r, s, at, may) && WellFormed(s) && WellFormed(t) && t.cfg == s.cfg && s.queue != []
    requires !(Head(s).absStartOff <= at < Head(s).absStartOff + s.cfg.blockSize)
    requires Line(t) == Line(s)[1..] && Pinned(t) == Pinned(s) && (!may.download && Sound(s) ==> Sound(t))
    ensures Undisturbed(r, t, at, may)
  {
    hide Sound, Reusable, SameDemand, Line, Pinned;
    DropDemand(s, t, at);
    UndisturbedTwice(r, s, t, at, may);
  }

  lemma FitsAfterSeek(s: State, t: State, away: bool, at: nat, end: int)
    requires WellFormed(s) && WellFormed(t) && t.cfg == s.cfg && Pinned(t) == Pinned(s)
    requires if away then t.queue == [] else Line(t) == Line(s)
    ensures Fits(t, at, end) <==> Fits(if away then s.(queue := []) else s, at, end)
  {
    hide Reusable, Span;
    if away {
      assert Pinned(s.(queue := [])) == Pinned(s);
      assert Line(t) == Line(s.(queue := [])) == [];
    }
  }

  lemma SameFits(s: State, at: nat, t: State, next: nat, end: int)
    requires WellFormed(s) && WellFormed(t) && t.cfg == s.cfg && Demand(t, next, end) == Demand(s, at, end)
    ensures Fits(t, next, end) <==> Fits(s, at, end)
  {
    hide Demand;
  }

  /** A read that is refused a block asks for more than the pool may have. */
  lemma RefusedIsFull(s: State, r: ScheduleResult, may: Faults, at: nat, end: int)
    requires Inv(s) && s.queue == [] && !r.Scheduled? && Refusal(s, r, may) && at < end
    ensures !may.memory && !may.permit ==> !Fits(s, at, end)
  {
    hide Inv, Pinned;
    ValidParts(s);
    SpanSome(s.cfg.blockSize, at, end);
  }

  lemma DoneFits(s: State, at: nat, end: int)
    requires Inv(s) && at >= end
    ensures Fits(s, at, end)
  {
    hide Inv, Pinned;
    ValidParts(s);
    PinnedWithinLimit(s);
  }

  lemma StillWindowed(s: State, t: State)
    requires Preserves(s, t) && Windowed(s)
    ensures Windowed(t)
  {
  }

  lemma FailedIsUnsound(s: State)
    requires WellFormed(s) && s.queue != [] && Head(s).Outcome() == DownloadFailed
    ensures !Sound(s)
  {
  }

  /** A sequential read goes on where the queue starts, if anything is queued. */
  lemma NextSeek(s: State, offset: int)
    requires s.cfg.blockSize > 0
    ensures offset > 0 && (s.queue != [] ==> InWindow(s, offset)) ==> (RandomSeek(s, offset) <==> s.queue == [])
  {
  }

  /** A wait: only downloads moved on. */
  ghost predicate Waited(s: State, t: State) {
    t == s.(blocks := t.blocks, tasks := t.tasks) && Preserves(s, t) && SameUses(s.blocks, t.blocks)
  }

  lemma WaitedAhead(s: State, t: State, at: int, may: Faults)
    requires WellFormed(s) && WellFormed(t) && Waited(s, t) && (!may.download && Sound(s) ==> Sound(t))
    ensures Undisturbed(s, t, at, may) && Line(t) == Line(s) && Pinned(t) == Pinned(s)
  {
    hide Preserves, Reusable, Sound;
    SameLine(s, t);
  }

  lemma StillUnreturned(s: State, refs: multiset<EntryId>)
    requires Inv(s) && Guard(s, Leak(refs)) && Unreturned(s)
    ensures Unreturned(Next(s, Leak(refs)))
  {
    hide Inv;
    var e :| e in s.inflight || e in s.leaked;
    assert e in s.inflight - refs || e in s.leaked + refs;
  }

  /** The block that covers `offset` failed to download and is the last one given back to the pool. */
  ghost predicate FailedIsFree(s: State, offset: int) {
    && s.pool.free != [] && s.cfg.Valid() && offset >= 0
    && var b := s.pool.free[|s.pool.free| - 1];
       b < |s.blocks| && s.blocks[b].status == DownloadFailed
       && s.blocks[b].absStartOff == StartAt(s.cfg, offset)
  }

  lemma FailedIsReleased(s: State, offset: int)
    requires Inv(s) && Guard(s, Discard) && Head(s).status == DownloadFailed
    requires offset >= 0 && Covers(s, offset)
    ensures FailedIsFree(Next(s, Discard), offset)
  {
    hide Partition, Counted, Owned, Referenced, InFile, Consistent, Faithful;
    NextIsSafe(s, Discard);
    CoveringHead(s, offset);
    QueuedEntry(s, s.queue[0]);
    FailedHasNoRefs(s, s.entries[s.queue[0]].block);
  }

  lemma ScheduleIs(s: State, permit: bool, mapped: bool)
    requires Inv(s) && Guard(s, Schedule(permit, mapped))
    ensures var (g, pool) := TryGet(s.pool, permit, mapped);
      && (g.Created? || g.Reused?) && (g.Reused? ==> g.id < |s.blocks|)
      && var blank := if g.Created? then NewPrefetchBlock(s.cfg.blockSize) else s.blocks[g.id].Reuse();
         && blank.SetAbsStartOff(s.next * s.cfg.blockSize).Ok?
         && var started := blank.SetAbsStartOff(s.next * s.cfg.blockSize).value;
            Next(s, Schedule(permit, mapped)) ==
              s.(next := s.next + 1, pool := pool, tasks := s.tasks + {g.id},
                 queue := s.queue + [|s.entries|], entries := s.entries + [Entry(g.id, false)],
                 holder := s.holder[g.id := |s.entries|],
                 blocks := if g.Created? then s.blocks + [started] else s.blocks[g.id := started])
  {
    hide Partition, Counted, Owned, Referenced, InFile, Consistent, Faithful, StartOf, BlockCount;
    NextIsSafe(s, Schedule(permit, mapped));
    StartIsProduct(s.next, s.cfg.blockSize);
  }

  lemma WaitedTwice(r: State, s: State, t: State)
    requires Waited(r, s) && Waited(s, t)
    ensures Waited(r, t)
  {
    hide Keeps, Windowed;
    PreservesTwice(r, s, t);
  }

  lemma WaitedNone(s: State)
    requires Inv(s)
    ensures Waited(s, s)
  {
    hide Keeps, Windowed;
    PreservesItself(s);
  }

  /** A download task went on. */
  ghost predicate Worked(s: State, t: State, b: BlockId) {
    Waited(s, t) && b < |s.blocks| && OnlyBlock(s.blocks, t.blocks, b)
  }

  lemma WorkedTwice(r: State, s: State, t: State, b: BlockId)
    requires Worked(r, s, b) && Worked(s, t, b)
    ensures Worked(r, t, b)
  {
    hide Preserves;
    WaitedTwice(r, s, t);
  }

  lemma WorkedNone(s: State, b: BlockId)
    requires Inv(s) && b < |s.blocks|
    ensures Worked(s, s, b)
  {
    hide Preserves;
    WaitedNone(s);
  }

  lemma DownloadWorks(s: State, b: BlockId, count: nat)
    requires Inv(s) && b < |s.blocks| && Guard(s, Download(b, count))
    ensures var t := Next(s, Download(b, count));
      && Worked(s, t, b) && t.tasks == s.tasks && t.blocks[b].absStartOff == s.blocks[b].absStartOff
      && t.blocks[b].mem.Size() == s.blocks[b].mem.Size() + count
  {
    hide Partition, Counted, Owned, Referenced, InFile, Consistent, Faithful, Windowed, Keeps;
    NextIsSafe(s, Download(b, count));
    StepPreserves(s, Download(b, count));
  }

  lemma NotifyWorks(s: State, b: BlockId, ok: bool)
    requires Inv(s) && b < |s.blocks| && Guard(s, Notify(b, ok))
    ensures var t := Next(s, Notify(b, ok));
      && Worked(s, t, b) && t.tasks == s.tasks - {b}
      && t.blocks[b].Settled() && t.blocks[b].Outcome() == if ok then Downloaded else DownloadFailed
  {
    hide Partition, Counted, Owned, Referenced, InFile, Consistent, Faithful, Windowed, Keeps;
    NextIsSafe(s, Notify(b, ok));
    StepPreserves(s, Notify(b, ok));
  }

  /** The head of the queue stays, and so does where its block starts. */
  ghost predicate SameHead(s: State, t: State) {
    && WellFormed(s) && WellFormed(t)
    && (s.queue != [] ==>
          t.queue != [] && t.queue[0] == s.queue[0] && Head(t).absStartOff == Head(s).absStartOff)
  }

  lemma StartCovers(s: State, index: nat, offset: nat)
    requires Inv(s) && Covers(s, StartOf(index, s.cfg.blockSize)) && index == offset / s.cfg.blockSize
    ensures Covers(s, offset)
  {
    hide Partition, Counted, Owned, Referenced, InFile, Consistent, Faithful, StartOf;
    CoveringHead(s, StartOf(index, s.cfg.blockSize));
    Covering(StartOf(index, s.cfg.blockSize), index, s.cfg.blockSize);
    Covering(offset, index, s.cfg.blockSize);
  }

  lemma SameHeadCovers(s: State, t: State, offset: int)
    requires SameHead(s, t) && t.cfg == s.cfg && Covers(s, offset)
    ensures Covers(t, offset)
  {
  }

  lemma StartedStart(s: State, permit: bool, mapped: bool)
    requires Inv(s) && Guard(s, Schedule(permit, mapped)) && Safe(s, Schedule(permit, mapped))
    ensures StartedBlock(s, TryGet(s.pool, permit, mapped).0).value.absStartOff == StartOf(s.next, s.cfg.blockSize)
  {
    hide Partition, Counted, Owned, Referenced, InFile, Consistent, Faithful, StartOf, BlockCount;
  }

  lemma ScheduleKeepsHead(s: State, permit: bool, mapped: bool)
    requires Inv(s) && Guard(s, Schedule(permit, mapped))
    ensures SameHead(s, Next(s, Schedule(permit, mapped)))
    ensures s.queue == [] ==>
      var t := Next(s, Schedule(permit, mapped));
      WellFormed(t) && Covers(t, StartOf(s.next, s.cfg.blockSize))
  {
    hide Partition, Counted, Owned, Referenced, InFile, Consistent, Faithful, StartOf, BlockCount, StartedBlock;
    NextIsSafe(s, Schedule(permit, mapped));
    ScheduledBlocks(s, permit, mapped);
    StartedStart(s, permit, mapped);
    if s.queue != [] {
      GrantedBlock(s, permit, mapped);
      QueuedEntry(s, s.queue[0]);
    }
  }

  lemma PoolIsValid(s: State)
    requires Inv(s)
    ensures ValidPool(s.pool)
  {
    hide Partition, Owned, Referenced, InFile, Consistent, Faithful;
  }

  /** The slice of a downloaded head at `offset`: as long as wanted, or up to the end of the block. */
  ghost function HeadSliceAt(s: State, offset: nat, want: nat): Slice
    requires WellFormed(s) && s.queue != [] && Head(s).ReadAtSlice(offset - Head(s).absStartOff, want).Ok?
  {
    var bounds := Head(s).ReadAtSlice(offset - Head(s).absStartOff, want).value;
    Slice(s.queue[0], bounds.0, bounds.1)
  }

  lemma SliceOfHead(s: State, offset: nat, want: nat)
    requires Inv(s) && Guard(s, TakeRef) && Covers(s, offset) && offset < s.cfg.Size() && want > 0
    ensures Head(s).ReadAtSlice(offset - Head(s).absStartOff, want).Ok?
    ensures var x := HeadSliceAt(s, offset, want);
      && x.lo == offset - Head(s).absStartOff && x.lo < x.hi
      && x.hi - x.lo == Min(want, s.cfg.Limit(Head(s).absStartOff) - offset)
      && Head(s).absStartOff == StartAt(s.cfg, offset)
  {
    hide Partition, Counted, Owned, Referenced, InFile, Consistent, Faithful, StartAt;
    HeadSlice(s, offset);
    CoveringHead(s, offset);
  }

  lemma ServedBySlice(s: State, offset: nat, want: nat)
    requires Inv(s) && Guard(s, TakeRef) && Covers(s, offset) && offset < s.cfg.Size() && want > 0
    requires Head(s).ReadAtSlice(offset - Head(s).absStartOff, want).Ok?
    ensures var t := Next(s, TakeRef);
      WellFormed(t) && Covers(t, offset) && Serves(t, HeadSliceAt(s, offset, want), offset, want)
  {
    hide Partition, Counted, Owned, Referenced, InFile, Consistent, Faithful, StartAt;
    NextIsSafe(s, TakeRef);
    SliceOfHead(s, offset, want);
    HeadSlice(s, offset);
    var x, start := HeadSliceAt(s, offset, want), Head(s).absStartOff;
    SliceOfContent(s.cfg.content, start, s.cfg.Limit(start), x.lo, x.hi);
  }

  lemma ServedDemand(s: State, offset: nat, want: nat)
    requires Inv(s) && Guard(s, TakeRef) && Covers(s, offset) && offset < s.cfg.Size() && want > 0
    requires Head(s).ReadAtSlice(offset - Head(s).absStartOff, want).Ok?
    ensures var x, t, goal := HeadSliceAt(s, offset, want), Next(s, TakeRef), Min(offset + want, s.cfg.Size());
      && WellFormed(t) && offset + x.hi - x.lo >= 0
      && Demand(t, offset + x.hi - x.lo, goal) == Demand(s, offset, goal)
  {
    hide Partition, Counted, Owned, Referenced, InFile, Consistent, Faithful, StartAt, Demand, Next;
    SliceOfHead(s, offset, want);
    var x := HeadSliceAt(s, offset, want);
    TakeRefDemand(s, offset, offset + x.hi - x.lo, Min(offset + want, s.cfg.Size()));
  }

  class BufferedReader {
    const cfg: Config
    const initialPrefetchBlockCnt: int
    const randomReadsThreshold: int

    var nextBlockIndexToPrefetch: int
    var randomSeekCount: int
    var numPrefetchBlocks: int
    var blockQueue: seq<EntryId>
    var entries: seq<Entry>
    var blocks: seq<PrefetchBlock>
    var blockPool: Pool
    var tasks: set<BlockId>
    ghost var holder: map<BlockId, EntryId>
    ghost var inflight: multiset<EntryId>
    ghost var leaked: multiset<EntryId>
    ghost var trace: seq<Event>

    /** Permits held of the semaphore, and those lost to failed mappings. */
    ghost var permits: int
    ghost var lostPermits: nat

    ghost function View(): State
      reads this
    {
      State(cfg, nextBlockIndexToPrefetch, blockQueue, entries, blocks, blockPool, tasks, holder, inflight, leaked)
    }

    /** The fields are the state that the recorded trace leads to. */
    ghost predicate Running()
      reads this
    {
      && Feasible(cfg, trace) && Execute(cfg, trace) == View() && Inv(View())
      && Balanced(permits, lostPermits, false, blockPool)
    }

    /**
     * With a threshold of 0 or more, one more than it is reached, and then nothing is queued;
     * and the queue is a contiguous window.
     */
    ghost predicate SeekBound()
      reads this
    {
      && 0 <= randomSeekCount <= Max(randomReadsThreshold + 1, 0)
      && (randomReadsThreshold >= 0 ==> Windowed(View()))
      && (randomSeekCount > randomReadsThreshold >= 0 ==> blockQueue == [])
    }

    ghost predicate Valid()
      reads this
    {
      Running() && SeekBound()
    }

    constructor (c: Config, initialPrefetch: int, threshold: int)
      requires c.Valid()
      ensures Valid() && cfg == c && initialPrefetchBlockCnt == initialPrefetch && randomSeekCount == 0
      ensures randomReadsThreshold == threshold && View() == Init(c) && Windowed(View()) && Sound(View())
      ensures forall offset :: RandomSeek(View(), offset) <==> offset != 0
      ensures permits == c.reserved && lostPermits == 0 && numPrefetchBlocks == initialPrefetch
    {
      hide Feasible, Execute, Inv, Windowed;
      cfg, initialPrefetchBlockCnt, randomReadsThreshold := c, initialPrefetch, threshold;
      nextBlockIndexToPrefetch, randomSeekCount, numPrefetchBlocks := 0, 0, initialPrefetch;
      blockQueue, entries, blocks, tasks := [], [], [], {};
      blockPool := NewPool(c.blockSize, c.maxPrefetch, c.reserved);
      holder, inflight, leaked, trace := map[], multiset{}, multiset{}, [];
      permits, lostPermits := c.reserved, 0;
      new;
      EmptyTrace(c);
      EmptyIsWindowed(c);
    }

    /** The read takes the count of random seeks past the threshold, or leaves it there. */
    ghost predicate PassesThreshold(offset: int, sequential: bool)
      reads this
      requires cfg.Valid()
    {
      !sequential
      && (randomSeekCount > randomReadsThreshold
          || (randomSeekCount == randomReadsThreshold && RandomSeek(View(), offset)))
    }

    /** The read is a random seek that is still looked at, so all that is queued is given up. */
    ghost predicate SeeksAway(offset: int)
      reads this
      requires cfg.Valid()
    {
      randomSeekCount <= randomReadsThreshold && RandomSeek(View(), offset)
    }

    /** The blocks referenced after the read, with what it still finds queued, fit the pool. */
    ghost predicate Servable(offset: nat, length: nat)
      reads this
      requires WellFormed(View())
    {
      Fits(if SeeksAway(offset) then View().(queue := []) else View(), offset, Min(offset + length, cfg.Size()))
    }

    /** A negative threshold lets a sequential read reset the reader while blocks are queued. */
    predicate ResetsUnderQueue(sequential: bool)
      reads this
    {
      randomReadsThreshold < 0 && sequential && blockQueue != []
    }

    ghost method Record(ev: Event)
      requires Feasible(cfg, trace) && Guard(Execute(cfg, trace), ev)
      requires View() == Next(Execute(cfg, trace), ev) && Balanced(permits, lostPermits, false, blockPool)
      modifies this`trace
      ensures Running() && trace == old(trace) + [ev]
    {
      hide Feasible, Execute, Inv, Guard, Next, Balanced;
      ExtendTrace(cfg, trace, ev);
      trace := trace + [ev];
    }

    // ------------------------------------------------- download tasks

    method CopyChunk(b: BlockId, count: nat)
      requires Running() && Guard(View(), Download(b, count))
      modifies this`blocks, this`trace
      ensures Running() && View() == Next(old(View()), Download(b, count))
    {
      hide Feasible, Execute, Partition, Counted, Owned, Referenced, InFile, Consistent, Faithful, Windowed;
      NextIsSafe(View(), Download(b, count));
      var blk := blocks[b];
      var at := blk.absStartOff + blk.mem.Size();
      var written := blk.mem.Write(cfg.content[at .. at + count]);
      blocks := blocks[b := blk.(mem := written.value)];
      Record(Download(b, count));
    }

    method NotifyReady(b: BlockId, ok: bool)
      requires Running() && Guard(View(), Notify(b, ok))
      modifies this`blocks, this`tasks, this`trace
      ensures Running() && View() == Next(old(View()), Notify(b, ok))
    {
      hide Feasible, Execute, Partition, Counted, Owned, Referenced, InFile, Consistent, Faithful, Windowed;
      NextIsSafe(View(), Notify(b, ok));
      blocks := blocks[b := blocks[b].NotifyReady(if ok then Downloaded else DownloadFailed)];
      tasks := tasks - {b};
      Record(Notify(b, ok));
    }

    /** downloadTask.Execute: copy until the range is complete or an error occurs, then notify. */
    method ExecuteTask(b: BlockId, mayFail: bool)
      requires Running() && b in tasks
      modifies this`blocks, this`tasks, this`trace
      ensures Running() && Worked(old(View()), View(), b) && tasks == old(tasks) - {b} && blocks[b].Settled()
      ensures !mayFail ==> blocks[b].Outcome() == Downloaded
    {
      hide Feasible, Execute, Partition, Counted, Owned, Referenced, InFile, Consistent, Faithful, Worked, Next;
      TaskRoom(View(), b);
      WorkedNone(View(), b);
      var failed := false;
      while !failed && blocks[b].absStartOff + blocks[b].mem.Size() < cfg.Limit(blocks[b].absStartOff)
        invariant Running() && Worked(old(View()), View(), b) && tasks == old(tasks)
        invariant b < |blocks| && (failed ==> mayFail)
        invariant blocks[b].absStartOff + blocks[b].mem.Size() <= cfg.Limit(blocks[b].absStartOff)
        decreases !failed, cfg.Limit(blocks[b].absStartOff) - blocks[b].absStartOff - blocks[b].mem.Size()
      {
        var remaining := cfg.Limit(blocks[b].absStartOff) - blocks[b].absStartOff - blocks[b].mem.Size();
        var broken: bool := *;
        failed := mayFail && broken;
        if !failed {
          var count: nat :| 1 <= count <= remaining;
          DownloadWorks(View(), b, count);
          WorkedTwice(old(View()), View(), Next(View(), Download(b, count)), b);
          CopyChunk(b, count);
        }
      }
      NotifyWorks(View(), b, !failed);
      WorkedTwice(old(View()), View(), Next(View(), Notify(b, !failed)), b);
      NotifyReady(b, !failed);
    }

    /** The worker pool runs: any pending downloads make any progress. */
    method Workers(mayFail: bool)
      requires Running()
      modifies this`blocks, this`tasks, this`trace
      ensures Running() && Waited(old(View()), View()) && tasks <= old(tasks)
      ensures !mayFail && Sound(old(View())) ==> Sound(View())
    {
      hide Feasible, Execute, Partition, Counted, Owned, Referenced, InFile, Consistent, Faithful, Waited, Next;
      WaitedNone(View());
      var rounds: nat := *;
      while rounds > 0 && tasks != {}
        invariant Running() && Waited(old(View()), View()) && tasks <= old(tasks)
        invariant !mayFail && Sound(old(View())) ==> Sound(View())
      {
        var b :| b in tasks;
        var count: nat := *;
        ghost var before := View();
        if blocks[b].absStartOff + blocks[b].mem.Size() + count < cfg.Limit(blocks[b].absStartOff) {
          DownloadWorks(View(), b, count);
          CopyChunk(b, count);
        } else {
          ExecuteTask(b, mayFail);
        }
        if !mayFail && Sound(before) { TaskSound(before, View(), b); }
        WaitedTwice(old(View()), before, View());
        rounds := rounds - 1;
      }
    }

    method Receive(e: EntryId)
      requires Running() && Guard(View(), Await(e))
      modifies this`blocks, this`trace
      ensures Running() && View() == Next(old(View()), Await(e))
    {
      hide Feasible, Execute, Partition, Counted, Owned, Referenced, InFile, Consistent, Faithful, Windowed;
      NextIsSafe(View(), Await(e));
      var b := entries[e].block;
      blocks := blocks[b := blocks[b].AwaitReady()];
      Record(Await(e));
    }

    method AwaitOutcome(e: EntryId, mayFail: bool)
      requires Running() && e in blockQueue
      modifies this`blocks, this`tasks, this`trace
      ensures Running() && Waited(old(View()), View()) && BlockOf(View(), e).notification == Closed
      ensures !mayFail && Sound(old(View())) ==> Sound(View())
      ensures Sound(old(View())) && e == blockQueue[0] ==> SoundFrom(View(), 1)
    {
      hide Feasible, Execute, Partition, Counted, Owned, Referenced, InFile, Consistent, Faithful, Windowed;
      hide Keeps;
      PreservesItself(View());
      var b := entries[e].block;
      QueuedEntry(View(), e);
      InUseBlock(View(), b);
      if blocks[b].notification.Empty? {
        ExecuteTask(b, mayFail);
        InUseBlock(View(), b);
      }
      ghost var ready := View();
      StepPreserves(ready, Await(e));
      Receive(e);
      WaitedTwice(old(View()), ready, View());
      if Sound(old(View())) { TaskSound(old(View()), View(), b); }
    }

    /**
     * A wait for the block of a queued entry; only a wait whose context may be cancelled can
     * give up.  `stopped` says that the block's own download was cancelled.
     */
    method AwaitReady(e: EntryId, stopped: bool, may: Faults) returns (ready: bool)
      requires Running() && e in blockQueue
      modifies this`blocks, this`tasks, this`trace
      ensures Running() && Waited(old(View()), View())
      ensures !may.cancel ==> ready
      ensures ready ==> BlockOf(View(), e).notification == Closed
      ensures !may.download && !stopped && Sound(old(View())) ==> Sound(View())
      ensures !may.download && ready && Sound(old(View())) && e == blockQueue[0] ==> SoundFrom(View(), 1)
    {
      hide Feasible, Execute, Partition, Counted, Owned, Referenced, InFile, Consistent, Faithful, Windowed;
      hide Sound;
      Workers(may.download);
      if may.cancel {
        var cancelled: bool := *;
        if cancelled {
          return false;
        }
      }
      ready := true;
      ghost var before := View();
      AwaitOutcome(e, may.download || stopped);
      WaitedTwice(old(View()), before, View());
    }

    // ------------------------------------------------- the queue

    /** blockQueue.Pop, then releaseOrMarkEvicted on the entry. */
    method PopAndRelease()
      requires Running() && Guard(View(), Discard)
      modifies this`blockQueue, this`entries, this`blockPool, this`holder, this`trace
      ensures Running() && View() == Next(old(View()), Discard)
    {
      hide Feasible, Execute, Partition, Counted, Owned, Referenced, InFile, Consistent, Faithful, Windowed;
      NextIsSafe(View(), Discard);
      var e := blockQueue[0];
      var b := entries[e].block;
      blockQueue := blockQueue[1..];
      if blocks[b].refCount > 0 {
        entries := entries[e := entries[e].(wasEvicted := true)];
      } else {
        blockPool := Release(blockPool, b);
        holder := holder - {b};
      }
      Record(Discard);
    }

    /** A head whose download failed is released at once: it cannot have references. */
    method PopFailed()
      requires Running() && Guard(View(), Discard) && Head(View()).status == DownloadFailed
      modifies this`blockQueue, this`blockPool, this`holder, this`trace
      ensures Running() && View() == Next(old(View()), Discard)
    {
      hide Feasible, Execute, Partition, Counted, Owned, Referenced, InFile, Consistent, Faithful, Windowed;
      NextIsSafe(View(), Discard);
      QueuedEntry(View(), blockQueue[0]);
      FailedHasNoRefs(View(), entries[blockQueue[0]].block);
      var b := entries[blockQueue[0]].block;
      blockQueue := blockQueue[1..];
      blockPool := Release(blockPool, b);
      holder := holder - {b};
      Record(Discard);
    }

    /** The reader keeps a reference to the head block for the slice it hands out. */
    method IncRefHead()
      requires Running() && Guard(View(), TakeRef)
      modifies this`blocks, this`inflight, this`trace
      ensures Running() && View() == Next(old(View()), TakeRef)
    {
      hide Feasible, Execute, Partition, Counted, Owned, Referenced, InFile, Consistent, Faithful, Windowed;
      NextIsSafe(View(), TakeRef);
      var b := entries[blockQueue[0]].block;
      blocks := blocks[b := blocks[b].(refCount := blocks[b].refCount + 1)];
      inflight := inflight + multiset{blockQueue[0]};
      Record(TakeRef);
    }

    method SetNextBlock(index: int)
      requires Running() && Guard(View(), Restart(index))
      modifies this`nextBlockIndexToPrefetch, this`trace
      ensures Running() && View() == Next(old(View()), Restart(index))
    {
      hide Feasible, Execute, Partition, Counted, Owned, Referenced, InFile, Consistent, Faithful, Windowed;
      NextIsSafe(View(), Restart(index));
      nextBlockIndexToPrefetch := index;
      Record(Restart(index));
    }

    method PlaceGranted(permit: bool, mapped: bool)
      requires Inv(View()) && Guard(View(), Schedule(permit, mapped))
      modifies this`nextBlockIndexToPrefetch, this`blockQueue, this`entries, this`blocks
      modifies this`blockPool, this`tasks, this`holder
      ensures View() == Next(old(View()), Schedule(permit, mapped))
    {
      hide Inv, Guard, Next, Apply, Safe, TryGet, StartedBlock;
      ScheduleIs(View(), permit, mapped);
      var (g, pool) := TryGet(blockPool, permit, mapped);
      var blank := if g.Created? then NewPrefetchBlock(cfg.blockSize) else blocks[g.id].Reuse();
      var started := blank.SetAbsStartOff(nextBlockIndexToPrefetch * cfg.blockSize);
      blocks := if g.Created? then blocks + [started.value] else blocks[g.id := started.value];
      blockPool, tasks, holder := pool, tasks + {g.id}, holder[g.id := |entries|];
      blockQueue, entries := blockQueue + [|entries|], entries + [Entry(g.id, false)];
      nextBlockIndexToPrefetch := nextBlockIndexToPrefetch + 1;
    }

    /** scheduleBlockWithIndex on the block that the pool grants. */
    method ScheduleGranted(permit: bool, mapped: bool)
      requires Running() && Guard(View(), Schedule(permit, mapped))
      modifies this`nextBlockIndexToPrefetch, this`blockQueue, this`entries, this`blocks
      modifies this`blockPool, this`tasks, this`holder, this`permits, this`trace
      ensures Running() && View() == Next(old(View()), Schedule(permit, mapped))
    {
      hide Feasible, Execute, Inv, Guard, Next, Apply, TryGet, StartedBlock, Balanced, TakesPermit;
      ScheduleIs(View(), permit, mapped);
      GrantBalances(permits, lostPermits, false, blockPool, permit, mapped);
      permits := if TakesPermit(blockPool, permit) then permits + 1 else permits;
      PlaceGranted(permit, mapped);
      Record(Schedule(permit, mapped));
    }

    method ScheduleNextBlock(may: Faults, ghost at: int) returns (r: ScheduleResult)
      requires Running() && 0 <= nextBlockIndexToPrefetch < BlockCount(cfg.Size(), cfg.blockSize)
      modifies this`nextBlockIndexToPrefetch, this`blockQueue, this`entries, this`blocks
      modifies this`blockPool, this`tasks, this`holder, this`permits, this`lostPermits, this`trace
      ensures Running() && Preserves(old(View()), View()) && SameHead(old(View()), View())
      ensures r.Scheduled? ==>
        && blockQueue == old(blockQueue) + [|old(entries)|]
        && nextBlockIndexToPrefetch == old(nextBlockIndexToPrefetch) + 1
      ensures r.Scheduled? && old(blockQueue) == [] ==>
        Covers(View(), StartOf(old(nextBlockIndexToPrefetch), cfg.blockSize))
      ensures !r.NoMemory? ==> lostPermits == old(lostPermits)
      ensures !r.Scheduled? ==> View() == old(View()) && blockPool.free == []
      ensures r.NoBlock? ==> !Granted(TryGet(blockPool, false, true).0)
      ensures r.NoMemory? ==> may.memory
      ensures r.NoBlock? && !may.permit ==> blockPool.total >= blockPool.maxBlocks
      ensures Undisturbed(old(View()), View(), at, may)
    {
      hide Feasible, Execute, Partition, Counted, Owned, Referenced, InFile, Consistent, Faithful, Windowed;
      hide Undisturbed;
      UndisturbedItself(View(), at, may);
      var permit: bool :| may.permit || permit;
      var mapped: bool :| may.memory || mapped;
      var g := TryGet(blockPool, permit, mapped).0;
      if Granted(g) {
        ScheduleUndisturbed(View(), permit, mapped, at, may);
        StepPreserves(View(), Schedule(permit, mapped));
        ScheduleKeepsHead(View(), permit, mapped);
        ScheduleGranted(permit, mapped);
        r := Scheduled;
      } else {
        PreservesItself(View());
        if g.MapFailed? && TakesPermit(blockPool, permit) {
          permits, lostPermits := permits + 1, lostPermits + 1;
        }
        r := if g.MapFailed? then NoMemory else NoBlock;
      }
    }

    /** Blocks one prefetch cycle asks for, if any, behind `queued` blocks. */
    function Wanted(queued: int): int
      reads this
      requires cfg.Valid()
    {
      Min(Min(numPrefetchBlocks, cfg.maxPrefetch - queued),
          BlockCount(cfg.Size(), cfg.blockSize) - nextBlockIndexToPrefetch)
    }

    /** Behind `queued` blocks the wanted ones were scheduled, or as many as there were to be had. */
    predicate Refilled(queued: int, wanted: int)
      reads this
    {
      && queued <= |blockQueue| <= queued + Max(wanted, 0)
      && (|blockQueue| < queued + wanted ==> blockPool.free == [])
    }

    /**
     * Schedules the wanted blocks behind the queue and doubles the next cycle, or stops at
     * the first one refused by a pool with nothing free; the head stays.
     */
    method Prefetch(may: Faults, ghost at: int) returns (complete: bool)
      requires Running()
      modifies this`nextBlockIndexToPrefetch, this`numPrefetchBlocks, this`blockQueue, this`entries, this`blocks
      modifies this`blockPool, this`tasks, this`holder, this`permits, this`lostPermits, this`trace
      ensures Running() && Preserves(old(View()), View()) && SameHead(old(View()), View())
      ensures old(blockQueue) <= blockQueue
      ensures nextBlockIndexToPrefetch - |blockQueue| == old(nextBlockIndexToPrefetch - |blockQueue|)
      ensures complete ==> |blockQueue| == |old(blockQueue)| + Max(old(Wanted(|blockQueue|)), 0)
      ensures !complete ==> |blockQueue| < |old(blockQueue)| + old(Wanted(|blockQueue|)) && blockPool.free == []
      ensures !complete && !may.memory && !may.permit ==> blockPool.total >= blockPool.maxBlocks
      ensures numPrefetchBlocks ==
        if complete && old(Wanted(|blockQueue|)) > 0 then Min(old(numPrefetchBlocks) * 2, cfg.maxPrefetch)
        else old(numPrefetchBlocks)
      ensures Undisturbed(old(View()), View(), at, may)
    {
      hide Feasible, Execute, Partition, Counted, Owned, Referenced, InFile, Consistent, Faithful, Windowed;
      hide Keeps, Preserves, Undisturbed;
      PreservesItself(View());
      UndisturbedItself(View(), at, may);
      NextInFile(View());
      complete := true;
      var availableSlots := cfg.maxPrefetch - |blockQueue|;
      if availableSlots <= 0 {
        return;
      }
      var remaining := BlockCount(cfg.Size(), cfg.blockSize) - nextBlockIndexToPrefetch;
      var count := Min(Min(numPrefetchBlocks, availableSlots), remaining);
      if count <= 0 {
        return;
      }
      var i := 0;
      while i < count
        invariant 0 <= i <= count
        invariant Running() && Preserves(old(View()), View()) && SameHead(old(View()), View())
        invariant old(blockQueue) <= blockQueue
        invariant |blockQueue| == |old(blockQueue)| + i
        invariant nextBlockIndexToPrefetch == old(nextBlockIndexToPrefetch) + i
        invariant numPrefetchBlocks == old(numPrefetchBlocks)
        invariant Undisturbed(old(View()), View(), at, may)
      {
        ghost var before := View();
        var r := ScheduleNextBlock(may, at);
        PreservesTwice(old(View()), before, View());
        UndisturbedTwice(old(View()), before, View(), at, may);
        if !r.Scheduled? {
          return false;
        }
        i := i + 1;
      }
      numPrefetchBlocks := Min(numPrefetchBlocks * 2, cfg.maxPrefetch);
    }

    /** Blocks a fresh start at block `index` asks for. */
    function Batch(index: int): int
      requires cfg.Valid()
    {
      var more := Min(Min(initialPrefetchBlockCnt, cfg.maxPrefetch), cfg.maxPrefetch - 1);
      1 + Max(Min(more, BlockCount(cfg.Size(), cfg.blockSize) - index - 1), 0)
    }

    /** With an empty queue, schedule the block that covers `offset` and some more behind it. */
    method FreshStart(offset: int, may: Faults) returns (r: ScheduleResult)
      requires Running() && blockQueue == [] && 0 <= offset < cfg.Size()
      modifies this`nextBlockIndexToPrefetch, this`numPrefetchBlocks, this`blockQueue, this`entries, this`blocks
      modifies this`blockPool, this`tasks, this`holder, this`permits, this`lostPermits, this`trace
      ensures Running() && Preserves(old(View()), View())
      ensures r.Scheduled? ==> Covers(View(), offset)
      ensures r.Scheduled? ==>
        var index := nextBlockIndexToPrefetch - |blockQueue|;
        && index == offset / cfg.blockSize && |blockQueue| <= Batch(index)
        && (|blockQueue| < Batch(index) ==> blockPool.free == [])
      ensures !r.Scheduled? ==> View() == old(View()).(next := offset / cfg.blockSize)
      ensures !r.Scheduled? ==> numPrefetchBlocks == Min(initialPrefetchBlockCnt, cfg.maxPrefetch)
      ensures Refusal(View(), r, may) && Undisturbed(old(View()), View(), offset, may)
    {
      hide Feasible, Execute, Partition, Counted, Owned, Referenced, InFile, Consistent, Faithful, Windowed;
      hide Keeps, Preserves, Undisturbed;
      var index := offset / cfg.blockSize;
      Covering(offset, index, cfg.blockSize);
      InsideData(index, cfg.Size(), cfg.blockSize);
      StepPreserves(View(), Restart(index));
      SetNextBlock(index);
      numPrefetchBlocks := Min(initialPrefetchBlockCnt, cfg.maxPrefetch);
      ghost var restarted := View();
      SameAhead(old(View()), restarted, offset, may);
      r := ScheduleNextBlock(may, offset);
      PreservesTwice(old(View()), restarted, View());
      UndisturbedTwice(old(View()), restarted, View(), offset, may);
      if r.Scheduled? {
        ghost var first := View();
        StartCovers(View(), index, offset);
        var _ := Prefetch(may, offset);
        SameHeadCovers(first, View(), offset);
        PreservesTwice(old(View()), first, View());
        UndisturbedTwice(old(View()), first, View(), offset, may);
      } else {
        RefusalHasCause(View(), r, may);
      }
    }

    // ------------------------------------------------- seeks

    method IsRandomSeek(offset: int) returns (random: bool)
      requires Running() && Windowed(View()) && offset >= 0
      ensures random <==> RandomSeek(View(), offset)
    {
      hide Feasible, Execute, Partition, Counted, Owned, Referenced, InFile, Consistent, Faithful, Windowed;
      if blockQueue == [] {
        return offset != 0;
      }
      HeadStart(View());
      WindowEnd(View(), offset);
      var start := blocks[entries[blockQueue[0]].block].absStartOff;
      var end := start + |blockQueue| * cfg.blockSize;
      random := offset < start || offset >= end;
    }

    /** cancelAndWait on the head, Pop, releaseOrMarkEvicted. */
    method DropHead(may: Faults)
      requires Running() && blockQueue != []
      modifies this`blockQueue, this`entries, this`blocks, this`blockPool, this`tasks, this`holder, this`trace
      ensures Running() && Preserves(old(View()), View())
      ensures blockQueue == old(blockQueue)[1..]
      ensures Line(View()) == old(Line(View()))[1..] && Pinned(View()) == old(Pinned(View()))
      ensures !may.download && Sound(old(View())) ==> Sound(View())
    {
      hide Feasible, Execute, Partition, Counted, Owned, Referenced, InFile, Consistent, Faithful, Windowed;
      hide Keeps, Sound, SoundFrom, Line, Pinned;
      var _ := AwaitReady(blockQueue[0], true, may.(cancel := false));
      ghost var before := View();
      SameLine(old(View()), before);
      DiscardLine(before);
      if SoundFrom(before, 1) { DiscardSound(before); }
      StepPreserves(View(), Discard);
      PreservesTwice(old(View()), before, Next(before, Discard));
      PopAndRelease();
    }

    /** Discards all that is queued: on a random seek and when the reader is destroyed. */
    method DrainQueue(may: Faults)
      requires Running()
      modifies this`blockQueue, this`entries, this`blocks, this`blockPool, this`tasks, this`holder, this`trace
      ensures Running() && Preserves(old(View()), View()) && blockQueue == []
      ensures Pinned(View()) == old(Pinned(View()))
    {
      hide Feasible, Execute, Partition, Counted, Owned, Referenced, InFile, Consistent, Faithful, Windowed;
      hide Keeps, Line, Pinned;
      PreservesItself(View());
      while blockQueue != []
        invariant Running() && Preserves(old(View()), View()) && Pinned(View()) == old(Pinned(View()))
        decreases |blockQueue|
      {
        ghost var before := View();
        DropHead(may);
        PreservesTwice(old(View()), before, View());
      }
    }

    /**
     * Drops blocks until the one that covers `offset` is the head, or none is left; in a
     * contiguous window those are exactly the blocks in front of it, or all if none covers it.
     */
    method PrepareQueueForOffset(offset: int, may: Faults)
      requires Running() && cfg.Valid() && offset >= 0
      modifies this`blockQueue, this`entries, this`blocks, this`blockPool, this`tasks, this`holder, this`trace
      ensures Running() && Preserves(old(View()), View())
      ensures blockQueue != [] ==> Covers(View(), offset)
      ensures Windowed(old(View())) ==> blockQueue == old(blockQueue)[Dropped(old(View()), offset)..]
      ensures Undisturbed(old(View()), View(), offset, may)
    {
      hide Feasible, Execute, Partition, Counted, Owned, Referenced, InFile, Consistent, Faithful, Windowed;
      hide StartOf, BlockCount, Keeps, Undisturbed, Line, Pinned;
      PreservesItself(View());
      UndisturbedItself(View(), offset, may);
      ghost var dropped := Dropped(View(), offset);
      ghost var i := 0;
      while blockQueue != []
        invariant Running() && Preserves(old(View()), View())
        invariant 0 <= i <= |old(blockQueue)| && blockQueue == old(blockQueue)[i..]
        invariant nextBlockIndexToPrefetch == old(nextBlockIndexToPrefetch)
        invariant Windowed(old(View())) ==> i <= dropped
        invariant blockQueue == [] && Windowed(old(View())) ==> i == dropped
        invariant Undisturbed(old(View()), View(), offset, may)
        decreases |blockQueue|
      {
        HeadIsFaithful(View());
        if Windowed(View()) { CoveringIndex(View(), offset); }
        var block := blocks[entries[blockQueue[0]].block];
        if offset < block.absStartOff || offset >= block.absStartOff + block.mem.capacity {
          ghost var before := View();
          DropHead(may);
          PreservesTwice(old(View()), before, View());
          DropUndisturbed(old(View()), before, View(), offset, may);
          i := i + 1;
        } else {
          break;
        }
      }
    }

    /** The window stays contiguous if nothing is queued, and with it all references in any case. */
    method ResetBufferedReaderState()
      requires Running()
      modifies this`nextBlockIndexToPrefetch, this`randomSeekCount, this`numPrefetchBlocks, this`trace
      ensures Running() && Keeps(old(View()), View()) && View() == old(View()).(next := 0)
      ensures blockQueue == [] ==> Preserves(old(View()), View())
      ensures randomSeekCount == 0 && numPrefetchBlocks == initialPrefetchBlockCnt
    {
      hide Feasible, Execute, Partition, Counted, Owned, Referenced, InFile, Consistent, Faithful, Windowed;
      randomSeekCount := 0;
      NextInFile(View());
      StepKeeps(View(), Restart(0));
      if blockQueue == [] { StepPreserves(View(), Restart(0)); }
      SetNextBlock(0);
      numPrefetchBlocks := initialPrefetchBlockCnt;
    }

    /**
     * Counts random seeks; past the threshold the reader falls back until reads are
     * sequential, which is what `sequential` says of this read.
     */
    method HandleRandomRead(offset: int, sequential: bool, may: Faults) returns (err: ReadError)
      requires Valid() && cfg.Valid() && offset >= 0
      modifies this`nextBlockIndexToPrefetch, this`randomSeekCount, this`numPrefetchBlocks
      modifies this`blockQueue, this`entries, this`blocks, this`blockPool, this`tasks, this`holder, this`trace
      ensures Valid() && Keeps(old(View()), View())
      ensures !old(ResetsUnderQueue(sequential)) ==> Preserves(old(View()), View())
      ensures err == if old(PassesThreshold(offset, sequential)) then FallbackToAnotherReader else NoError
      ensures randomReadsThreshold >= 0 ==>
        (randomSeekCount > randomReadsThreshold <==> old(PassesThreshold(offset, sequential)))
      ensures err == NoError && blockQueue != [] && randomReadsThreshold >= 0 ==> InWindow(View(), offset)
      ensures old(randomSeekCount) > randomReadsThreshold ==>
        if err == NoError then randomSeekCount == 0 else View() == old(View())
      ensures old(randomSeekCount) <= randomReadsThreshold && RandomSeek(old(View()), offset) ==>
        blockQueue == [] && randomSeekCount == (
          if err == NoError && old(randomSeekCount) == randomReadsThreshold then 0 else old(randomSeekCount) + 1)
      ensures old(randomSeekCount) <= randomReadsThreshold && !RandomSeek(old(View()), offset) ==>
        View() == old(View()) && randomSeekCount == old(randomSeekCount)
      ensures Pinned(View()) == old(Pinned(View()))
      ensures if old(SeeksAway(offset)) then blockQueue == [] else Line(View()) == old(Line(View()))
      ensures Sound(old(View())) ==> Sound(View())
    {
      hide Feasible, Execute, Partition, Counted, Owned, Referenced, InFile, Consistent, Faithful, Windowed;
      hide Keeps, Line, Pinned;
      PreservesItself(View());
      if randomSeekCount > randomReadsThreshold {
        if sequential {
          ResetBufferedReaderState();
          SameAhead(old(View()), View(), offset, may);
          return NoError;
        }
        return FallbackToAnotherReader;
      }
      var random := IsRandomSeek(offset);
      if !random {
        return NoError;
      }
      randomSeekCount := randomSeekCount + 1;
      DrainQueue(may);
      if randomSeekCount > randomReadsThreshold {
        if sequential {
          ghost var before := View();
          ResetBufferedReaderState();
          SameAhead(before, View(), offset, may);
          PreservesTwice(old(View()), before, View());
          return NoError;
        }
        return FallbackToAnotherReader;
      }
      err := NoError;
    }

    // ------------------------------------------------- reads

    /** Takes a slice of the head block from `offset` on, of at most `want` bytes. */
    method ServeHead(offset: int, want: int) returns (x: Slice)
      requires Running() && Guard(View(), TakeRef) && want > 0
      requires 0 <= offset < cfg.Size() && Covers(View(), offset)
      modifies this`blocks, this`inflight, this`trace
      ensures Running() && View() == Next(old(View()), TakeRef) && Preserves(old(View()), View())
      ensures blockQueue == old(blockQueue) != [] && x.entry == blockQueue[0] && Serves(View(), x, offset, want)
      ensures var end, goal := offset + x.hi - x.lo, Min(offset + want, cfg.Size());
        Demand(View(), end, goal) == Demand(old(View()), offset, goal)
      ensures Covers(View(), offset) && offset - x.lo == StartAt(cfg, offset)
      ensures Sound(old(View())) ==> Sound(View())
    {
      hide Feasible, Execute, Partition, Counted, Owned, Referenced, InFile, Consistent, Faithful, Windowed;
      hide Preserves, Demand, Sound, StartAt, StartOf, Serves, Next;
      SliceOfHead(View(), offset, want);
      ServedBySlice(View(), offset, want);
      ServedDemand(View(), offset, want);
      if Sound(View()) { TakeRefSound(View()); }
      StepPreserves(View(), TakeRef);
      var blk := blocks[entries[blockQueue[0]].block];
      var bounds := blk.ReadAtSlice(offset - blk.absStartOff, want).value;
      x := Slice(blockQueue[0], bounds.0, bounds.1);
      IncRefHead();
    }

    /** The references of an abandoned read: no callback will ever give them back. */
    method AbandonReferences(ghost refs: multiset<EntryId>)
      requires Running() && Guard(View(), Leak(refs))
      modifies this`inflight, this`leaked, this`trace
      ensures Running() && View() == Next(old(View()), Leak(refs))
    {
      hide Feasible, Execute, Partition, Counted, Owned, Referenced, InFile, Consistent, Faithful, Windowed;
      NextIsSafe(View(), Leak(refs));
      inflight, leaked := inflight - refs, leaked + refs;
      Record(Leak(refs));
    }

    /** Makes the block that covers `offset` the head of the queue, starting afresh if need be. */
    method CoverOffset(offset: int, may: Faults) returns (r: ScheduleResult, started: bool)
      requires Running() && 0 <= offset < cfg.Size()
      modifies this`nextBlockIndexToPrefetch, this`numPrefetchBlocks
      modifies this`blockQueue, this`entries, this`blocks, this`blockPool, this`tasks, this`holder, this`trace
      modifies this`permits, this`lostPermits
      ensures Running() && Preserves(old(View()), View())
      ensures r.Scheduled? ==> Covers(View(), offset)
      ensures !r.Scheduled? ==> blockQueue == []
      ensures Refusal(View(), r, may) && Undisturbed(old(View()), View(), offset, may)
      ensures Windowed(old(View())) ==> (started <==> !InWindow(old(View()), offset))
    {
      hide Feasible, Execute, Partition, Counted, Owned, Referenced, InFile, Consistent, Faithful, Windowed;
      hide Keeps, Preserves, Undisturbed;
      PrepareQueueForOffset(offset, may);
      r, started := Scheduled, false;
      if blockQueue == [] {
        ghost var before := View();
        r := FreshStart(offset, may);
        PreservesTwice(old(View()), before, View());
        UndisturbedTwice(old(View()), before, View(), offset, may);
        started := true;
      }
    }

    /** The head block is used up: drop it and, once in a read, schedule more blocks. */
    method PopConsumed(prefetchTriggered: bool, may: Faults, ghost at: int)
      requires Running() && blockQueue != [] && Guard(View(), Discard) && !Covers(View(), at)
      modifies this`nextBlockIndexToPrefetch, this`numPrefetchBlocks
      modifies this`blockQueue, this`entries, this`blocks, this`blockPool, this`tasks, this`holder, this`trace
      modifies this`permits, this`lostPermits
      ensures Running() && Preserves(old(View()), View())
      ensures nextBlockIndexToPrefetch - |blockQueue| == old(nextBlockIndexToPrefetch - |blockQueue|) + 1
      ensures prefetchTriggered ==> blockQueue == old(blockQueue)[1..]
      ensures !prefetchTriggered ==> Refilled(|old(blockQueue)| - 1, old(Wanted(|blockQueue| - 1)))
      ensures Undisturbed(old(View()), View(), at, may)
    {
      hide Feasible, Execute, Partition, Counted, Owned, Referenced, InFile, Consistent, Faithful, Windowed;
      hide Keeps, Preserves, Undisturbed;
      StepPreserves(View(), Discard);
      ghost var next := Next(View(), Discard);
      DiscardLine(View());
      if Sound(View()) { DiscardSound(View()); }
      UndisturbedItself(View(), at, may);
      DropUndisturbed(View(), View(), next, at, may);
      PopAndRelease();
      if !prefetchTriggered {
        ghost var popped := View();
        var _ := Prefetch(may, at);
        PreservesTwice(old(View()), popped, View());
        UndisturbedTwice(old(View()), popped, View(), at, may);
      }
    }

    /** Waits until the block that covers `offset` heads the queue and is downloaded. */
    method AwaitHead(offset: int, may: Faults) returns (err: ReadError, started: bool, ghost refused: ScheduleResult)
      requires Running() && 0 <= offset < cfg.Size()
      modifies this`nextBlockIndexToPrefetch, this`numPrefetchBlocks
      modifies this`blockQueue, this`entries, this`blocks, this`blockPool, this`tasks, this`holder, this`trace
      modifies this`permits, this`lostPermits
      ensures Running() && Preserves(old(View()), View())
      ensures err == NoError ==>
        Guard(View(), TakeRef) && Covers(View(), offset)
      ensures err in {NoError, FallbackToAnotherReader, WaitFailed, DownloadError}
      ensures err == FallbackToAnotherReader ==>
        blockQueue == [] && !refused.Scheduled? && Refusal(View(), refused, may)
      ensures err == WaitFailed ==> may.cancel
      ensures err == DownloadError ==> FailedIsFree(View(), offset) && (may.download || !Sound(old(View())))
      ensures !may.download && Sound(old(View())) ==> Sound(View())
      ensures err == NoError || err == FallbackToAnotherReader ==> SameDemand(old(View()), View(), offset)
      ensures Windowed(old(View())) ==> (started <==> !InWindow(old(View()), offset))
    {
      hide Feasible, Execute, Partition, Counted, Owned, Referenced, InFile, Consistent, Faithful, Windowed;
      hide Preserves, Refusal, SameDemand;
      var r;
      r, started := CoverOffset(offset, may);
      refused := r;
      if !r.Scheduled? {
        return FallbackToAnotherReader, started, refused;
      }
      ghost var covered := View();
      var ready := AwaitReady(blockQueue[0], false, may);
      assert Preserves(covered, View());
      PreservesTwice(old(View()), covered, View());
      WaitedAhead(covered, View(), offset, may);
      UndisturbedTwice(old(View()), covered, View(), offset, may);
      if !ready {
        return WaitFailed, started, refused;
      }
      var b := entries[blockQueue[0]].block;
      if blocks[b].status == Downloaded {
        return NoError, started, refused;
      }
      ghost var waited := View();
      QueuedEntry(View(), blockQueue[0]);
      ClosedIsDecided(View(), b);
      StepPreserves(View(), Discard);
      FailedIsReleased(View(), offset);
      FailedIsUnsound(View());
      PopFailed();
      PreservesTwice(old(View()), waited, View());
      err := DownloadError;
    }

    /** Where a read stands: what it has gathered reads as the object, and only it took references. */
    ghost predicate Gathered(s: State, slices: seq<Slice>, offset: int, end: int)
      reads this
    {
      && Running() && Preserves(s, View()) && Reads(View(), slices, offset, end)
      && inflight == s.inflight + Entries(slices) && leaked == s.leaked
    }

    /** Adds a slice of the head block to what is gathered. */
    method TakeSlice(slices: seq<Slice>, offset: int, at: int, want: int, ghost s: State)
      returns (more: seq<Slice>, end: int)
      requires Running() && Guard(View(), TakeRef) && want > 0 && 0 <= offset <= at < cfg.Size()
      requires at == Position(offset, |slices|, cfg.blockSize)
      requires Covers(View(), at)
      requires Gathered(s, slices, offset, at)
      modifies this`inflight, this`blocks, this`trace
      ensures at < end <= Min(at + want, cfg.Size())
      ensures end < at + want && end < cfg.Size() ==> end == Position(offset, |more|, cfg.blockSize)
      ensures Gathered(s, more, offset, end) && Guard(View(), Discard)
      ensures end <= StartAt(cfg, at) + cfg.blockSize && Covers(View(), at)
      ensures var goal := Min(at + want, cfg.Size()); Demand(View(), end, goal) == Demand(old(View()), at, goal)
      ensures Sound(old(View())) ==> Sound(View())
    {
      hide Feasible, Execute, Partition, Counted, Owned, Referenced, InFile, Consistent, Faithful, Windowed;
      hide Preserves, Reads, ValidSlice, Position, Demand, Sound, Serves, StartOf, Entries;
      ghost var ready := View();
      NextBlockOffset(offset, |slices|, at, cfg.blockSize);
      var x := ServeHead(at, want);
      ServedEnd(View(), x, at, want);
      PreservesTwice(s, ready, View());
      ReadsStay(ready, View(), slices, offset, at);
      ReadsMore(View(), slices, offset, at, x);
      EntriesOfMore(slices, x);
      more, end := slices + [x], at + (x.hi - x.lo);
    }

    /** One round of the loop in ReadAt, once the head is ready. */
    method Gather(slices: seq<Slice>, offset: int, at: int, want: int, prefetchTriggered: bool, may: Faults,
                  ghost s: State)
      returns (more: seq<Slice>, end: int, triggered: bool)
      requires Running() && Guard(View(), TakeRef) && want > 0 && 0 <= offset <= at < cfg.Size()
      requires at == Position(offset, |slices|, cfg.blockSize)
      requires Covers(View(), at)
      requires Gathered(s, slices, offset, at)
      modifies this`nextBlockIndexToPrefetch, this`numPrefetchBlocks, this`inflight
      modifies this`blockQueue, this`entries, this`blocks, this`blockPool, this`tasks, this`holder, this`trace
      modifies this`permits, this`lostPermits
      ensures at < end <= Min(at + want, cfg.Size())
      ensures end < at + want && end < cfg.Size() ==> end == Position(offset, |more|, cfg.blockSize)
      ensures Gathered(s, more, offset, end)
      ensures var goal := Min(at + want, cfg.Size()); Demand(View(), end, goal) == Demand(old(View()), at, goal)
      ensures !may.download && Sound(old(View())) ==> Sound(View())
      ensures Windowed(old(View())) && end < cfg.Size() && blockQueue != [] ==> InWindow(View(), end)
      ensures triggered == (prefetchTriggered || Consumed(cfg, at, end))
      ensures !Consumed(cfg, at, end) ==> blockQueue == old(blockQueue)
      ensures Consumed(cfg, at, end) && prefetchTriggered ==> blockQueue == old(blockQueue)[1..]
      ensures Consumed(cfg, at, end) && !prefetchTriggered ==>
        Refilled(|old(blockQueue)| - 1, old(Wanted(|blockQueue| - 1)))
    {
      hide Feasible, Execute, Partition, Counted, Owned, Referenced, InFile, Consistent, Faithful, Windowed;
      hide Preserves, Reads, Position, Entries, Demand, Sound, SameDemand, StartOf, StartAt, InWindow;
      var blk := blocks[entries[blockQueue[0]].block];
      more, end := TakeSlice(slices, offset, at, want, s);
      if end < cfg.Size() { ConsumedHead(old(View()), at, end); }
      triggered := prefetchTriggered;
      if end < cfg.Size() && end >= blk.absStartOff + blk.mem.Size() {
        ghost var served := View();
        PastHead(served, at, end);
        PopConsumed(prefetchTriggered, may, end);
        triggered := true;
        PreservesTwice(s, served, View());
        DemandIsSame(served, View(), end, Min(at + want, cfg.Size()));
        ReadsStay(served, View(), more, offset, end);
      }
      if Windowed(old(View())) && end < cfg.Size() && blockQueue != [] { NextInWindow(old(View()), View(), at, end); }
    }

    /** The mid-read fallback: what was gathered is dropped, but its references stay taken. */
    method GiveUp(slices: seq<Slice>, offset: int, end: int, may: Faults, ghost s: State, ghost refused: ScheduleResult)
      requires Gathered(s, slices, offset, end) && Refusal(View(), refused, may)
      modifies this`inflight, this`leaked, this`trace
      ensures Running() && Preserves(s, View()) && inflight == s.inflight && leaked == s.leaked + Entries(slices)
      ensures Cut(View(), slices, offset) && Refusal(View(), refused, may)
      ensures Sound(old(View())) ==> Sound(View())
    {
      hide Feasible, Execute, Partition, Counted, Owned, Referenced, InFile, Preserves, Reads, Cut;
      LeakPreserves(s, View(), Entries(slices));
      LeakedIsCut(View(), slices, offset, end);
      if Unreturned(View()) { StillUnreturned(View(), Entries(slices)); }
      AbandonReferences(Entries(slices));
      SameAhead(old(View()), View(), 0, may);
      assert s.inflight + Entries(slices) - Entries(slices) == s.inflight;
    }

    /** One round of the loop in ReadAt, from the wait for the block at `at` on. */
    method Round(slices: seq<Slice>, offset: int, at: int, want: int, prefetchTriggered: bool, may: Faults,
                 ghost s: State)
      returns (err: ReadError, more: seq<Slice>, end: int, triggered: bool, started: bool,
               ghost refused: ScheduleResult)
      requires Gathered(s, slices, offset, at) && want > 0 && 0 <= offset <= at < cfg.Size()
      requires at == Position(offset, |slices|, cfg.blockSize)
      modifies this`nextBlockIndexToPrefetch, this`numPrefetchBlocks, this`inflight
      modifies this`blockQueue, this`entries, this`blocks, this`blockPool, this`tasks, this`holder, this`trace
      modifies this`permits, this`lostPermits
      ensures Gathered(s, more, offset, end) && err in {NoError, FallbackToAnotherReader, WaitFailed, DownloadError}
      ensures if err == NoError then at < end <= Min(at + want, cfg.Size()) else end == at && more == slices
      ensures err == NoError && end < Min(at + want, cfg.Size()) ==> end == Position(offset, |more|, cfg.blockSize)
      ensures err == FallbackToAnotherReader ==>
        blockQueue == [] && !refused.Scheduled? && Refusal(View(), refused, may)
      ensures err == WaitFailed ==> may.cancel
      ensures err == DownloadError ==> may.download || !Sound(old(View()))
      ensures !may.download && Sound(old(View())) ==> Sound(View())
      ensures err == NoError || err == FallbackToAnotherReader ==>
        var goal := Min(at + want, cfg.Size()); Demand(View(), end, goal) == Demand(old(View()), at, goal)
      ensures err == NoError ==> triggered == (prefetchTriggered || started || Consumed(cfg, at, end))
      ensures Windowed(old(View())) ==> (started <==> !InWindow(old(View()), at))
      ensures err == NoError && Windowed(s) && end < cfg.Size() && blockQueue != [] ==> InWindow(View(), end)
    {
      hide Feasible, Execute, Partition, Counted, Owned, Referenced, InFile, Consistent, Faithful, Windowed;
      hide Preserves, Reads, Position, Guard, Refusal, Entries, Demand, Sound, SameDemand, InWindow;
      more, end, triggered := slices, at, prefetchTriggered;
      ghost var top := View();
      err, started, refused := AwaitHead(at, may);
      PreservesTwice(s, top, View());
      ReadsStay(top, View(), slices, offset, at);
      if err == NoError || err == FallbackToAnotherReader {
        DemandIsSame(top, View(), at, Min(at + want, cfg.Size()));
      }
      if err == NoError {
        if Windowed(s) { StillWindowed(s, View()); }
        more, end, triggered := Gather(slices, offset, at, want, prefetchTriggered || started, may, s);
      }
    }

    /** The loop of ReadAt; `lost` are the slices of a read that gives up, `refused` says why it does. */
    method ReadBlocks(offset: int, length: int, may: Faults)
      returns (resp: Response, err: ReadError, ghost lost: seq<Slice>, ghost refused: ScheduleResult)
      requires Running() && 0 <= offset < cfg.Size() && length > 0
      modifies this`nextBlockIndexToPrefetch, this`numPrefetchBlocks, this`inflight, this`leaked
      modifies this`blockQueue, this`entries, this`blocks, this`blockPool, this`tasks, this`holder, this`trace
      modifies this`permits, this`lostPermits
      ensures err in {NoError, FallbackToAnotherReader, WaitFailed, DownloadError}
      ensures 0 <= resp.size <= length
      ensures err == NoError ==> resp.size == Min(length, cfg.Size() - offset)
      ensures err != FallbackToAnotherReader ==>
        Gathered(old(View()), resp.data, offset, offset + resp.size) && lost == []
      ensures err == FallbackToAnotherReader ==>
        && resp == Response([], 0) && Running() && Preserves(old(View()), View()) && blockQueue == []
        && inflight == old(inflight) && leaked == old(leaked) + Entries(lost)
        && !refused.Scheduled? && Refusal(View(), refused, may)
      ensures Lost(View(), lost, offset, length)
      ensures err == WaitFailed ==> may.cancel
      ensures err == DownloadError ==> may.download || !Sound(old(View()))
      ensures !may.download && Sound(old(View())) ==> Sound(View())
      ensures var fits := Fits(old(View()), offset, Min(offset + length, cfg.Size()));
        && (err == NoError ==> fits)
        && (err == FallbackToAnotherReader && !may.memory && !may.permit ==> !fits)
      ensures err == NoError && Windowed(old(View())) && offset + resp.size < cfg.Size() && blockQueue != [] ==>
        InWindow(View(), offset + resp.size)
    {
      hide Feasible, Execute, Inv, Windowed, Preserves, Reads, Position, Refusal, Lost, Entries, Cut;
      hide Demand, Fits, Sound, InWindow;
      ghost var goal, s := Min(offset + length, cfg.Size()), View();
      ValidParts(View());
      PreservesItself(View());
      ReadsNothing(View(), offset);
      lost, refused, err := [], Scheduled, NoError;
      var prefetchTriggered, bytesRead, slices := false, 0, [];
      while bytesRead < length && offset + bytesRead < cfg.Size() && err == NoError
        invariant Gathered(s, slices, offset, offset + bytesRead) && WellFormed(View())
        invariant 0 <= bytesRead <= goal - offset
        invariant err in {NoError, FallbackToAnotherReader, WaitFailed, DownloadError}
        invariant bytesRead < goal - offset ==> offset + bytesRead == Position(offset, |slices|, cfg.blockSize)
        invariant err != NoError ==> bytesRead < goal - offset
        invariant err == NoError || err == FallbackToAnotherReader ==>
          Demand(View(), offset + bytesRead, goal) == Demand(s, offset, goal)
        invariant err == FallbackToAnotherReader ==>
          blockQueue == [] && !refused.Scheduled? && Refusal(View(), refused, may)
        invariant err == WaitFailed ==> may.cancel
        invariant err == DownloadError ==> may.download || !Sound(s)
        invariant !may.download && Sound(s) ==> Sound(View())
        invariant err == NoError && bytesRead > 0 && Windowed(s) && offset + bytesRead < cfg.Size() ==>
          blockQueue == [] || InWindow(View(), offset + bytesRead)
        decreases err == NoError, length - bytesRead
      {
        var end, started;
        err, slices, end, prefetchTriggered, started, refused :=
          Round(slices, offset, offset + bytesRead, length - bytesRead, prefetchTriggered, may, s);
        ValidParts(View());
        bytesRead := end - offset;
      }
      LostNothing(View(), offset, length);
      resp := Response(slices, bytesRead);
      if err == NoError {
        SameFits(s, offset, View(), offset + bytesRead, goal);
        DoneFits(View(), offset + bytesRead, goal);
      } else if err == FallbackToAnotherReader {
        SameFits(s, offset, View(), offset + bytesRead, goal);
        RefusedIsFull(View(), refused, may, offset + bytesRead, goal);
        GiveUp(slices, offset, offset + bytesRead, may, s, refused);
        LostSoFar(View(), slices, offset, length);
        resp, lost := Response([], 0), slices;
      }
    }

    /** The seek check at the start of a read, and what it leaves for the read. */
    method Admit(offset: int, length: int, sequential: bool, may: Faults) returns (err: ReadError)
      requires Valid() && 0 <= offset < cfg.Size() && length > 0
      modifies this`nextBlockIndexToPrefetch, this`randomSeekCount, this`numPrefetchBlocks
      modifies this`blockQueue, this`entries, this`blocks, this`blockPool, this`tasks, this`holder, this`trace
      ensures Valid() && Keeps(old(View()), View())
      ensures !old(ResetsUnderQueue(sequential)) ==> Preserves(old(View()), View())
      ensures err == if old(PassesThreshold(offset, sequential)) then FallbackToAnotherReader else NoError
      ensures randomReadsThreshold >= 0 ==>
        (randomSeekCount > randomReadsThreshold <==> old(PassesThreshold(offset, sequential)))
      ensures Fits(View(), offset, Min(offset + length, cfg.Size())) <==> old(Servable(offset, length))
      ensures Sound(old(View())) ==> Sound(View())
    {
      hide Feasible, Execute, Partition, Counted, Owned, Referenced, InFile, Consistent, Faithful, Windowed;
      hide Keeps, InWindow, RandomSeek, Fits, Sound, Pinned, Line;
      err := HandleRandomRead(offset, sequential, may);
      FitsAfterSeek(old(View()), View(), old(SeeksAway(offset)), offset, Min(offset + length, cfg.Size()));
    }

    /** ReadAt past its checks for the end of the file and an empty buffer. */
    method ReadInside(offset: int, length: int, sequential: bool, may: Faults)
      returns (resp: Response, err: ReadError, ghost lost: seq<Slice>, ghost refused: ScheduleResult)
      requires Valid() && 0 <= offset < cfg.Size() && length > 0
      modifies this
      ensures Valid() && Keeps(old(View()), View()) && err != EndOfFile
      ensures !old(ResetsUnderQueue(sequential)) ==> Preserves(old(View()), View())
      ensures err == FallbackToAnotherReader ==> resp == Response([], 0)
      ensures Reads(View(), resp.data, offset, offset + resp.size) && 0 <= resp.size <= length
      ensures err == NoError ==> resp.size == Min(length, cfg.Size() - offset) && old(Servable(offset, length))
      ensures inflight == old(inflight) + Entries(resp.data)
      ensures leaked == old(leaked) + Entries(lost) && Lost(View(), lost, offset, length)
      ensures lost != [] ==> err == FallbackToAnotherReader
      ensures old(PassesThreshold(offset, sequential)) ==> err == FallbackToAnotherReader
      ensures err == FallbackToAnotherReader && !old(PassesThreshold(offset, sequential)) ==>
        && !refused.Scheduled? && Refusal(View(), refused, may)
        && (!may.memory && !may.permit ==> !old(Servable(offset, length)))
      ensures err == WaitFailed ==> may.cancel
      ensures err == DownloadError ==> may.download || !old(Sound(View()))
      ensures !may.download && old(Sound(View())) ==> Sound(View())
      ensures err == NoError && offset + resp.size < cfg.Size() && old(Windowed(View())) ==>
        old(ResetsUnderQueue(sequential)) || (RandomSeek(View(), offset + resp.size) <==> blockQueue == [])
      ensures randomReadsThreshold >= 0 ==>
        (randomSeekCount > randomReadsThreshold <==> old(PassesThreshold(offset, sequential)))
    {
      hide Feasible, Execute, Partition, Counted, Owned, Referenced, InFile, Consistent, Faithful, Windowed;
      hide Keeps, Reads, Inv, Refusal, Lost, InWindow, RandomSeek, Fits, Sound, Servable, PassesThreshold, Entries;
      ValidParts(View());
      resp, lost, refused := Response([], 0), [], Scheduled;
      err := Admit(offset, length, sequential, may);
      ReadsNothing(View(), offset);
      LostNothing(View(), offset, length);
      if err == NoError {
        ghost var handled := View();
        ValidParts(handled);
        resp, err, lost, refused := ReadBlocks(offset, length, may);
        ValidParts(View());
        PreservedAfter(old(View()), handled, View());
        NextSeek(View(), offset + resp.size);
        ReadsNothing(View(), offset);
      }
    }

    /**
     * Reads `length` bytes at `offset`.  The references of `lost` have no callback; `refused`
     * is what the pool answered last.
     */
    method ReadAt(offset: int, length: int, sequential: bool, may: Faults)
      returns (resp: Response, err: ReadError, ghost lost: seq<Slice>, ghost refused: ScheduleResult)
      requires Valid() && cfg.Valid() && offset >= 0 && length >= 0
      modifies this
      ensures Valid() && Keeps(old(View()), View())
      ensures !old(ResetsUnderQueue(sequential)) ==> Preserves(old(View()), View())
      ensures err == EndOfFile <==> offset >= cfg.Size()
      ensures err == EndOfFile || length == 0 || err == FallbackToAnotherReader ==> resp == Response([], 0)
      ensures offset < cfg.Size() ==> Reads(View(), resp.data, offset, offset + resp.size)
      ensures err == NoError ==> resp.size == Min(length, cfg.Size() - offset)
      ensures 0 <= resp.size <= length
      ensures inflight == old(inflight) + Entries(resp.data)
      ensures leaked == old(leaked) + Entries(lost) && Lost(View(), lost, offset, length)
      ensures leaked != old(leaked) ==> err == FallbackToAnotherReader && Crosses(cfg, offset, length)
      ensures err == FallbackToAnotherReader && !old(PassesThreshold(offset, sequential)) ==>
        !refused.Scheduled? && Refusal(View(), refused, may)
      ensures length == 0 && offset < cfg.Size() ==> err == NoError
      ensures err == WaitFailed ==> may.cancel
      ensures err == DownloadError ==> may.download || !old(Sound(View()))
      ensures !may.download && old(Sound(View())) ==> Sound(View())
      ensures offset < cfg.Size() && length > 0 && err == NoError ==> old(Servable(offset, length))
      ensures offset < cfg.Size() && length > 0 && may == NO_FAULTS && old(Sound(View())) ==>
        (err == NoError <==> !old(PassesThreshold(offset, sequential)) && old(Servable(offset, length)))
      ensures err == NoError && length > 0 && offset + resp.size < cfg.Size() && old(Windowed(View())) ==>
        old(ResetsUnderQueue(sequential)) || (RandomSeek(View(), offset + resp.size) <==> blockQueue == [])
      ensures if offset < cfg.Size() && length > 0
        then randomReadsThreshold >= 0 ==>
          (randomSeekCount > randomReadsThreshold <==> old(PassesThreshold(offset, sequential)))
        else randomSeekCount == old(randomSeekCount)
    {
      hide Feasible, Execute, Inv, Windowed, Keeps, Reads, Refusal, Lost, RandomSeek, Fits, Sound, Demand;
      PreservesItself(View());
      ValidParts(View());
      LostNothing(View(), offset, length);
      lost, refused := [], Scheduled;
      resp, err := Response([], 0), EndOfFile;
      if offset >= cfg.Size() {
        return;
      }
      ReadsNothing(View(), offset);
      if length == 0 {
        err := NoError;
        return;
      }
      resp, err, lost, refused := ReadInside(offset, length, sequential, may);
      if lost != [] { LostCrosses(View(), lost, offset, length); }
      assert lost == [] ==> Entries(lost) == multiset{};
    }

    // ------------------------------------------------- callbacks and the end

    method DropReference(e: EntryId)
      requires Running() && Guard(View(), Event.Callback(e))
      modifies this`blocks, this`blockPool, this`holder, this`inflight, this`trace
      ensures Running() && View() == Next(old(View()), Event.Callback(e))
    {
      hide Feasible, Execute, Partition, Counted, Owned, Referenced, InFile, Consistent, Faithful, Windowed;
      NextIsSafe(View(), Event.Callback(e));
      var b := entries[e].block;
      var last := blocks[b].refCount == 1;
      blocks := blocks[b := blocks[b].(refCount := blocks[b].refCount - 1)];
      inflight := inflight - multiset{e};
      if last && entries[e].wasEvicted {
        blockPool := Release(blockPool, b);
        holder := holder - {b};
      }
      Record(Event.Callback(e));
    }

    method ReturnReference(e: EntryId, ghost r: State)
      requires Running() && e in inflight && Remains(r, View())
      modifies this`blocks, this`blockPool, this`holder, this`inflight, this`trace
      ensures Running() && inflight == old(inflight) - multiset{e} && blockQueue == old(blockQueue)
      ensures Remains(r, View()) && (Windowed(old(View())) ==> Windowed(View()))
    {
      hide Feasible, Execute, Partition, Counted, Owned, Referenced, InFile, Consistent, Faithful, Windowed;
      hide Remains;
      CallbackRemains(r, View(), e);
      DropReference(e);
    }

    /** The callback of a response, which its receiver runs at most once. */
    method Callback(refs: seq<EntryId>)
      requires Valid() && multiset(refs) <= inflight
      modifies this`blocks, this`blockPool, this`holder, this`inflight, this`trace
      ensures Valid() && inflight == old(inflight) - multiset(refs)
      ensures Remains(old(View()), View())
    {
      hide Feasible, Execute, Inv, Remains, Tail, Windowed;
      RemainsItself(View());
      ghost var rest := inflight - multiset(refs);
      WholeTail(inflight, refs);
      var i := 0;
      while i < |refs|
        invariant 0 <= i <= |refs| && Running() && SeekBound()
        invariant inflight == rest + Tail(refs, i) && Remains(old(View()), View())
      {
        TailStep(rest, refs, i, inflight);
        ReturnReference(refs[i], old(View()));
        i := i + 1;
      }
    }

    /** The first part of Destroy: the queue is drained, and callbacks may still run. */
    method Destroy(may: Faults)
      requires Valid()
      modifies this`blockQueue, this`entries, this`blocks, this`blockPool, this`tasks, this`holder, this`trace
      ensures Valid() && Preserves(old(View()), View()) && blockQueue == [] && tasks == {}
    {
      hide Feasible, Execute, Partition, Counted, Owned, Referenced, InFile, Consistent, Faithful, Windowed;
      DrainQueue(may);
      NoTaskLeft(View());
    }

    /**
     * Its second part, after the wait for callbacks: the pool is cleared and given up, and
     * `left` is what remains of it.  Once every callback has run and no reference was leaked,
     * no block remains, and no permit save those lost to failed mappings.
     */
    method GiveUpPool() returns (left: Pool)
      requires Valid() && blockQueue == []
      modifies this`permits
      ensures left == blockPool.(free := [], total := blockPool.total - |blockPool.free|)
      ensures Balanced(permits, lostPermits, true, left)
      ensures inflight == multiset{} && leaked == multiset{} ==> left.total == 0 && permits == lostPermits
    {
      hide Feasible, Execute, Partition, Counted, Owned, Referenced, InFile, Consistent, Faithful, Windowed;
      if inflight == multiset{} && leaked == multiset{} {
        AllReturned(View());
      }
      PoolIsValid(View());
      var released;
      left, released := ClearFree(blockPool, true);
      permits := permits - released;
    }
  }

  /** A first read elsewhere than at the start passes a threshold of 0, so one more than it is reached. */
  method SeekPastThreshold(c: Config, initialPrefetch: int, offset: int) returns (r: BufferedReader)
    requires c.Valid() && 0 < offset < c.Size()
    ensures fresh(r) && r.Valid() && r.randomReadsThreshold == 0 && r.randomSeekCount == 1
  {
    hide Feasible, Execute, Inv, Preserves;
    r := new BufferedReader(c, initialPrefetch, 0);
    var _, _, _, _ := r.ReadAt(offset, 1, false, NO_FAULTS);
  }

  /**
   * If nothing fails, the first bytes of an object are read from a new reader, exactly if they
   * lie in no more blocks than the pool may have.
   */
  method FirstRead(c: Config, initialPrefetch: int, threshold: int, length: nat, sequential: bool)
    returns (r: BufferedReader, resp: Response, err: ReadError)
    requires c.Valid() && c.Size() > 0 && length > 0 && threshold >= 0
    ensures fresh(r) && r.Valid() && r.cfg == c
    ensures err == NoError <==> Span(c.blockSize, 0, Min(length, c.Size())) <= c.maxPrefetch
    ensures err == NoError ==> Reads(r.View(), resp.data, 0, Min(length, c.Size()))
  {
    hide Feasible, Execute, Inv, Keeps, Windowed, Reads, Fits, Span, RandomSeek;
    r := new BufferedReader(c, initialPrefetch, threshold);
    FitsUnreferenced(r.View(), 0, Min(length, c.Size()));
    ghost var lost, refused;
    resp, err, lost, refused := r.ReadAt(0, length, sequential, NO_FAULTS);
  }
}
