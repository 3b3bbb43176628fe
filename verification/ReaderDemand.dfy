// What a read asks of the pool.  A block stays out of reach as long as it is referenced, so
// whether a read can be served depends on the blocks it touches and those referenced already.
module ReaderDemand {
  import opened Bytes
  import opened Blocks
  import opened BlockPools
  import opened ReaderState
  import opened ReaderProofs
  import opened ReaderRuns

  /** What may go wrong outside the reader while it is called. */
  datatype Faults = Faults(cancel: bool, download: bool, memory: bool, permit: bool)

  const NO_FAULTS := Faults(false, false, false, false)

  /** The blocks in use that are referenced. */
  ghost function Pinned(s: State): set<BlockId> {
    set b | b in s.holder && b < |s.blocks| && s.blocks[b].refCount > 0
  }

  /** Where a queued block starts, and whether it is referenced. */
  datatype Stop = Stop(start: int, pinned: bool)

  function Line(s: State): seq<Stop>
    requires WellFormed(s)
  {
    seq(|s.queue|, i requires 0 <= i < |s.queue| =>
      Stop(BlockOf(s, s.queue[i]).absStartOff, BlockOf(s, s.queue[i]).refCount > 0))
  }

  /** The referenced blocks that a read of `at` up to `end` finds in the line, dropping what does not cover it. */
  function Reusable(line: seq<Stop>, blockSize: nat, at: int, end: int): nat
    decreases |line|
  {
    if line == [] || at >= end then 0
    else if line[0].start <= at < line[0].start + blockSize then
      (if line[0].pinned then 1 else 0) + Reusable(line[1..], blockSize, line[0].start + blockSize, end)
    else Reusable(line[1..], blockSize, at, end)
  }

  /** Where the block that `offset` falls into starts. */
  function StartAt(c: Config, offset: nat): nat
    requires c.Valid()
  {
    StartOf(offset / c.blockSize, c.blockSize)
  }

  /** How many blocks the bytes from `at` up to `end` lie in. */
  function Span(blockSize: nat, at: nat, end: int): nat
    requires blockSize > 0
  {
    if at < end then (end - 1) / blockSize - at / blockSize + 1 else 0
  }

  /** The blocks that are referenced once `at` up to `end` is read. */
  ghost function Demand(s: State, at: nat, end: int): int
    requires WellFormed(s)
  {
    |Pinned(s)| + Span(s.cfg.blockSize, at, end) - Reusable(Line(s), s.cfg.blockSize, at, end)
  }

  /** The same blocks are referenced, and a read from `at` on finds the same of them. */
  ghost predicate SameDemand(s: State, t: State, at: int) {
    && WellFormed(s) && WellFormed(t) && t.cfg == s.cfg && Pinned(t) == Pinned(s)
    && forall end :: Reusable(Line(t), s.cfg.blockSize, at, end) == Reusable(Line(s), s.cfg.blockSize, at, end)
  }

  lemma SameDemandItself(s: State, at: int)
    requires WellFormed(s)
    ensures SameDemand(s, s, at)
  {
  }

  lemma SameDemandTwice(r: State, s: State, t: State, at: int)
    requires SameDemand(r, s, at) && SameDemand(s, t, at)
    ensures SameDemand(r, t, at)
  {
  }

  lemma DemandIsSame(s: State, t: State, at: nat, end: int)
    requires SameDemand(s, t, at)
    ensures Demand(t, at, end) == Demand(s, at, end)
  {
  }

  // ------------------------------------------------- what the steps do to it

  /** Blocks keep their place and their references. */
  ghost predicate SameUses(before: seq<PrefetchBlock>, after: seq<PrefetchBlock>) {
    && |after| == |before|
    && forall i :: 0 <= i < |before| ==>
      after[i].absStartOff == before[i].absStartOff && after[i].refCount == before[i].refCount
  }

  lemma SameLine(s: State, t: State)
    requires WellFormed(s) && WellFormed(t) && SameUses(s.blocks, t.blocks)
    requires t.queue == s.queue && t.entries == s.entries && t.holder == s.holder
    ensures Line(t) == Line(s) && Pinned(t) == Pinned(s)
  {
  }

  lemma ScheduleLine(s: State, permit: bool, mapped: bool)
    requires Inv(s) && Guard(s, Schedule(permit, mapped))
    ensures var t := Next(s, Schedule(permit, mapped));
      && WellFormed(t) && Pinned(t) == Pinned(s)
      && |Line(t)| == |Line(s)| + 1 && !Line(t)[|Line(s)|].pinned && Line(t)[..|Line(s)|] == Line(s)
  {
    hide Partition, Counted, Owned, Referenced, InFile, Consistent, Faithful, StartOf, BlockCount, FreeOthers;
    NextIsSafe(s, Schedule(permit, mapped));
    ScheduledBlocks(s, permit, mapped);
    GrantedBlock(s, permit, mapped);
    var t := Next(s, Schedule(permit, mapped));
    var g := TryGet(s.pool, permit, mapped).0;
    assert t.blocks[g.id].refCount == 0;
    forall i | 0 <= i < |s.queue| ensures Line(t)[i] == Line(s)[i] {
      QueuedBlock(s, i);
    }
  }

  lemma DiscardLine(s: State)
    requires Inv(s) && Guard(s, Discard)
    ensures var t := Next(s, Discard); WellFormed(t) && Line(t) == Line(s)[1..] && Pinned(t) == Pinned(s)
  {
    hide Partition, Counted, Owned, Referenced, InFile, Consistent, Faithful;
    NextIsSafe(s, Discard);
    QueuedBlock(s, 0);
  }

  /** Each entry of the queue has a block of its own. */
  lemma BehindHead(s: State, i: nat)
    requires Inv(s) && 1 <= i < |s.queue|
    ensures s.queue[i] < |s.entries| && s.entries[s.queue[i]].block != s.entries[s.queue[0]].block
  {
    hide Counted, Owned, Referenced, InFile, Consistent, Faithful;
    assert s.queue[0] != s.queue[i];
    QueuedBlock(s, 0);
    QueuedBlock(s, i);
  }

  lemma TakeRefLine(s: State)
    requires Inv(s) && Guard(s, TakeRef)
    ensures var t, b := Next(s, TakeRef), s.entries[s.queue[0]].block;
      && WellFormed(t) && Pinned(t) == Pinned(s) + {b} && (b in Pinned(s) <==> Line(s)[0].pinned)
      && Line(t) == Line(s)[0 := Line(t)[0]] && Line(t)[0].start == Line(s)[0].start
  {
    hide Partition, Counted, Owned, Referenced, InFile, Consistent, Faithful;
    NextIsSafe(s, TakeRef);
    QueuedBlock(s, 0);
    InUseBlock(s, s.entries[s.queue[0]].block);
    var t := Next(s, TakeRef);
    forall i | 1 <= i < |s.queue| ensures Line(t)[i] == Line(s)[i] {
      BehindHead(s, i);
    }
  }

  lemma ReusableAppend(line: seq<Stop>, last: Stop, blockSize: nat, at: int, end: int)
    requires !last.pinned
    ensures Reusable(line + [last], blockSize, at, end) == Reusable(line, blockSize, at, end)
    decreases |line|
  {
    if line != [] && at < end {
      assert (line + [last])[1..] == line[1..] + [last];
      ReusableAppend(line[1..], last, blockSize,
                     if line[0].start <= at < line[0].start + blockSize then line[0].start + blockSize else at, end);
    }
  }

  /** A block scheduled behind the queue is not referenced, so it is no help to a read and no burden. */
  lemma ScheduleDemand(s: State, permit: bool, mapped: bool, at: int)
    requires Inv(s) && Guard(s, Schedule(permit, mapped))
    ensures SameDemand(s, Next(s, Schedule(permit, mapped)), at)
  {
    hide Partition, Counted, Owned, Referenced, InFile, Consistent, Faithful, Next, Guard;
    ScheduleLine(s, permit, mapped);
    var t := Next(s, Schedule(permit, mapped));
    var last := Line(t)[|Line(s)|];
    assert Line(t) == Line(s) + [last];
    forall end
      ensures Reusable(Line(t), s.cfg.blockSize, at, end) == Reusable(Line(s), s.cfg.blockSize, at, end)
    {
      ReusableAppend(Line(s), last, s.cfg.blockSize, at, end);
    }
  }

  /** Nor is a head that does not cover the read any help. */
  lemma DropDemand(s: State, t: State, at: int)
    requires WellFormed(s) && WellFormed(t) && t.cfg == s.cfg && s.queue != []
    requires !(Head(s).absStartOff <= at < Head(s).absStartOff + s.cfg.blockSize)
    requires Line(t) == Line(s)[1..] && Pinned(t) == Pinned(s)
    ensures SameDemand(s, t, at)
  {
    assert Line(s)[0].start == Head(s).absStartOff;
  }

  /** No more blocks are referenced than the pool may have. */
  lemma PinnedWithinLimit(s: State)
    requires Inv(s)
    ensures |Pinned(s)| <= s.cfg.maxPrefetch
  {
    hide Partition, Owned, Referenced, InFile, Consistent, Faithful;
    SubsetSize(Pinned(s), s.holder.Keys);
  }

  /** With nothing queued and the pool at its limit, all blocks are referenced. */
  lemma ExhaustedIsPinned(s: State)
    requires Inv(s) && s.queue == [] && s.pool.free == [] && s.pool.total >= s.pool.maxBlocks
    ensures |Pinned(s)| == s.cfg.maxPrefetch
  {
    hide Partition, Owned, Referenced, InFile, Consistent, Faithful;
    forall b | b in s.holder ensures b in Pinned(s) {
      InUseBlock(s, b);
      UnqueuedIsReferenced(s, b);
    }
    assert Pinned(s) == s.holder.Keys;
  }

  lemma SpanStep(blockSize: nat, at: nat, next: nat, end: int)
    requires blockSize > 0 && at < end
    requires next == StartOf(at / blockSize, blockSize) + blockSize
    ensures Span(blockSize, at, end) == 1 + Span(blockSize, next, end)
  {
    var k := at / blockSize;
    Covering(at, k, blockSize);
    Covering(next, k + 1, blockSize);
    if next >= end { Covering(end - 1, k, blockSize); }
  }

  lemma SpanSome(blockSize: nat, at: nat, end: int)
    requires blockSize > 0 && at < end
    ensures Span(blockSize, at, end) >= 1
  {
    Covering(at, at / blockSize, blockSize);
    if (end - 1) / blockSize < at / blockSize {
      Covering(end - 1, (end - 1) / blockSize, blockSize);
      StartsAreMonotone((end - 1) / blockSize, at / blockSize, blockSize);
    }
  }

  lemma SpanNone(blockSize: nat, at: nat, end: int)
    requires blockSize > 0 && at >= end
    ensures Span(blockSize, at, end) == 0
  {
  }

  lemma ReusableNone(line: seq<Stop>, blockSize: nat, at: int, end: int)
    requires at >= end
    ensures Reusable(line, blockSize, at, end) == 0
  {
  }

  lemma ReusableHead(line: seq<Stop>, blockSize: nat, at: int, end: int)
    requires line != [] && at < end
    ensures Reusable(line, blockSize, at, end) ==
      if line[0].start <= at < line[0].start + blockSize
      then (if line[0].pinned then 1 else 0) + Reusable(line[1..], blockSize, line[0].start + blockSize, end)
      else Reusable(line[1..], blockSize, at, end)
  {
  }

  lemma ServedLine(line: seq<Stop>, line': seq<Stop>, blockSize: nat, at: nat, next: nat, end: int)
    requires blockSize > 0 && line != [] && at < end && 0 <= line[0].start <= at < line[0].start + blockSize
    requires Span(blockSize, at, end) == 1 + Span(blockSize, line[0].start + blockSize, end)
    requires |line'| == |line| && line' == line[0 := line'[0]] && line'[0].start == line[0].start
    requires next == line[0].start + blockSize || end <= next <= line[0].start + blockSize
    ensures Span(blockSize, at, end) - Reusable(line, blockSize, at, end)
         == Span(blockSize, next, end) - Reusable(line', blockSize, next, end) + (if line[0].pinned then 0 else 1)
  {
    hide Span, Reusable;
    var start := line[0].start;
    if next >= end {
      SpanNone(blockSize, next, end);
      SpanNone(blockSize, start + blockSize, end);
      ReusableNone(line', blockSize, next, end);
      ReusableNone(line[1..], blockSize, start + blockSize, end);
    }
    assert line'[1..] == line[1..];
    ReusableHead(line, blockSize, at, end);
    if next < end { ReusableHead(line', blockSize, next, end); }
  }

  /** Serving the rest of the head block takes what the read asked of it off the demand. */
  lemma TakeRefDemand(s: State, at: nat, next: nat, end: int)
    requires Inv(s) && Guard(s, TakeRef) && at < end
    requires Head(s).absStartOff == StartAt(s.cfg, at)
    requires next == Head(s).absStartOff + s.cfg.blockSize || end <= next <= Head(s).absStartOff + s.cfg.blockSize
    ensures Demand(Next(s, TakeRef), next, end) == Demand(s, at, end)
  {
    hide Partition, Counted, Owned, Referenced, InFile, Consistent, Faithful, Next, StartOf, Span, Reusable;
    TakeRefLine(s);
    Covering(at, at / s.cfg.blockSize, s.cfg.blockSize);
    SpanStep(s.cfg.blockSize, at, Head(s).absStartOff + s.cfg.blockSize, end);
    ServedLine(Line(s), Line(Next(s, TakeRef)), s.cfg.blockSize, at, next, end);
    assert |Pinned(Next(s, TakeRef))| == |Pinned(s)| + if Line(s)[0].pinned then 0 else 1;
  }

  // ------------------------------------------------- downloads that failed

  ghost predicate SoundFrom(s: State, from: nat) {
    WellFormed(s) && forall i :: from <= i < |s.queue| ==> BlockOf(s, s.queue[i]).Outcome() != DownloadFailed
  }

  /** No queued block failed to download. */
  ghost predicate Sound(s: State) {
    SoundFrom(s, 0)
  }

  lemma ScheduleSound(s: State, permit: bool, mapped: bool)
    requires Inv(s) && Guard(s, Schedule(permit, mapped)) && Sound(s)
    ensures Sound(Next(s, Schedule(permit, mapped)))
  {
    hide Partition, Counted, Owned, Referenced, InFile, Consistent, Faithful, StartOf, BlockCount, FreeOthers;
    NextIsSafe(s, Schedule(permit, mapped));
    ScheduledBlocks(s, permit, mapped);
    GrantedBlock(s, permit, mapped);
    var t := Next(s, Schedule(permit, mapped));
    forall i | 0 <= i < |s.queue| ensures BlockOf(t, t.queue[i]) == BlockOf(s, s.queue[i]) {
      QueuedBlock(s, i);
    }
  }

  lemma DiscardSound(s: State)
    requires Inv(s) && Guard(s, Discard) && SoundFrom(s, 1)
    ensures Sound(Next(s, Discard))
  {
    hide Partition, Counted, Owned, Referenced, InFile, Consistent, Faithful;
    NextIsSafe(s, Discard);
  }

  lemma TakeRefSound(s: State)
    requires Inv(s) && Guard(s, TakeRef) && Sound(s)
    ensures Sound(Next(s, TakeRef))
  {
    hide Partition, Counted, Owned, Referenced, InFile, Consistent, Faithful;
    NextIsSafe(s, TakeRef);
  }

  lemma CallbackSound(s: State, e: EntryId)
    requires Inv(s) && Guard(s, Callback(e)) && Sound(s)
    ensures Sound(Next(s, Callback(e)))
  {
    hide Partition, Counted, Owned, Referenced, InFile, Consistent, Faithful;
    NextIsSafe(s, Callback(e));
  }

  /** No block but `b` differs. */
  ghost predicate OnlyBlock(before: seq<PrefetchBlock>, after: seq<PrefetchBlock>, b: BlockId) {
    |after| == |before| && forall i :: 0 <= i < |before| && i != b ==> after[i] == before[i]
  }

  /** The end of one download. */
  lemma TaskSound(s: State, t: State, b: BlockId)
    requires Inv(s) && Sound(s) && WellFormed(t) && t.queue == s.queue && t.entries == s.entries
    requires b < |s.blocks| && OnlyBlock(s.blocks, t.blocks, b)
    ensures t.blocks[b].Outcome() != DownloadFailed ==> Sound(t)
    ensures s.queue != [] && s.entries[s.queue[0]].block == b ==> SoundFrom(t, 1)
  {
    hide Inv;
    if s.queue != [] && s.entries[s.queue[0]].block == b {
      forall i | 1 <= i < |s.queue| ensures s.queue[i] < |s.entries| && s.entries[s.queue[i]].block != b {
        BehindHead(s, i);
      }
    }
  }

  /** What a read from `at` on depends on is left alone, as long as no download fails. */
  ghost predicate Undisturbed(s: State, t: State, at: int, may: Faults) {
    SameDemand(s, t, at) && (!may.download && Sound(s) ==> Sound(t))
  }

  lemma UndisturbedItself(s: State, at: int, may: Faults)
    requires Inv(s)
    ensures Undisturbed(s, s, at, may)
  {
  }

  lemma UndisturbedTwice(r: State, s: State, t: State, at: int, may: Faults)
    requires Undisturbed(r, s, at, may) && Undisturbed(s, t, at, may)
    ensures Undisturbed(r, t, at, may)
  {
    hide Reusable, Sound;
  }

  lemma ScheduleUndisturbed(s: State, permit: bool, mapped: bool, at: int, may: Faults)
    requires Inv(s) && Guard(s, Schedule(permit, mapped))
    ensures Undisturbed(s, Next(s, Schedule(permit, mapped)), at, may)
  {
    hide Inv, Next, Guard, SameDemand, Sound;
    ScheduleDemand(s, permit, mapped, at);
    if Sound(s) { ScheduleSound(s, permit, mapped); }
  }

  /** The blocks referenced once the read is done are no more than the pool may have. */
  ghost predicate Fits(s: State, at: nat, end: int)
    requires WellFormed(s)
  {
    Demand(s, at, end) <= s.cfg.maxPrefetch
  }

  lemma NoneReusable(line: seq<Stop>, blockSize: nat, at: int, end: int)
    requires forall i :: 0 <= i < |line| ==> !line[i].pinned
    ensures Reusable(line, blockSize, at, end) == 0
    decreases |line|
  {
  }

  /** With no reference out, a read fits exactly if it touches no more blocks than the pool may have. */
  lemma FitsUnreferenced(s: State, at: nat, end: int)
    requires Inv(s) && s.inflight == multiset{} && s.leaked == multiset{}
    ensures Fits(s, at, end) <==> Span(s.cfg.blockSize, at, end) <= s.cfg.maxPrefetch
  {
    hide Partition, Counted, Owned, InFile, Consistent, Faithful, Span, Reusable;
    forall b | b in s.holder ensures b !in Pinned(s) {
      InUseBlock(s, b);
    }
    assert Pinned(s) == {};
    forall i | 0 <= i < |s.queue| ensures !Line(s)[i].pinned {
      QueuedBlock(s, i);
    }
    NoneReusable(Line(s), s.cfg.blockSize, at, end);
  }
}
