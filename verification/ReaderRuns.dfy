// What holds of the buffered reader over whole runs.
module ReaderRuns {
  import opened Bytes
  import opened Blocks
  import opened BlockPools
  import opened ReaderState
  import opened ReaderProofs

  lemma EmptyIsInv(c: Config)
    requires c.Valid()
    ensures Inv(Init(c))
  {
  }

  lemma NextIsSafe(s: State, ev: Event)
    requires Inv(s) && Guard(s, ev)
    ensures Safe(s, ev) && Inv(Apply(s, ev)) && Apply(s, ev).cfg == s.cfg
  {
    hide Inv;
    GuardIsSafe(s, ev);
    StepKeepsInv(s, ev);
  }

  /** One step from a reachable state: it does not panic and keeps the invariant. */
  ghost function Next(s: State, ev: Event): (t: State)
    requires Inv(s) && Guard(s, ev)
    ensures Safe(s, ev) && t == Apply(s, ev) && Inv(t) && t.cfg == s.cfg
  {
    NextIsSafe(s, ev);
    Apply(s, ev)
  }

  /** The trace is one that the reader, its tasks and its callbacks can produce. */
  ghost predicate Feasible(c: Config, trace: seq<Event>)
    decreases |trace|, 0
  {
    && c.Valid()
    && (trace != [] ==>
          && Feasible(c, trace[..|trace| - 1])
          && Guard(Execute(c, trace[..|trace| - 1]), trace[|trace| - 1]))
  }

  /** The state after a trace.  It is defined because no step of the trace panics. */
  ghost function Execute(c: Config, trace: seq<Event>): (s: State)
    requires Feasible(c, trace)
    ensures Inv(s) && s.cfg == c
    decreases |trace|, 1
  {
    if trace == [] then EmptyIsInv(c); Init(c)
    else Next(Execute(c, trace[..|trace| - 1]), trace[|trace| - 1])
  }

  lemma EmptyTrace(c: Config)
    requires c.Valid()
    ensures Feasible(c, []) && Execute(c, []) == Init(c) && Inv(Init(c))
  {
    hide Inv;
    EmptyIsInv(c);
  }

  lemma ValidConfig(c: Config, trace: seq<Event>)
    requires Feasible(c, trace)
    ensures c.Valid()
  {
  }

  lemma LastStep(c: Config, trace: seq<Event>)
    requires Feasible(c, trace) && trace != []
    ensures var front, ev := trace[..|trace| - 1], trace[|trace| - 1];
      && Feasible(c, front) && Guard(Execute(c, front), ev)
      && Execute(c, trace) == Next(Execute(c, front), ev)
  {
    hide Inv, Guard;
  }

  lemma ExtendTrace(c: Config, trace: seq<Event>, ev: Event)
    requires Feasible(c, trace) && Guard(Execute(c, trace), ev)
    ensures Feasible(c, trace + [ev])
    ensures Execute(c, trace + [ev]) == Next(Execute(c, trace), ev)
  {
    hide Inv, Guard;
    assert (trace + [ev])[..|trace|] == trace;
  }

  // ------------------------------------------------- settled blocks do not change

  ghost predicate SameContents(b: PrefetchBlock, c: PrefetchBlock) {
    b.Settled() && c.Settled() && c.mem == b.mem && c.absStartOff == b.absStartOff && c.Outcome() == b.Outcome()
  }

  lemma ScheduleKeepsOthers(s: State, permit: bool, mapped: bool, b: BlockId)
    requires Inv(s) && Guard(s, Schedule(permit, mapped)) && Safe(s, Schedule(permit, mapped))
    requires b < |s.blocks| && TryGet(s.pool, permit, mapped).0.id != b
    ensures var t := Apply(s, Schedule(permit, mapped)); b < |t.blocks| && t.blocks[b] == s.blocks[b]
  {
    hide Inv;
    ScheduledBlocks(s, permit, mapped);
  }

  lemma SettledIsSame(b: PrefetchBlock)
    requires b.Settled()
    ensures SameContents(b, b)
  {
  }

  lemma AwaitIsSame(b: PrefetchBlock)
    requires b.Settled()
    ensures SameContents(b, b.AwaitReady())
  {
  }

  lemma RecountIsSame(b: PrefetchBlock, count: int)
    requires b.Settled()
    ensures SameContents(b, b) && SameContents(b, b.(refCount := count))
  {
  }

  /** Until its block is reused, an entry whose download has ended keeps its bytes and its outcome. */
  lemma StepKeepsSettled(s: State, ev: Event, b: BlockId)
    requires Inv(s) && Guard(s, ev) && Safe(s, ev)
    requires b in s.holder && b < |s.blocks| && s.blocks[b].Settled()
    requires ev.Schedule? ==> TryGet(s.pool, ev.permit, ev.mapped).0.id != b
    ensures b < |Apply(s, ev).blocks| && SameContents(s.blocks[b], Apply(s, ev).blocks[b])
  {
    hide Faithful, Partition, Counted, Owned, Referenced, InFile, Consistent, SameContents;
    match ev
    case Schedule(permit, mapped) =>
      ScheduleKeepsOthers(s, permit, mapped, b);
      SettledIsSame(s.blocks[b]);
    case Download(c, count) => TaskBlock(s, c); InUseBlock(s, c); SettledIsSame(s.blocks[b]);
    case Notify(c, ok) => TaskBlock(s, c); InUseBlock(s, c); SettledIsSame(s.blocks[b]);
    case Await(e) => AwaitIsSame(s.blocks[b]); SettledIsSame(s.blocks[b]);
    case _ => RecountIsSame(s.blocks[b], Apply(s, ev).blocks[b].refCount);
  }

  /** The reference is handed out and its callback has not run. */
  ghost predicate Outstanding(s: State, e: EntryId) {
    e in s.inflight
  }

  /** The block of entry `e` holds all of its part of the object. */
  ghost predicate HoldsObject(s: State, e: EntryId) {
    && e < |s.entries| && s.entries[e].block < |s.blocks|
    && var b := s.blocks[s.entries[e].block];
       && 0 <= b.absStartOff <= s.cfg.Limit(b.absStartOff)
       && b.mem.buffer == s.cfg.content[b.absStartOff .. s.cfg.Limit(b.absStartOff)]
  }

  lemma ReferenceIsSettled(s: State, e: EntryId)
    requires Inv(s) && Outstanding(s, e)
    ensures e < |s.entries| && s.entries[e].block < |s.blocks|
    ensures var b := s.entries[e].block;
      && s.blocks[b].Settled() && s.blocks[b].status == Downloaded
      && s.blocks[b].refCount >= s.inflight[e]
      && b !in s.pool.free && b !in s.tasks && b in s.holder && s.holder[b] == e
      && HoldsObject(s, e)
  {
    ReferencedBlock(s, e);
    InUseBlock(s, s.entries[e].block);
    SettledByReference(s.cfg, s.blocks[s.entries[e].block]);
    assert s.entries[e].block !in s.pool.free;
  }

  /** The slices of entry `e` in state `s` read the same in state `t`, and their block is not touched. */
  ghost predicate Untouched(s: State, t: State, e: EntryId) {
    && e < |s.entries| && e < |t.entries| && t.entries[e].block == s.entries[e].block
    && s.entries[e].block < |s.blocks| && s.entries[e].block < |t.blocks|
    && SameContents(s.blocks[s.entries[e].block], t.blocks[s.entries[e].block])
    && s.entries[e].block !in t.pool.free && s.entries[e].block !in t.tasks
  }

  lemma EntriesKeepBlocks(s: State, ev: Event, e: EntryId)
    requires Inv(s) && Guard(s, ev) && Safe(s, ev) && e < |s.entries|
    ensures e < |Apply(s, ev).entries| && Apply(s, ev).entries[e].block == s.entries[e].block
  {
    hide Faithful, Partition, Counted, Owned, Referenced, InFile, Consistent;
  }

  lemma StepKeepsReference(s: State, ev: Event, e: EntryId)
    requires Inv(s) && Guard(s, ev) && Outstanding(s, e) && Outstanding(Next(s, ev), e)
    ensures Untouched(s, Next(s, ev), e)
  {
    hide Inv, SameContents, Faithful;
    NextIsSafe(s, ev);
    ReferenceIsSettled(s, e);
    ReferenceIsSettled(Next(s, ev), e);
    if ev.Schedule? { GrantedBlock(s, ev.permit, ev.mapped); }
    StepKeepsSettled(s, ev, s.entries[e].block);
    EntriesKeepBlocks(s, ev, e);
  }

  lemma SameAsItself(s: State, e: EntryId)
    requires Inv(s) && Outstanding(s, e)
    ensures Untouched(s, s, e)
  {
    hide Inv;
    ReferenceIsSettled(s, e);
  }

  lemma SameOverTwo(r: State, s: State, t: State, e: EntryId)
    requires Untouched(r, s, e) && Untouched(s, t, e)
    ensures Untouched(r, t, e)
  {
  }

  /**
   * Zero-copy safety.  From the moment a slice of a block is handed out until the last
   * callback for it, whatever else runs, its block is not free, not being written, and
   * holds the bytes of the object it held at that moment.
   */
  lemma {:induction false} ReferencedBytesStay(c: Config, trace: seq<Event>, from: nat, e: EntryId)
    requires Feasible(c, trace) && from <= |trace|
    requires forall k :: from <= k <= |trace| ==> Feasible(c, trace[..k]) && Outstanding(Execute(c, trace[..k]), e)
    ensures Untouched(Execute(c, trace[..from]), Execute(c, trace), e)
    ensures HoldsObject(Execute(c, trace), e)
    decreases |trace|
  {
    hide Feasible, Execute, Inv, Next, Outstanding, SameContents;
    assert trace[..|trace|] == trace;
    ReferenceIsSettled(Execute(c, trace), e);
    if from == |trace| {
      SameAsItself(Execute(c, trace), e);
    } else {
      var front, ev := trace[..|trace| - 1], trace[|trace| - 1];
      LastStep(c, trace);
      assert forall k :: from <= k <= |front| ==> front[..k] == trace[..k];
      ReferencedBytesStay(c, front, from, e);
      assert front[..from] == trace[..from];
      assert trace[..|front|] == front;
      StepKeepsReference(Execute(c, front), ev, e);
      SameOverTwo(Execute(c, trace[..from]), Execute(c, front), Execute(c, trace), e);
    }
  }

  // ------------------------------------------------- where the blocks are

  function EvictedBlocks(s: State): set<BlockId>
    requires forall b <- s.holder :: s.holder[b] < |s.entries|
  {
    set b | b in s.holder && s.entries[s.holder[b]].wasEvicted
  }

  function QueuedBlocks(queue: seq<EntryId>, entries: seq<Entry>): set<BlockId>
    requires forall i :: 0 <= i < |queue| ==> queue[i] < |entries|
  {
    set i | 0 <= i < |queue| :: entries[queue[i]].block
  }

  lemma {:induction false} QueuedOnce(queue: seq<EntryId>, entries: seq<Entry>, holder: map<BlockId, EntryId>)
    requires forall i :: 0 <= i < |queue| ==> queue[i] < |entries| && Live(entries, holder, queue[i])
    requires forall i, j :: 0 <= i < j < |queue| ==> queue[i] != queue[j]
    ensures |QueuedBlocks(queue, entries)| == |queue|
  {
    if queue != [] {
      var front, last := queue[..|queue| - 1], queue[|queue| - 1];
      QueuedOnce(front, entries, holder);
      assert queue == front + [last];
      assert QueuedBlocks(queue, entries) == QueuedBlocks(front, entries) + {entries[last].block};
      forall i | 0 <= i < |front| ensures entries[front[i]].block != entries[last].block {
        assert Live(entries, holder, front[i]) && Live(entries, holder, last);
      }
    }
  }

  /**
   * Every block the pool has made is free, queued, or evicted with references to it, in
   * exactly one of these ways, and the pool never makes more than its limit.
   */
  lemma BlocksAccounted(s: State)
    requires Inv(s)
    ensures s.pool.total == |s.pool.free| + |s.queue| + |EvictedBlocks(s)| <= s.pool.maxBlocks
    ensures forall b: BlockId :: b < s.pool.total ==>
      (b in s.pool.free || b in QueuedBlocks(s.queue, s.entries) || b in EvictedBlocks(s))
    ensures QueuedBlocks(s.queue, s.entries) !! EvictedBlocks(s)
    ensures forall b <- s.pool.free :: b !in QueuedBlocks(s.queue, s.entries) && b !in EvictedBlocks(s)
    ensures forall b <- EvictedBlocks(s) :: b < |s.blocks| && s.blocks[b].refCount > 0
  {
    hide Faithful, Owned, InFile;
    var queued := QueuedBlocks(s.queue, s.entries);
    QueuedOnce(s.queue, s.entries, s.holder);
    forall b | b in s.holder && b !in EvictedBlocks(s) ensures b in queued {
      var i :| 0 <= i < |s.queue| && s.queue[i] == s.holder[b];
      assert s.entries[s.queue[i]].block == b;
    }
    forall b | b in queued ensures b in s.holder && b !in EvictedBlocks(s) {
      var i :| 0 <= i < |s.queue| && s.entries[s.queue[i]].block == b;
      QueuedBlock(s, i);
    }
    assert s.holder.Keys == queued + EvictedBlocks(s);
  }

  lemma UnqueuedIsReferenced(s: State, b: BlockId)
    requires Inv(s) && s.queue == [] && b in s.holder
    ensures s.inflight[s.holder[b]] + s.leaked[s.holder[b]] > 0
  {
    InUseBlock(s, b);
  }

  /** With nothing queued and no reference left, every block is back in the pool. */
  lemma AllReturned(s: State)
    requires Inv(s) && s.queue == [] && s.inflight == multiset{} && s.leaked == multiset{}
    ensures |s.pool.free| == s.pool.total
    ensures forall b: BlockId :: b < s.pool.total ==> b in s.pool.free
  {
    hide Referenced, Owned, InFile;
    if s.holder.Keys != {} {
      var b :| b in s.holder.Keys;
      UnqueuedIsReferenced(s, b);
      assert false;
    }
    assert |s.holder.Keys| == 0;
  }

  /**
   * A fresh start with an empty queue is refused its first block only while an evicted
   * block still has references, if one block was reserved and memory can be mapped.
   */
  lemma FallbackNeedsReferences(s: State, permit: bool)
    requires Inv(s) && s.queue == [] && s.cfg.reserved >= 1
    requires !Granted(TryGet(s.pool, permit, true).0)
    ensures exists e :: e in s.inflight || e in s.leaked
  {
    if s.inflight == multiset{} && s.leaked == multiset{} {
      AllReturned(s);
      assert false;
    }
    if s.inflight != multiset{} {
      var e :| e in s.inflight;
    } else {
      var e :| e in s.leaked;
    }
  }

  // ------------------------------------------------- a read that leaks

  lemma Start(c: Config) returns (trace: seq<Event>)
    requires c.Valid()
    ensures Feasible(c, trace) && Execute(c, trace) == Init(c)
  {
    trace := [];
  }

  lemma More(c: Config, trace: seq<Event>, ev: Event) returns (longer: seq<Event>)
    requires Feasible(c, trace) && Guard(Execute(c, trace), ev)
    ensures Feasible(c, longer) && Execute(c, longer) == Next(Execute(c, trace), ev)
    ensures Safe(Execute(c, trace), ev) && Execute(c, longer) == Apply(Execute(c, trace), ev)
    ensures longer == trace + [ev]
  {
    hide Inv, Guard;
    ExtendTrace(c, trace, ev);
    NextIsSafe(Execute(c, trace), ev);
    longer := trace + [ev];
  }

  /** Block `i` is downloaded and all that is queued. */
  lemma OneBlock(c: Config, i: nat) returns (trace: seq<Event>)
    requires c.Valid() && StartOf(i, c.blockSize) < c.Size()
    ensures Feasible(c, trace)
    ensures var s := Execute(c, trace);
      && s.queue == [0] && s.entries == [Entry(0, false)] && |s.blocks| == 1 && s.next == i + 1
      && s.blocks[0].notification == Closed && s.blocks[0].status == Downloaded && s.blocks[0].refCount == 0
      && s.pool == Pool(c.blockSize, c.maxPrefetch, c.reserved, 1, [], 1)
      && s.inflight == multiset{} && s.leaked == multiset{}
  {
    hide Inv, Feasible, Execute, Next, StartOf;
    InsideData(i, c.Size(), c.blockSize);
    var start := StartOf(i, c.blockSize);
    trace := Start(c);
    trace := More(c, trace, Restart(i));
    trace := More(c, trace, Schedule(true, true));
    trace := More(c, trace, Download(0, c.Limit(start) - start));
    trace := More(c, trace, Notify(0, true));
    trace := More(c, trace, Await(0));
  }

  /** The read needs more than the block that covers `offset`. */
  predicate Crosses(c: Config, offset: nat, length: nat)
    requires c.Valid()
  {
    StartOf(offset / c.blockSize + 1, c.blockSize) < Min(offset + length, c.Size())
  }

  lemma CrossedBlocks(c: Config, offset: nat, length: nat)
    requires c.Valid() && Crosses(c, offset, length)
    ensures var i := offset / c.blockSize;
      StartOf(i, c.blockSize) < c.Size() && i + 1 < BlockCount(c.Size(), c.blockSize)
  {
    var i := offset / c.blockSize;
    Covering(offset, i, c.blockSize);
    InsideData(i + 1, c.Size(), c.blockSize);
  }

  lemma RefusedAfterOne(c: Config, i: nat) returns (trace: seq<Event>)
    requires c.Valid() && StartOf(i, c.blockSize) < c.Size() && i + 1 < BlockCount(c.Size(), c.blockSize)
    ensures trace != [] && trace[|trace| - 1] == Restart(i + 1) && Feasible(c, trace)
    ensures var s := Execute(c, trace);
      && s.queue == [] && s.inflight == multiset{0} && s.leaked == multiset{}
      && |s.blocks| == 1 && s.blocks[0].refCount == 1
      && s.pool == Pool(c.blockSize, c.maxPrefetch, c.reserved, 1, [], 1)
  {
    hide Inv, Feasible, Execute, Next, StartOf;
    trace := OneBlock(c, i);
    trace := More(c, trace, TakeRef);
    trace := More(c, trace, Discard);
    trace := More(c, trace, Restart(i + 1));
  }

  /**
   * Every read that crosses a block boundary can leak: it is served from the block that
   * covers its offset, drops it, starts afresh at the next one and is refused a block, as no
   * memory can be mapped or, with at most one block reserved, no permit is left.  Then no
   * callback is outstanding, and yet the block stays referenced.
   */
  lemma CrossingReadCanLeak(c: Config, offset: nat, length: nat) returns (trace: seq<Event>)
    requires c.Valid() && Crosses(c, offset, length)
    ensures |trace| >= 2 && trace[|trace| - 2] == Restart(offset / c.blockSize + 1)
    ensures trace[|trace| - 1] == Leak(multiset{0})
    ensures Feasible(c, trace) && Feasible(c, trace[..|trace| - 1])
    ensures var s := Execute(c, trace[..|trace| - 1]);
      && s.queue == [] && s.pool.free == [] && s.inflight == multiset{0} && s.leaked == multiset{}
      && !Granted(TryGet(s.pool, true, false).0)
      && (c.reserved <= 1 ==> !Granted(TryGet(s.pool, false, true).0))
    ensures var t := Execute(c, trace);
      t.inflight == multiset{} && t.leaked == multiset{0} && |t.blocks| == 1 && t.blocks[0].refCount == 1
  {
    hide Inv, Feasible, Execute, Next, StartOf, Crosses, BlockCount;
    CrossedBlocks(c, offset, length);
    var front := RefusedAfterOne(c, offset / c.blockSize);
    trace := More(c, front, Leak(multiset{0}));
    assert trace[..|trace| - 1] == front;
  }

  // ------------------------------------------------- what a leak costs

  /** Evicted blocks with a leaked reference. */
  ghost function Stuck(s: State): set<BlockId>
    requires Inv(s)
  {
    set b | b in s.holder && s.holder[b] < |s.entries| && s.entries[s.holder[b]].wasEvicted && s.leaked[s.holder[b]] > 0
  }

  lemma StepKeepsLeaks(s: State, ev: Event, e: EntryId)
    requires Inv(s) && Guard(s, ev) && e in s.leaked
    ensures e in Next(s, ev).leaked && s.leaked[e] <= Next(s, ev).leaked[e]
  {
    hide Inv;
    NextIsSafe(s, ev);
  }

  /** An evicted block with a leaked reference stays in use for its entry. */
  lemma StepKeepsHolder(s: State, ev: Event, b: BlockId)
    requires Inv(s) && Guard(s, ev) && Safe(s, ev) && b in Stuck(s)
    ensures var t, e := Apply(s, ev), s.holder[b];
      b in t.holder && t.holder[b] == e && e < |t.entries| && t.entries[e].wasEvicted
  {
    hide Partition, Counted, Owned, Referenced, InFile, Consistent, Faithful, StartedBlock, WithChunk;
    InUseBlock(s, b);
    match ev
    case Schedule(permit, mapped) => GrantedBlock(s, permit, mapped);
    case Discard => QueuedBlock(s, 0);
    case Callback(f) => ReferencedBlock(s, f);
    case _ =>
  }

  lemma StepKeepsStuck(s: State, ev: Event, b: BlockId)
    requires Inv(s) && Guard(s, ev) && b in Stuck(s)
    ensures b in Stuck(Next(s, ev))
  {
    hide Inv, Apply, Guard, Safe;
    NextIsSafe(s, ev);
    StepKeepsLeaks(s, ev, s.holder[b]);
    StepKeepsHolder(s, ev, b);
  }

  /**
   * A leaked reference is never given back: over any run its entry stays leaked, and once
   * its block is evicted the block stays so for good.
   */
  lemma {:induction false} LeakIsForever(c: Config, trace: seq<Event>, from: nat)
    requires Feasible(c, trace) && from <= |trace| && Feasible(c, trace[..from])
    ensures var s, t := Execute(c, trace[..from]), Execute(c, trace);
      && (forall e :: e in s.leaked ==> e in t.leaked)
      && Stuck(s) <= Stuck(t)
    decreases |trace|
  {
    hide Feasible, Execute, Inv, Next, Stuck;
    if from == |trace| {
      assert trace[..from] == trace;
    } else {
      var front, ev := trace[..|trace| - 1], trace[|trace| - 1];
      LastStep(c, trace);
      assert front[..from] == trace[..from];
      LeakIsForever(c, front, from);
      var s := Execute(c, front);
      forall e | e in s.leaked ensures e in Next(s, ev).leaked { StepKeepsLeaks(s, ev, e); }
      forall b | b in Stuck(s) ensures b in Stuck(Next(s, ev)) { StepKeepsStuck(s, ev, b); }
    }
  }

  lemma {:induction false} SubsetSize(a: set<BlockId>, b: set<BlockId>)
    requires a <= b
    ensures |a| <= |b|
  {
    if a != {} {
      var x :| x in a;
      SubsetSize(a - {x}, b - {x});
    }
  }

  lemma ReferenceIsOut(s: State, b: BlockId)
    requires Inv(s) && b in Stuck(s)
    ensures b !in s.pool.free && b !in s.tasks
  {
    InUseBlock(s, b);
    SettledByReference(s.cfg, s.blocks[b]);
  }

  /** Stuck blocks are evicted ones, so the queue and the free list have to do with the rest of the limit. */
  lemma StuckBlocksAreLost(s: State)
    requires Inv(s)
    ensures |s.queue| + |s.pool.free| + |Stuck(s)| <= s.cfg.maxPrefetch
    ensures forall b :: b in Stuck(s) ==> b !in s.pool.free && b !in s.tasks
  {
    hide Owned, Referenced, InFile, Faithful;
    BlocksAccounted(s);
    assert Stuck(s) <= EvictedBlocks(s);
    SubsetSize(Stuck(s), EvictedBlocks(s));
    forall b | b in Stuck(s) ensures b !in s.pool.free && b !in s.tasks {
      InUseBlock(s, b);
      ReferenceIsOut(s, b);
    }
  }

  /** From a state on, the queue never again has room for the blocks that are stuck in it. */
  lemma LeakShrinksQueue(c: Config, trace: seq<Event>, from: nat)
    requires Feasible(c, trace) && from <= |trace| && Feasible(c, trace[..from])
    ensures |Execute(c, trace).queue| + |Stuck(Execute(c, trace[..from]))| <= c.maxPrefetch
  {
    hide Feasible, Execute, Inv, Stuck;
    LeakIsForever(c, trace, from);
    StuckBlocksAreLost(Execute(c, trace));
    SubsetSize(Stuck(Execute(c, trace[..from])), Stuck(Execute(c, trace)));
  }

  // ------------------------------------------------- the window over runs

  /** A restart elsewhere while blocks are queued. */
  predicate Jumps(s: State, ev: Event) {
    ev.Restart? && s.queue != [] && ev.index != s.next
  }

  ghost predicate NeverJumps(c: Config, trace: seq<Event>) {
    forall k :: 0 <= k < |trace| ==> Feasible(c, trace[..k]) && !Jumps(Execute(c, trace[..k]), trace[k])
  }

  lemma EmptyIsWindowed(c: Config)
    requires c.Valid()
    ensures Windowed(Init(c))
  {
  }

  lemma NextKeepsWindow(s: State, ev: Event)
    requires Inv(s) && Windowed(s) && Guard(s, ev)
    ensures Windowed(Next(s, ev)) <==> !Jumps(s, ev)
  {
    hide Inv, Windowed;
    NextIsSafe(s, ev);
    StepKeepsWindow(s, ev);
  }

  /** In a run that never restarts elsewhere under a queue, the queue is always a contiguous window. */
  lemma {:induction false} WindowStays(c: Config, trace: seq<Event>)
    requires Feasible(c, trace) && NeverJumps(c, trace)
    ensures Windowed(Execute(c, trace))
    decreases |trace|
  {
    hide Feasible, Execute, Inv, Windowed, Jumps;
    if trace == [] {
      ValidConfig(c, trace);
      EmptyTrace(c);
      EmptyIsWindowed(c);
    } else {
      var front, ev := trace[..|trace| - 1], trace[|trace| - 1];
      LastStep(c, trace);
      assert forall k :: 0 <= k < |front| ==> front[..k] == trace[..k];
      WindowStays(c, front);
      NextKeepsWindow(Execute(c, front), ev);
    }
  }

  /**
   * With a negative threshold a sequential read resets the reader whatever is queued: a run
   * after which the window is not contiguous.
   */
  lemma ResetUnderQueueBreaksWindow(c: Config) returns (trace: seq<Event>)
    requires c.Valid() && c.Size() > 0
    ensures trace != [] && trace[|trace| - 1] == Restart(0)
    ensures Feasible(c, trace) && !Windowed(Execute(c, trace))
  {
    hide Feasible, Execute, Next, Inv, StartOf;
    Covering(0, 0, c.blockSize);
    trace := OneBlock(c, 0);
    trace := More(c, trace, Restart(0));
  }
}
