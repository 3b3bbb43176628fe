// internal/bufferedread: the reader, its download tasks and its callbacks as one
// state machine.  An event is one change made under the reader's mutex or one
// action of a download task, so a trace is one interleaving of all of them.
module ReaderState {
  import opened Bytes
  import opened Blocks
  import opened BlockPools

  type EntryId = nat

  /** An element of the prefetch queue; `wasEvicted` is set in place later. */
  datatype Entry = Entry(block: BlockId, wasEvicted: bool)

  datatype Config = Config(content: seq<byte>, blockSize: nat, maxPrefetch: nat, reserved: nat) {
    predicate Valid() {
      blockSize > 0 && maxPrefetch > 0 && reserved <= maxPrefetch
    }

    function Size(): nat {
      |content|
    }

    /** End of the byte range that the download of the block at `start` asks for. */
    function Limit(start: int): int {
      Min(start + blockSize, |content|)
    }
  }

  /**
   * `tasks` are the blocks whose download has not notified yet.  `holder` gives, for a
   * block in use, the entry it was last scheduled for.  `inflight` are the references
   * handed out whose callback has not run, `leaked` those taken by a read that fell
   * back before it could return its callback.
   */
  datatype State =
    State(cfg: Config, next: int, queue: seq<EntryId>, entries: seq<Entry>,
          blocks: seq<PrefetchBlock>, pool: Pool, tasks: set<BlockId>,
          holder: map<BlockId, EntryId>, inflight: multiset<EntryId>, leaked: multiset<EntryId>)

  function Init(c: Config): State {
    State(c, 0, [], [], [], NewPool(c.blockSize, c.maxPrefetch, c.reserved),
          {}, map[], multiset{}, multiset{})
  }

  datatype Event =
    | Restart(index: int)                            // freshStart, resetBufferedReaderState
    | Schedule(permit: bool, mapped: bool)           // scheduleNextBlock
    | Await(entry: EntryId)                          // a wait on a queued block that succeeds
    | Discard                                        // Pop, then releaseOrMarkEvicted
    | TakeRef                                        // ReadAt returns a slice of the head block
    | Callback(entry: EntryId)                       // one entry of a callback
    | Leak(refs: multiset<EntryId>)                  // a fallback after references were taken
    | Download(block: BlockId, count: nat)           // a task copies `count` more bytes
    | Notify(block: BlockId, ok: bool)               // a task ends

  // ---------------------------------------------------------------- the invariant

  /** The entry is the one its block is in use for. */
  predicate Live(entries: seq<Entry>, holder: map<BlockId, EntryId>, e: EntryId) {
    e < |entries| && entries[e].block in holder && holder[entries[e].block] == e
  }

  /** Identities refer to existing entries and blocks. */
  predicate WellFormed(s: State) {
    && s.cfg.Valid()
    && (forall i :: 0 <= i < |s.queue| ==> s.queue[i] < |s.entries|)
    && (forall i :: 0 <= i < |s.entries| ==> s.entries[i].block < |s.blocks|)
    && (forall i :: 0 <= i < |s.pool.free| ==> s.pool.free[i] < |s.blocks|)
    && (forall b <- s.tasks :: b < |s.blocks|)
    && |s.blocks| == s.pool.created
  }

  function BlockOf(s: State, e: EntryId): PrefetchBlock
    requires WellFormed(s) && e < |s.entries|
  {
    s.blocks[s.entries[e].block]
  }

  function Head(s: State): PrefetchBlock
    requires WellFormed(s) && s.queue != []
  {
    BlockOf(s, s.queue[0])
  }

  ghost predicate Consistent(entries: seq<Entry>, holder: map<BlockId, EntryId>) {
    forall b <- holder :: holder[b] < |entries| && entries[holder[b]].block == b
  }

  /** A block is either free or in use for one entry, which is queued or evicted. */
  ghost predicate Partition(queue: seq<EntryId>, entries: seq<Entry>, holder: map<BlockId, EntryId>,
                            free: seq<BlockId>, count: nat)
  {
    && (forall i, j :: 0 <= i < j < |queue| ==> queue[i] != queue[j])
    && (forall i, j :: 0 <= i < j < |free| ==> free[i] != free[j])
    && (forall i :: 0 <= i < |queue| ==> Live(entries, holder, queue[i]))
    && Consistent(entries, holder)
    && (forall b <- holder :: b < count)
    && (forall b: BlockId :: b < count ==> (b in free <==> b !in holder))
    && (forall b <- holder :: holder[b] in queue <==> !entries[holder[b]].wasEvicted)
  }

  ghost predicate Counted(c: Config, queue: seq<EntryId>, holder: map<BlockId, EntryId>, pool: Pool) {
    && pool.blockSize == c.blockSize
    && pool.maxBlocks == c.maxPrefetch
    && pool.reserved == c.reserved
    && pool.total == |pool.free| + |holder|
    && pool.total <= pool.maxBlocks
    && pool.created == pool.total
  }

  /** Reference counts are exact; only live entries, and all evicted ones, are referenced. */
  ghost predicate Referenced(entries: seq<Entry>, holder: map<BlockId, EntryId>, blocks: seq<PrefetchBlock>,
                             inflight: multiset<EntryId>, leaked: multiset<EntryId>)
  {
    && (forall e <- inflight :: Live(entries, holder, e))
    && (forall e <- leaked :: Live(entries, holder, e))
    && (forall b <- holder ::
          && b < |blocks| && holder[b] < |entries|
          && blocks[b].refCount == inflight[holder[b]] + leaked[holder[b]]
          && (entries[holder[b]].wasEvicted ==> blocks[b].refCount > 0))
  }

  /** A block in use holds a prefix of its part of the object, all of it once downloaded. */
  ghost predicate Faithful(c: Config, b: PrefetchBlock) {
    && c.Valid() && 0 <= b.absStartOff < c.Size()
    && b.absStartOff == StartOf(b.absStartOff / c.blockSize, c.blockSize)
    && b.mem.Valid() && b.mem.capacity == c.blockSize
    && b.absStartOff + b.mem.Size() <= c.Limit(b.absStartOff)
    && b.mem.buffer == c.content[b.absStartOff .. b.absStartOff + b.mem.Size()]
    && (b.status == InProgress <==> b.notification != Closed)
    && b.notification != Full(InProgress)
    && (b.Outcome() == Downloaded ==> b.absStartOff + b.mem.Size() == c.Limit(b.absStartOff))
    && (b.refCount > 0 ==> b.status == Downloaded)
  }

  /** A block in use belongs to its download task exactly until that notifies. */
  ghost predicate Owned(c: Config, holder: map<BlockId, EntryId>, blocks: seq<PrefetchBlock>,
                        tasks: set<BlockId>)
  {
    && (forall b <- tasks :: b in holder)
    && (forall b <- holder ::
          b < |blocks| && Faithful(c, blocks[b]) && (b in tasks <==> !blocks[b].Settled()))
    && (forall i :: 0 <= i < |blocks| ==> blocks[i].mem.capacity == c.blockSize)
  }

  ghost predicate InFile(c: Config, next: int) {
    c.Valid() && 0 <= next <= BlockCount(c.Size(), c.blockSize)
  }

  /** The queue is a contiguous window of the object that ends before block `next`. */
  ghost predicate Window(c: Config, next: int, queue: seq<EntryId>, entries: seq<Entry>,
                         blocks: seq<PrefetchBlock>)
  {
    && c.Valid()
    && |queue| <= next <= BlockCount(c.Size(), c.blockSize)
    && (forall i :: 0 <= i < |queue| ==>
          && queue[i] < |entries| && entries[queue[i]].block < |blocks|
          && blocks[entries[queue[i]].block].absStartOff == StartOf(next - |queue| + i, c.blockSize))
  }

  ghost predicate Inv(s: State) {
    && WellFormed(s)
    && Partition(s.queue, s.entries, s.holder, s.pool.free, |s.blocks|)
    && Counted(s.cfg, s.queue, s.holder, s.pool)
    && Referenced(s.entries, s.holder, s.blocks, s.inflight, s.leaked)
    && Owned(s.cfg, s.holder, s.blocks, s.tasks)
    && InFile(s.cfg, s.next)
  }

  /** Entry i of the queue is the i-th block of a stretch that ends where the next block starts. */
  ghost predicate Windowed(s: State) {
    Window(s.cfg, s.next, s.queue, s.entries, s.blocks)
  }

  // ---------------------------------------------------------------- the steps

  /** What the code checks or waits for before it takes the step. */
  predicate Guard(s: State, ev: Event)
    requires WellFormed(s)
  {
    match ev
    case Restart(index) => 0 <= index <= BlockCount(s.cfg.Size(), s.cfg.blockSize)
    case Schedule(permit, mapped) =>
      && 0 <= s.next < BlockCount(s.cfg.Size(), s.cfg.blockSize)
      && Granted(TryGet(s.pool, permit, mapped).0)
    case Await(e) => e in s.queue && BlockOf(s, e).Settled()
    case Discard => s.queue != [] && Head(s).Settled()
    case TakeRef =>
      && s.queue != []
      && Head(s).notification == Closed
      && Head(s).status == Downloaded
    case Callback(e) => e in s.inflight && e < |s.entries|
    case Leak(refs) => refs <= s.inflight
    case Download(b, count) =>
      && b in s.tasks
      && s.blocks[b].absStartOff + s.blocks[b].mem.Size() + count
         <= s.cfg.Limit(s.blocks[b].absStartOff)
    case Notify(b, ok) =>
      && b in s.tasks
      && (ok ==> s.blocks[b].absStartOff + s.blocks[b].mem.Size()
                 == s.cfg.Limit(s.blocks[b].absStartOff))
  }

  /** The block that `TryGet` granted, reset and placed at the next index. */
  function StartedBlock(s: State, g: Grant): Fallible<PrefetchBlock>
    requires WellFormed(s) && Granted(g) && s.next >= 0
    requires g.Reused? ==> g.id < |s.blocks|
  {
    var blank := if g.Created? then NewPrefetchBlock(s.cfg.blockSize) else s.blocks[g.id].Reuse();
    blank.SetAbsStartOff(StartOf(s.next, s.cfg.blockSize))
  }

  function WithChunk(s: State, b: BlockId, count: nat): Fallible<MemoryBlock>
    requires b < |s.blocks| && 0 <= s.blocks[b].absStartOff
    requires s.blocks[b].absStartOff + s.blocks[b].mem.Size() + count <= s.cfg.Size()
  {
    var at := s.blocks[b].absStartOff + s.blocks[b].mem.Size();
    s.blocks[b].mem.Write(s.cfg.content[at .. at + count])
  }

  /** The conditions whose failure is a panic or an internal error in the source. */
  predicate Safe(s: State, ev: Event)
    requires WellFormed(s) && Guard(s, ev)
  {
    match ev
    case Schedule(permit, mapped) =>
      StartedBlock(s, TryGet(s.pool, permit, mapped).0).Ok?
    case Discard => |s.pool.free| < s.pool.maxBlocks
    case Callback(e) =>
      && BlockOf(s, e).refCount > 0
      && |s.pool.free| < s.pool.maxBlocks
    case Download(b, count) =>
      0 <= s.blocks[b].absStartOff && WithChunk(s, b, count).Ok?
    case Notify(b, _) => s.blocks[b].notification.Empty?
    case _ => true
  }

  /** `e` has just been popped: its block is released, or kept for the references to it. */
  function ReleaseOrMarkEvicted(s: State, e: EntryId): State
    requires e < |s.entries| && s.entries[e].block < |s.blocks|
    requires |s.pool.free| < s.pool.maxBlocks
  {
    if s.blocks[s.entries[e].block].refCount > 0
    then s.(entries := s.entries[e := s.entries[e].(wasEvicted := true)])
    else s.(pool := Release(s.pool, s.entries[e].block), holder := s.holder - {s.entries[e].block})
  }

  function Apply(s: State, ev: Event): State
    requires WellFormed(s) && Guard(s, ev) && Safe(s, ev)
  {
    match ev
    case Restart(index) => s.(next := index)
    case Schedule(permit, mapped) =>
      var (g, pool) := TryGet(s.pool, permit, mapped);
      var b := StartedBlock(s, g).value;
      s.(next := s.next + 1, pool := pool, tasks := s.tasks + {g.id},
         queue := s.queue + [|s.entries|], entries := s.entries + [Entry(g.id, false)],
         holder := s.holder[g.id := |s.entries|],
         blocks := if g.Created? then s.blocks + [b] else s.blocks[g.id := b])
    case Await(e) =>
      s.(blocks := s.blocks[s.entries[e].block := BlockOf(s, e).AwaitReady()])
    case Discard => ReleaseOrMarkEvicted(s.(queue := s.queue[1..]), s.queue[0])
    case TakeRef =>
      var e := s.queue[0];
      var b := BlockOf(s, e);
      s.(blocks := s.blocks[s.entries[e].block := b.(refCount := b.refCount + 1)],
         inflight := s.inflight + multiset{e})
    case Callback(e) =>
      var b := BlockOf(s, e);
      var t := s.(blocks := s.blocks[s.entries[e].block := b.(refCount := b.refCount - 1)],
                  inflight := s.inflight - multiset{e});
      if b.refCount == 1 && s.entries[e].wasEvicted
      then t.(pool := Release(s.pool, s.entries[e].block), holder := s.holder - {s.entries[e].block})
      else t
    case Leak(refs) => s.(inflight := s.inflight - refs, leaked := s.leaked + refs)
    case Download(b, count) =>
      s.(blocks := s.blocks[b := s.blocks[b].(mem := WithChunk(s, b, count).value)])
    case Notify(b, ok) =>
      s.(blocks := s.blocks[b := s.blocks[b].NotifyReady(if ok then Downloaded else DownloadFailed)],
         tasks := s.tasks - {b})
  }
}
