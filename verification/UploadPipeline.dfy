// internal/bufferedwrites: the producer that fills blocks and the one goroutine that
// uploads them, as a state machine.  A trace is one interleaving of the two.
module UploadPipeline {
  import opened Bytes
  import opened Blocks
  import opened BlockPools

  datatype Config = Config(blockSize: nat, maxBlocks: nat) {
    predicate Valid() {
      blockSize > 0 && maxBlocks > 0
    }
  }

  datatype Current = NoBlock | Filling(block: BlockId)

  /** What the uploader is at: between Released and Idle it still has to signal the wait group. */
  datatype Hand = Idle | Taken(block: BlockId) | Copied(block: BlockId) | Released

  /**
   * `wg` is the wait group's counter, `writer` what the GCS writer has accepted,
   * `failed` the sticky upload error, and `stream` all that the producer has appended.
   */
  datatype State =
    State(cfg: Config, current: Current, blocks: seq<MemoryBlock>, pool: Pool,
          channel: seq<BlockId>, hand: Hand, wg: int, writer: seq<byte>, failed: bool,
          stream: seq<byte>)

  function Init(c: Config): State {
    State(c, NoBlock, [], NewPool(c.blockSize, c.maxBlocks, 1), [], Idle, 0, [], false, [])
  }

  datatype Event =
    | GetBlock(permit: bool, mapped: bool)           // blockPool.Get, once a block is available
    | Fill(data: seq<byte>)                          // current.Write
    | Send                                           // Upload: the block goes into the channel
    | Take                                           // uploader: receive from the channel
    | Copy(count: nat, ok: bool)                     // uploader: uploadBlock
    | Return                                         // uploader: blockPool.Release
    | Done                                           // uploader: wg.Done
    | FinalizeFails                                  // FinalizeUpload or FlushPendingWrites fails
    | Clear                                          // ClearFreeBlockChannel

  function CurrentBlocks(c: Current): seq<BlockId> {
    if c.Filling? then [c.block] else []
  }

  function HandBlocks(h: Hand): seq<BlockId> {
    if h.Taken? || h.Copied? then [h.block] else []
  }

  /** Every place a block can be in, with the blocks that are there. */
  function Places(free: seq<BlockId>, c: Current, channel: seq<BlockId>, h: Hand): multiset<BlockId> {
    multiset(free) + multiset(CurrentBlocks(c)) + multiset(channel) + multiset(HandBlocks(h))
  }

  function PlacesOf(s: State): multiset<BlockId> {
    Places(s.pool.free, s.current, s.channel, s.hand)
  }

  predicate Known(ids: seq<BlockId>, count: nat) {
    forall i :: 0 <= i < |ids| ==> ids[i] < count
  }

  /** The bytes of a row of blocks, in order. */
  function BytesOf(blocks: seq<MemoryBlock>, ids: seq<BlockId>): seq<byte>
    requires Known(ids, |blocks|)
  {
    if ids == [] then [] else blocks[ids[0]].buffer + BytesOf(blocks, ids[1..])
  }

  /** The blocks appended but not yet copied, oldest first. */
  function Pending(h: Hand, channel: seq<BlockId>, c: Current): seq<BlockId> {
    (if h.Taken? then [h.block] else []) + channel + CurrentBlocks(c)
  }

  function PendingOf(s: State): seq<BlockId> {
    Pending(s.hand, s.channel, s.current)
  }

  // ---------------------------------------------------------------- the invariant

  predicate WellFormed(s: State) {
    && s.cfg.Valid()
    && |s.blocks| == s.pool.created
    && Known(s.pool.free, |s.blocks|) && Known(s.channel, |s.blocks|)
    && (s.current.Filling? ==> s.current.block < |s.blocks|)
    && (s.hand.Taken? || s.hand.Copied? ==> s.hand.block < |s.blocks|)
  }

  /** Every block is in one place, and the pool counts them all. */
  ghost predicate Counted(c: Config, pool: Pool, places: multiset<BlockId>, wg: int, channel: seq<BlockId>, h: Hand) {
    && pool.blockSize == c.blockSize && pool.maxBlocks == c.maxBlocks && pool.reserved == 1
    && pool.total == |places| <= pool.maxBlocks
    && (forall b :: places[b] <= 1)
    && wg == |channel| + (if h.Idle? then 0 else 1)
  }

  ghost predicate Sized(c: Config, blocks: seq<MemoryBlock>) {
    forall i :: 0 <= i < |blocks| ==> blocks[i].Valid() && blocks[i].capacity == c.blockSize
  }

  /** Without an error nothing is lost: what is not yet copied is still in the row of pending blocks. */
  ghost predicate Streamed(blocks: seq<MemoryBlock>, row: seq<BlockId>, writer: seq<byte>, failed: bool,
                           stream: seq<byte>)
  {
    && Known(row, |blocks|)
    && if failed then writer <= stream else stream == writer + BytesOf(blocks, row)
  }

  ghost predicate Inv(s: State) {
    && WellFormed(s)
    && Counted(s.cfg, s.pool, PlacesOf(s), s.wg, s.channel, s.hand)
    && Sized(s.cfg, s.blocks)
    && Streamed(s.blocks, PendingOf(s), s.writer, s.failed, s.stream)
  }

  // ---------------------------------------------------------------- the steps

  /** What the code checks or waits for before it takes the step. */
  predicate Guard(s: State, ev: Event)
    requires WellFormed(s)
  {
    match ev
    case GetBlock(permit, mapped) => s.current.NoBlock? && Granted(TryGet(s.pool, permit, mapped).0)
    case Fill(data) =>
      s.current.Filling? && s.blocks[s.current.block].Size() + |data| <= s.cfg.blockSize
    case Send => s.current.Filling?
    case Take => s.hand.Idle? && s.channel != []
    case Copy(count, ok) =>
      && s.hand.Taken?
      && (!s.failed ==>
            var size := s.blocks[s.hand.block].Size();
            count <= size && (ok ==> count == size))
    case Return => s.hand.Copied?
    case Done => s.hand.Released?
    case FinalizeFails => s.wg == 0
    case Clear => true
  }

  /** The conditions whose failure is a panic, an error or a blocked send in the source. */
  predicate Safe(s: State, ev: Event)
    requires WellFormed(s) && Guard(s, ev)
  {
    match ev
    case Fill(data) => s.blocks[s.current.block].Write(data).Ok?
    case Send => |s.channel| < s.cfg.maxBlocks
    case Return => |s.pool.free| < s.pool.maxBlocks
    case Done => s.wg > 0
    case Clear => ValidPool(s.pool)
    case _ => true
  }

  function Apply(s: State, ev: Event): State
    requires WellFormed(s) && Guard(s, ev) && Safe(s, ev)
  {
    match ev
    case GetBlock(permit, mapped) =>
      var (g, pool) := TryGet(s.pool, permit, mapped);
      s.(current := Filling(g.id), pool := pool,
         blocks := if g.Created? then s.blocks + [NewMemoryBlock(s.cfg.blockSize)]
                   else s.blocks[g.id := s.blocks[g.id].Reuse()])
    case Fill(data) =>
      var b := s.current.block;
      s.(blocks := s.blocks[b := s.blocks[b].Write(data).value], stream := s.stream + data)
    case Send => s.(current := NoBlock, channel := s.channel + [s.current.block], wg := s.wg + 1)
    case Take => s.(hand := Taken(s.channel[0]), channel := s.channel[1..])
    case Copy(count, ok) =>
      if s.failed then s.(hand := Copied(s.hand.block))
      else s.(hand := Copied(s.hand.block), failed := !ok,
              writer := s.writer + s.blocks[s.hand.block].buffer[..count])
    case Return => s.(hand := Released, pool := Release(s.pool, s.hand.block))
    case Done => s.(hand := Idle, wg := s.wg - 1)
    case FinalizeFails => s.(failed := true)
    case Clear => s.(pool := Emptied(s.pool))
  }
}
