// internal/bufferedwrites: when an append can run out of memory with part of its data in.
module UploadCuts {
  import opened Bytes
  import opened Blocks
  import opened BlockPools
  import opened UploadPipeline
  import opened UploadProofs
  import opened UploadRuns

  /** Bytes left in the block being filled. */
  function Room(s: State): nat {
    if s.current.Filling? && s.current.block < |s.blocks|
    then Max(s.cfg.blockSize - s.blocks[s.current.block].Size(), 0) else 0
  }

  /** Bytes that can be appended without another block being mapped or returned. */
  function Spare(s: State): nat {
    Room(s) + StartOf(|s.pool.free|, s.cfg.blockSize)
  }

  /** Bytes that are in before another block has to be mapped: what is spare, or the first block. */
  function Need(s: State): nat {
    if Spare(s) == 0 then s.cfg.blockSize else Spare(s)
  }

  /** The append of `n` bytes reaches past that, and the pool may then map another block. */
  predicate Cuttable(s: State, n: nat) {
    n > Need(s) && Max(s.pool.total, 1) < s.pool.maxBlocks
  }

  /** The next block has to be mapped. */
  predicate MustMap(s: State) {
    s.current.NoBlock? && s.pool.free == [] && s.pool.total < s.pool.maxBlocks
  }

  // ------------------------------------------------- an append uses up what is spare

  /** Between `s` and `t` the producer appended `n` bytes, and the uploader at most gave blocks back. */
  predicate Used(s: State, t: State, n: nat) {
    && t.cfg == s.cfg && t.pool.maxBlocks == s.pool.maxBlocks && t.pool.total >= s.pool.total
    && if n == 0 then Need(t) >= Need(s) && Spare(t) >= Spare(s)
       else Spare(t) + n >= Need(s) && t.pool.total >= 1
  }

  lemma UsedNothing(s: State)
    ensures Used(s, s, 0)
  {
  }

  lemma UsedTwice(r: State, s: State, t: State, m: nat, n: nat)
    requires Used(r, s, m) && Used(s, t, n)
    ensures Used(r, t, m + n)
  {
    hide Spare;
  }

  /** Running out of memory after `w` of `n` bytes takes an append that reaches past what is spare. */
  lemma CutReachesPast(s: State, t: State, w: nat, n: nat)
    requires Used(s, t, w) && MustMap(t) && 0 < w < n
    ensures Cuttable(s, n)
  {
  }

  lemma ReturnUsesNothing(s: State, t: State, b: BlockId)
    requires t == s.(hand := t.hand, pool := s.pool.(free := s.pool.free + [b]))
    ensures Used(s, t, 0)
  {
  }

  lemma UploaderUsesNothing(s: State, t: State)
    requires t == s.(hand := t.hand, channel := t.channel, wg := t.wg, writer := t.writer, failed := t.failed)
    ensures Used(s, t, 0)
  {
  }

  lemma OnePlace(s: State)
    requires Inv(s) && s.current.Filling?
    ensures s.pool.total >= 1
  {
    hide Sized, Streamed;
    PlaceSizes(s);
  }

  /** A block that is granted makes up for what is needed. */
  lemma GrantUses(s: State, permit: bool, mapped: bool)
    requires Inv(s) && s.current.NoBlock? && Granted(TryGet(s.pool, permit, mapped).0)
    ensures var t := Next(s, GetBlock(permit, mapped));
      && t.cfg == s.cfg && t.pool.maxBlocks == s.pool.maxBlocks && t.pool.total >= Max(s.pool.total, 1)
      && Spare(t) >= Need(s)
  {
    hide Counted, Sized, Streamed;
    NextIsSafe(s, GetBlock(permit, mapped));
    OnePlace(Next(s, GetBlock(permit, mapped)));
  }

  lemma FillUses(s: State, data: seq<byte>)
    requires Inv(s) && Guard(s, Fill(data))
    ensures var t := Next(s, Fill(data));
      t.cfg == s.cfg && t.pool == s.pool && Room(t) + |data| == Room(s) && Spare(t) + |data| == Spare(s)
  {
    hide Counted, Streamed;
    NextIsSafe(s, Fill(data));
  }

  lemma SendUses(s: State)
    requires Inv(s) && s.current.Filling? && Room(s) == 0
    ensures var t := Next(s, Send); t.cfg == s.cfg && t.pool == s.pool && Spare(t) == Spare(s)
  {
    hide Counted, Sized, Streamed;
    NextIsSafe(s, Send);
  }

  // ------------------------------------------------- and every append that reaches past it can be cut

  lemma BusyUploader(s: State)
    requires Inv(s) && s.current.NoBlock? && s.pool.free == [] && s.pool.total >= 1
    ensures s.channel != [] || s.hand.Taken? || s.hand.Copied?
  {
    hide Streamed, Sized;
    PlaceSizes(s);
  }

  /** The uploader gives one block back. */
  lemma {:induction false} GiveBackOne(c: Config, origin: seq<Event>, trace: seq<Event>) returns (longer: seq<Event>)
    requires Feasible(c, trace) && Extends(origin, trace)
    requires var s := Execute(c, trace); s.current.NoBlock? && s.pool.free == [] && s.pool.total >= 1
    ensures Feasible(c, longer) && Extends(origin, longer)
    ensures var s, t := Execute(c, trace), Execute(c, longer);
      && t.current.NoBlock? && |t.pool.free| == 1 && t.stream == s.stream
      && t.pool.total == s.pool.total && t.pool.maxBlocks == s.pool.maxBlocks
    decreases Rank(Execute(c, trace).channel, Execute(c, trace).hand)
  {
    hide Feasible, Execute, Extends, Counted, Sized, Streamed, Places, Pending;
    var s := Execute(c, trace);
    BusyUploader(s);
    longer := More(c, origin, trace, UploaderStep(s, false));
    if !s.hand.Copied? {
      longer := GiveBackOne(c, origin, longer);
    }
  }

  lemma RoomFits(s: State)
    requires Inv(s) && s.current.Filling?
    ensures s.blocks[s.current.block].Size() + Room(s) <= s.cfg.blockSize
  {
    hide Counted, Streamed;
  }

  /** One round of filling up: the block is filled and sent on, and a free one takes its place. */
  lemma SpareRound(s: State, data: seq<byte>)
    requires Inv(s) && s.current.Filling? && Spare(s) == |data|
    ensures Room(s) <= |data| && Guard(s, Fill(data[..Room(s)]))
    ensures var t := Next(s, Fill(data[..Room(s)]));
      && Guard(t, Send)
      && var u := Next(t, Send);
         && u.current.NoBlock? && u.pool == s.pool && u.stream == s.stream + data[..Room(s)]
         && (s.pool.free == [] ==> Room(s) == |data|)
         && (s.pool.free != [] ==>
               && Guard(u, GetBlock(true, true))
               && var v := Next(u, GetBlock(true, true));
                  && v.current.Filling? && |v.pool.free| == |s.pool.free| - 1 && v.stream == u.stream
                  && v.pool.total == s.pool.total && v.pool.maxBlocks == s.pool.maxBlocks
                  && Spare(v) == |data| - Room(s))
  {
    hide Counted, Streamed, Places, Pending;
    RoomFits(s);
    FillUses(s, data[..Room(s)]);
    var t := Next(s, Fill(data[..Room(s)]));
    NextIsSafe(t, Send);
    var u := Next(t, Send);
    if s.pool.free != [] { NextIsSafe(u, GetBlock(true, true)); }
  }

  /** The producer fills its block and every free one. */
  lemma {:induction false} UseSpare(c: Config, origin: seq<Event>, trace: seq<Event>, data: seq<byte>)
    returns (longer: seq<Event>)
    requires Feasible(c, trace) && Extends(origin, trace)
    requires var s := Execute(c, trace); s.current.Filling? && Spare(s) == |data|
    ensures Feasible(c, longer) && Extends(origin, longer)
    ensures var s, t := Execute(c, trace), Execute(c, longer);
      && t.current.NoBlock? && t.pool.free == [] && t.stream == s.stream + data
      && t.pool.total == s.pool.total && t.pool.maxBlocks == s.pool.maxBlocks
    decreases |Execute(c, trace).pool.free|
  {
    hide Feasible, Execute, Extends, Inv, Apply, Spare, Guard, Safe, Room;
    var s := Execute(c, trace);
    SpareRound(s, data);
    longer := More(c, origin, trace, Fill(data[..Room(s)]));
    longer := More(c, origin, longer, Send);
    assert data == data[..Room(s)] + data[Room(s)..];
    if s.pool.free != [] {
      longer := More(c, origin, longer, GetBlock(true, true));
      longer := UseSpare(c, origin, longer, data[Room(s)..]);
    }
  }

  lemma FreeIsCounted(s: State)
    requires Inv(s) && s.pool.free != []
    ensures s.pool.total >= 1
  {
    hide Sized, Streamed;
    PlaceSizes(s);
  }

  /** The producer gets a block without more than one being mapped. */
  lemma FirstBlock(c: Config, trace: seq<Event>) returns (longer: seq<Event>)
    requires Feasible(c, trace) && Execute(c, trace).current.NoBlock?
    ensures Feasible(c, longer) && Extends(trace, longer)
    ensures var s, t := Execute(c, trace), Execute(c, longer);
      && t.current.Filling? && t.stream == s.stream && Spare(t) == Need(s)
      && t.pool.total == Max(s.pool.total, 1) && t.pool.maxBlocks == s.pool.maxBlocks
  {
    hide Feasible, Execute, Extends, Counted, Sized, Streamed, Places, Pending;
    ExtendsItself(trace);
    longer := trace;
    var s := Execute(c, trace);
    ReservesOne(s);
    if s.pool.free == [] && s.pool.total >= 1 {
      longer := GiveBackOne(c, trace, trace);
    } else if s.pool.free != [] {
      FreeIsCounted(s);
    }
    longer := More(c, trace, longer, GetBlock(true, true));
  }

  lemma BlockSizeIsPositive(s: State)
    requires Inv(s)
    ensures s.cfg.blockSize > 0
  {
  }

  /**
   * An append that reaches past what is spare can be cut short: there is a run in which its
   * first `count` bytes are in and another block has to be mapped, which may fail.
   */
  lemma AppendCanBeCut(c: Config, trace: seq<Event>, data: seq<byte>) returns (cut: seq<Event>, count: nat)
    requires Feasible(c, trace) && Cuttable(Execute(c, trace), |data|)
    requires Execute(c, trace).current.Filling? ==> Room(Execute(c, trace)) > 0
    ensures 0 < count < |data| && Feasible(c, cut) && Extends(trace, cut)
    ensures var t := Execute(c, cut);
      && t.stream == Execute(c, trace).stream + data[..count]
      && MustMap(t) && TryGet(t.pool, true, false).0 == MapFailed
  {
    hide Feasible, Execute, Extends, Inv;
    var s := Execute(c, trace);
    BlockSizeIsPositive(s);
    count := Need(s);
    if s.current.Filling? {
      ExtendsItself(trace);
      OnePlace(s);
      cut := UseSpare(c, trace, trace, data[..count]);
    } else {
      var first := FirstBlock(c, trace);
      cut := UseSpare(c, trace, first, data[..count]);
    }
  }
}
