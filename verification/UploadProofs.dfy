// Every interleaving of the producer and the uploader keeps the pipeline's invariant.
module UploadProofs {
  import opened Bytes
  import opened Blocks
  import opened BlockPools
  import opened UploadPipeline

  // ------------------------------------------------- rows of blocks

  lemma {:induction false} BytesOfConcat(blocks: seq<MemoryBlock>, a: seq<BlockId>, b: seq<BlockId>)
    requires Known(a, |blocks|) && Known(b, |blocks|)
    ensures Known(a + b, |blocks|) && BytesOf(blocks, a + b) == BytesOf(blocks, a) + BytesOf(blocks, b)
  {
    if a == [] {
      assert a + b == b;
    } else {
      BytesOfConcat(blocks, a[1..], b);
      assert (a + b)[1..] == a[1..] + b;
    }
  }

  lemma BytesOfOne(blocks: seq<MemoryBlock>, b: BlockId)
    requires b < |blocks|
    ensures Known([b], |blocks|) && BytesOf(blocks, [b]) == blocks[b].buffer
  {
  }

  /** Blocks outside the row may change, and new ones may appear. */
  lemma {:induction false} BytesOfOthers(blocks: seq<MemoryBlock>, blocks': seq<MemoryBlock>, ids: seq<BlockId>)
    requires Known(ids, |blocks|) && |blocks| <= |blocks'|
    requires forall i :: 0 <= i < |ids| ==> blocks'[ids[i]] == blocks[ids[i]]
    ensures Known(ids, |blocks'|) && BytesOf(blocks', ids) == BytesOf(blocks, ids)
  {
    if ids != [] {
      BytesOfOthers(blocks, blocks', ids[1..]);
    }
  }

  // ------------------------------------------------- panics and blocked sends

  lemma PlaceSizes(s: State)
    ensures |PlacesOf(s)| == |s.pool.free| + |CurrentBlocks(s.current)| + |s.channel| + |HandBlocks(s.hand)|
  {
  }

  /**
   * No reachable step panics, and Upload never blocks on its send: a block that is being
   * sent is not in the channel, so the channel holds less than all blocks.
   */
  lemma GuardIsSafe(s: State, ev: Event)
    requires Inv(s) && Guard(s, ev)
    ensures Safe(s, ev)
  {
    PlaceSizes(s);
  }

  /** The step the uploader takes next; `ok` says whether a copy succeeds. */
  function UploaderStep(s: State, ok: bool): Event
    requires WellFormed(s)
  {
    match s.hand
    case Idle => Take
    case Taken(b) => if ok then Copy(s.blocks[b].Size(), true) else Copy(0, false)
    case Copied(_) => Return
    case Released => Done
  }

  /**
   * With no block to reuse and none to map, the uploader has a block and a step to take,
   * so a producer that waits for a block is never the last one to wait.
   */
  lemma NeverWedged(s: State, permit: bool)
    requires Inv(s) && s.current.NoBlock? && s.pool.free == [] && !CanAllocate(s.pool, permit)
    ensures s.channel != [] || s.hand.Taken? || s.hand.Copied?
    ensures Guard(s, UploaderStep(s, true))
  {
    hide Streamed, Sized;
    PlaceSizes(s);
  }

  // ------------------------------------------------- the uploader's steps

  lemma LastToThird(a: multiset<BlockId>, b: multiset<BlockId>, c: multiset<BlockId>, d: multiset<BlockId>)
    ensures a + b + c + d == a + b + (d + c) + multiset{}
  {
  }

  lemma TakeMoves(free: seq<BlockId>, c: Current, channel: seq<BlockId>)
    requires channel != []
    ensures Places(free, c, channel[1..], Taken(channel[0])) == Places(free, c, channel, Idle)
    ensures Pending(Taken(channel[0]), channel[1..], c) == Pending(Idle, channel, c)
  {
    assert channel == [channel[0]] + channel[1..];
    var f, cur := multiset(free), multiset(CurrentBlocks(c));
    assert multiset(channel) == multiset([channel[0]]) + multiset(channel[1..]);
    LastToThird(f, cur, multiset(channel[1..]), multiset([channel[0]]));
  }

  lemma LastToFirst(a: multiset<BlockId>, b: multiset<BlockId>, c: multiset<BlockId>, d: multiset<BlockId>)
    ensures a + b + c + d == a + d + b + c + multiset{}
  {
  }

  lemma FirstToSecond(a: multiset<BlockId>, b: multiset<BlockId>, c: multiset<BlockId>, d: multiset<BlockId>)
    ensures a + b + c + d == (b + a) + multiset{} + c + d + multiset{}
  {
  }

  lemma SecondToLast(a: multiset<BlockId>, b: multiset<BlockId>, c: multiset<BlockId>, d: multiset<BlockId>)
    ensures a + b + c + d == a + multiset{} + c + d + b
  {
  }

  lemma TakeKeepsInv(s: State)
    requires Inv(s) && Guard(s, Take)
    ensures Inv(Apply(s, Take))
  {
    hide Sized, Streamed, Places, Pending;
    TakeMoves(s.pool.free, s.current, s.channel);
  }

  lemma StreamAfterCopy(blocks: seq<MemoryBlock>, b: BlockId, rest: seq<BlockId>, writer: seq<byte>,
                        stream: seq<byte>, count: nat, ok: bool)
    requires Streamed(blocks, [b] + rest, writer, false, stream)
    requires b < |blocks| && count <= blocks[b].Size() && (ok ==> count == blocks[b].Size())
    ensures Streamed(blocks, rest, writer + blocks[b].buffer[..count], !ok, stream)
  {
    assert Known(rest, |blocks|) by {
      assert forall i :: 0 <= i < |rest| ==> rest[i] == ([b] + rest)[i + 1];
    }
    BytesOfConcat(blocks, [b], rest);
    BytesOfOne(blocks, b);
    var data := blocks[b].buffer;
    assert data == data[..count] + data[count..];
    assert stream == writer + data[..count] + (data[count..] + BytesOf(blocks, rest));
    if ok { assert data[count..] == []; }
  }

  lemma CopyMoves(free: seq<BlockId>, c: Current, channel: seq<BlockId>, b: BlockId)
    ensures Places(free, c, channel, Copied(b)) == Places(free, c, channel, Taken(b))
    ensures Pending(Taken(b), channel, c) == [b] + Pending(Copied(b), channel, c)
  {
  }

  lemma ShorterRow(blocks: seq<MemoryBlock>, b: BlockId, rest: seq<BlockId>, writer: seq<byte>, stream: seq<byte>)
    requires Streamed(blocks, [b] + rest, writer, true, stream)
    ensures Streamed(blocks, rest, writer, true, stream)
  {
    assert forall i :: 0 <= i < |rest| ==> rest[i] == ([b] + rest)[i + 1];
  }

  lemma CopyKeepsInv(s: State, count: nat, ok: bool)
    requires Inv(s) && Guard(s, Copy(count, ok))
    ensures Inv(Apply(s, Copy(count, ok)))
  {
    hide Sized, Streamed, Places, Pending;
    CopyMoves(s.pool.free, s.current, s.channel, s.hand.block);
    var rest := Pending(Copied(s.hand.block), s.channel, s.current);
    if s.failed {
      ShorterRow(s.blocks, s.hand.block, rest, s.writer, s.stream);
    } else {
      StreamAfterCopy(s.blocks, s.hand.block, rest, s.writer, s.stream, count, ok);
    }
  }

  lemma ReturnMoves(free: seq<BlockId>, c: Current, channel: seq<BlockId>, b: BlockId)
    ensures Places(free + [b], c, channel, Released) == Places(free, c, channel, Copied(b))
    ensures Places(free, c, channel, Released) == Places(free, c, channel, Idle)
    ensures Pending(Released, channel, c) == Pending(Copied(b), channel, c) == Pending(Idle, channel, c)
  {
    var f, cur, ch := multiset(free), multiset(CurrentBlocks(c)), multiset(channel);
    assert multiset(free + [b]) == f + multiset([b]);
    LastToFirst(f, cur, ch, multiset([b]));
  }

  lemma ReturnKeepsInv(s: State)
    requires Inv(s) && Guard(s, Return) && Safe(s, Return)
    ensures Inv(Apply(s, Return))
  {
    hide Sized, Streamed, Places, Pending;
    ReturnMoves(s.pool.free, s.current, s.channel, s.hand.block);
  }

  lemma DoneKeepsInv(s: State)
    requires Inv(s) && Guard(s, Done)
    ensures Inv(Apply(s, Done))
  {
    hide Sized, Streamed, Places, Pending;
    ReturnMoves(s.pool.free, s.current, s.channel, 0);
  }

  // ------------------------------------------------- the producer's steps

  lemma SendMoves(free: seq<BlockId>, channel: seq<BlockId>, h: Hand, b: BlockId)
    ensures Places(free, NoBlock, channel + [b], h) == Places(free, Filling(b), channel, h)
    ensures Pending(h, channel + [b], NoBlock) == Pending(h, channel, Filling(b))
  {
  }

  lemma SendKeepsInv(s: State)
    requires Inv(s) && Guard(s, Send)
    ensures Inv(Apply(s, Send))
  {
    hide Sized, Streamed, Places, Pending;
    SendMoves(s.pool.free, s.channel, s.hand, s.current.block);
  }

  lemma StreamAfterFill(blocks: seq<MemoryBlock>, front: seq<BlockId>, b: BlockId, writer: seq<byte>,
                        failed: bool, stream: seq<byte>, blk: MemoryBlock, data: seq<byte>)
    requires Streamed(blocks, front + [b], writer, failed, stream) && b < |blocks| && b !in front
    requires blk.buffer == blocks[b].buffer + data
    ensures Streamed(blocks[b := blk], front + [b], writer, failed, stream + data)
  {
    assert Known(front, |blocks|) by {
      assert forall i :: 0 <= i < |front| ==> front[i] == (front + [b])[i];
    }
    BytesOfConcat(blocks, front, [b]);
    BytesOfConcat(blocks[b := blk], front, [b]);
    BytesOfOthers(blocks, blocks[b := blk], front);
    BytesOfOne(blocks, b);
    BytesOfOne(blocks[b := blk], b);
  }

  /** The block being filled is nowhere else. */
  lemma CurrentIsAlone(s: State)
    requires Inv(s) && s.current.Filling?
    ensures s.current.block !in s.channel && s.current.block !in HandBlocks(s.hand) && s.current.block !in s.pool.free
  {
    var b := s.current.block;
    assert PlacesOf(s)[b] <= 1;
    assert multiset(CurrentBlocks(s.current))[b] == 1;
    assert b in s.channel ==> multiset(s.channel)[b] > 0;
    assert b in HandBlocks(s.hand) ==> multiset(HandBlocks(s.hand))[b] > 0;
    assert b in s.pool.free ==> multiset(s.pool.free)[b] > 0;
  }

  lemma FillKeepsInv(s: State, data: seq<byte>)
    requires Inv(s) && Guard(s, Fill(data)) && Safe(s, Fill(data))
    ensures Inv(Apply(s, Fill(data)))
  {
    hide Streamed, Counted;
    CurrentIsAlone(s);
    var b := s.current.block;
    var front := (if s.hand.Taken? then [s.hand.block] else []) + s.channel;
    assert PendingOf(s) == front + [b];
    assert b !in front;
    hide Places;
    StreamAfterFill(s.blocks, front, b, s.writer, s.failed, s.stream, s.blocks[b].Write(data).value, data);
  }

  lemma GetMoves(p: Pool, channel: seq<BlockId>, h: Hand, permit: bool, mapped: bool)
    requires Granted(TryGet(p, permit, mapped).0)
    ensures var (g, q) := TryGet(p, permit, mapped);
      Places(q.free, Filling(g.id), channel, h)
        == Places(p.free, NoBlock, channel, h) + (if g.Created? then multiset{g.id} else multiset{})
  {
    var ch, hd := multiset(channel), multiset(HandBlocks(h));
    if p.free != [] {
      assert p.free == [p.free[0]] + p.free[1..];
      assert multiset(p.free) == multiset([p.free[0]]) + multiset(p.free[1..]);
      FirstToSecond(multiset(p.free[1..]), multiset([p.free[0]]), ch, hd);
    } else {
      SecondToLast(multiset(p.free), multiset{p.created}, ch, hd);
    }
  }

  lemma GetPending(h: Hand, channel: seq<BlockId>, b: BlockId)
    ensures Pending(h, channel, Filling(b)) == Pending(h, channel, NoBlock) + [b]
  {
  }

  lemma FreeIsAlone(free: seq<BlockId>, c: Current, channel: seq<BlockId>, h: Hand, b: BlockId)
    requires b in free && Places(free, c, channel, h)[b] <= 1
    ensures b !in Pending(h, channel, c)
  {
    assert multiset(free)[b] > 0;
    assert b in channel ==> multiset(channel)[b] > 0;
    assert b in HandBlocks(h) ==> multiset(HandBlocks(h))[b] > 0;
    assert b in CurrentBlocks(c) ==> multiset(CurrentBlocks(c))[b] > 0;
  }

  lemma NewIsAlone(s: State, b: BlockId)
    requires WellFormed(s) && b == |s.blocks|
    ensures PlacesOf(s)[b] == 0 && b !in PendingOf(s)
  {
    assert b !in s.channel && b !in s.pool.free && b !in HandBlocks(s.hand) && b !in CurrentBlocks(s.current);
  }

  /** The granted block is nowhere in the pipeline. */
  lemma GrantedIsAlone(s: State, permit: bool, mapped: bool)
    requires Inv(s) && Guard(s, GetBlock(permit, mapped))
    ensures var g := TryGet(s.pool, permit, mapped).0;
      && g.id !in PendingOf(s)
      && (if g.Created? then g.id == |s.blocks| && PlacesOf(s)[g.id] == 0 else g.id < |s.blocks|)
  {
    hide Streamed, Sized, Places, Pending;
    var g := TryGet(s.pool, permit, mapped).0;
    if g.Reused? {
      FreeIsAlone(s.pool.free, s.current, s.channel, s.hand, g.id);
    } else {
      NewIsAlone(s, g.id);
    }
  }

  lemma StreamAfterGet(blocks: seq<MemoryBlock>, row: seq<BlockId>, b: BlockId, blocks': seq<MemoryBlock>,
                       writer: seq<byte>, failed: bool, stream: seq<byte>)
    requires Streamed(blocks, row, writer, failed, stream) && |blocks| <= |blocks'| && b < |blocks'|
    requires b !in row && forall i :: 0 <= i < |blocks| && i != b ==> blocks'[i] == blocks[i]
    requires blocks'[b].buffer == []
    ensures Streamed(blocks', row + [b], writer, failed, stream)
  {
    BytesOfOthers(blocks, blocks', row);
    BytesOfConcat(blocks', row, [b]);
    BytesOfOne(blocks', b);
  }

  lemma GetCounts(s: State, permit: bool, mapped: bool)
    requires Inv(s) && Guard(s, GetBlock(permit, mapped))
    ensures var t := Apply(s, GetBlock(permit, mapped));
      Counted(t.cfg, t.pool, PlacesOf(t), t.wg, t.channel, t.hand)
  {
    hide Streamed, Sized, Places, Pending;
    GrantedIsAlone(s, permit, mapped);
    GetMoves(s.pool, s.channel, s.hand, permit, mapped);
  }

  lemma GetKeepsInv(s: State, permit: bool, mapped: bool)
    requires Inv(s) && Guard(s, GetBlock(permit, mapped))
    ensures Inv(Apply(s, GetBlock(permit, mapped)))
  {
    hide Streamed, Places, Pending;
    var t := Apply(s, GetBlock(permit, mapped));
    GrantedIsAlone(s, permit, mapped);
    GetMoves(s.pool, s.channel, s.hand, permit, mapped);
    GetCounts(s, permit, mapped);
    GetPending(s.hand, s.channel, t.current.block);
    hide Counted;
    StreamAfterGet(s.blocks, PendingOf(s), t.current.block, t.blocks, s.writer, s.failed, s.stream);
  }

  lemma WithoutFree(free: seq<BlockId>, c: Current, channel: seq<BlockId>, h: Hand)
    ensures Places(free, c, channel, h) == multiset(free) + Places([], c, channel, h)
  {
  }

  lemma Fewer(places: multiset<BlockId>, some: multiset<BlockId>, fewer: multiset<BlockId>)
    requires places == some + fewer && forall c :: places[c] <= 1
    ensures |fewer| == |places| - |some| && forall c :: fewer[c] <= 1
  {
    forall c ensures fewer[c] <= 1 { assert fewer[c] <= places[c]; }
  }

  lemma ClearKeepsInv(s: State)
    requires Inv(s) && Guard(s, Clear) && Safe(s, Clear)
    ensures Inv(Apply(s, Clear))
  {
    hide Sized, Streamed, Places, Pending;
    WithoutFree(s.pool.free, s.current, s.channel, s.hand);
    Fewer(PlacesOf(s), multiset(s.pool.free), PlacesOf(Apply(s, Clear)));
  }

  lemma FailKeepsInv(s: State)
    requires Inv(s)
    ensures Inv(s.(failed := true))
  {
    hide Counted, Sized, Places, Pending;
  }

  // ------------------------------------------------- every step

  lemma StepKeepsInv(s: State, ev: Event)
    requires Inv(s) && Guard(s, ev) && Safe(s, ev)
    ensures Inv(Apply(s, ev))
  {
    hide Inv;
    match ev
    case GetBlock(permit, mapped) => GetKeepsInv(s, permit, mapped);
    case Fill(data) => FillKeepsInv(s, data);
    case Send => SendKeepsInv(s);
    case Take => TakeKeepsInv(s);
    case Copy(count, ok) => CopyKeepsInv(s, count, ok);
    case Return => ReturnKeepsInv(s);
    case Done => DoneKeepsInv(s);
    case FinalizeFails => FailKeepsInv(s);
    case Clear => ClearKeepsInv(s);
  }
}
