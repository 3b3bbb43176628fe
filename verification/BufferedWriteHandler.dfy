// internal/bufferedwrites: the write handler and the uploader goroutine behind it.  The
// uploader may run between any two steps of the producer; the ghost trace records both.
module BufferedWriteHandlers {
  import opened Bytes
  import opened Blocks
  import opened BlockPools
  import opened UploadPipeline
  import opened UploadProofs
  import opened UploadRuns
  import opened UploadCuts
  import StreamFile
  import SharedPools

  datatype WriteError = NoError | UploadFailed | OutOfOrder | NoMemory | SizeMismatch

  const ZERO_CHUNK := 1024 * 1024

  /** What may go wrong outside the handler while it is called. */
  datatype Faults = Faults(memory: bool, upload: bool)

  /** The producer now has what an append needs before another block is mapped. */
  ghost predicate Supplied(s: State, t: State) {
    && t.cfg == s.cfg && t.pool.maxBlocks == s.pool.maxBlocks && t.pool.total >= Max(s.pool.total, 1)
    && Spare(t) >= Need(s)
  }

  lemma SuppliedLater(r: State, s: State, t: State)
    requires Used(r, s, 0) && Supplied(s, t)
    ensures Supplied(r, t)
  {
    hide Need, Spare;
  }

  lemma FillingIsSupplied(s: State)
    requires Inv(s) && s.current.Filling? && s.current.block < |s.blocks|
    requires s.blocks[s.current.block].Size() < s.cfg.blockSize
    ensures Supplied(s, s)
  {
    OnePlace(s);
  }

  lemma SuppliedUse(r: State, s: State, t: State, u: State, count: nat)
    requires Used(r, s, 0) && Supplied(s, t) && count > 0
    requires u.cfg == t.cfg && u.pool == t.pool && Spare(u) + count == Spare(t)
    ensures Used(r, u, count)
  {
    hide Need, Spare;
  }

  lemma CutFrom(r: State, s: State, t: State, whole: seq<byte>)
    requires Used(r, s, 0) && |t.stream| >= |s.stream| && Used(s, t, |t.stream| - |s.stream|) && MustMap(t)
    requires s.stream == r.stream && t.stream != r.stream && r.stream <= t.stream < whole
    ensures Cuttable(r, |whole| - |r.stream|)
  {
    UsedTwice(r, s, t, 0, |t.stream| - |s.stream|);
    CutReachesPast(r, t, |t.stream| - |r.stream|, |whole| - |r.stream|);
  }

  lemma GrantIs(s: State, permit: bool, mapped: bool)
    requires Inv(s) && s.current.NoBlock? && Granted(TryGet(s.pool, permit, mapped).0)
    ensures WellFormed(s) && Guard(s, GetBlock(permit, mapped))
    ensures var (g, pool) := TryGet(s.pool, permit, mapped);
      && (if g.Created? then g.id == |s.blocks| else g.id < |s.blocks|)
      && Next(s, GetBlock(permit, mapped)) ==
         s.(current := Filling(g.id), pool := pool,
            blocks := if g.Created? then s.blocks + [NewMemoryBlock(s.cfg.blockSize)]
                      else s.blocks[g.id := s.blocks[g.id].Reuse()])
  {
    hide Counted, Sized, Streamed;
  }

  /** Some of the lazy zeros were written out, and nothing else. */
  ghost predicate Filled(h: StreamFile.Handler, g: StreamFile.Handler) {
    var count := g.totalSize - h.totalSize;
    0 <= count <= Max(h.truncatedSize - h.totalSize, 0) && g == h.Append(Zeros(count))
  }

  lemma AppendNothing(h: StreamFile.Handler, missing: int)
    ensures h.Append(Zeros(0)) == h && |Zeros(0)| == 0
    ensures missing <= 0 ==> h.Append(Zeros(missing)) == h
  {
    assert h.stream + Zeros(0) == h.stream;
    if missing <= 0 { assert h.stream + Zeros(missing) == h.stream; }
  }

  lemma ZerosJoin(a: int, b: int)
    requires a >= 0
    ensures |Zeros(a)| == a && |Zeros(b)| == Max(b, 0)
    ensures b >= 0 ==> Zeros(a) + Zeros(b) == Zeros(a + b)
  {
  }

  lemma AppendTwice(h: StreamFile.Handler, i: nat, size: nat)
    ensures h.Append(Zeros(i)).Append(Zeros(size)) == h.Append(Zeros(i + size)) && |Zeros(i + size)| == i + size
  {
    ZerosJoin(i, size);
    assert h.stream + Zeros(i) + Zeros(size) == h.stream + (Zeros(i) + Zeros(size));
  }

  /** An append that ended early: a proper prefix of the data got in. */
  ghost predicate CutShort(before: seq<byte>, after: seq<byte>, data: seq<byte>) {
    before <= after < before + data
  }

  lemma CutLater(before: seq<byte>, done: seq<byte>, after: seq<byte>, data: seq<byte>, rest: seq<byte>)
    requires CutShort(before + done, after, data)
    ensures CutShort(before, after, done + data + rest)
  {
  }

  lemma FillCutShort(h: StreamFile.Handler, filled: StreamFile.Handler, g: StreamFile.Handler,
                     i: nat, size: nat, diff: nat)
    requires i + size <= diff == h.truncatedSize - h.totalSize && filled == h.Append(Zeros(i))
    requires g == filled.(stream := g.stream) && CutShort(filled.stream, g.stream, Zeros(size))
    ensures CutShort(h.stream, g.stream, Zeros(diff))
    ensures |g.stream| - g.totalSize >= |h.stream| - h.totalSize
    ensures |g.stream| - g.totalSize == |h.stream| - h.totalSize ==> Filled(h, g)
  {
    ZerosJoin(i, size);
    ZerosJoin(i + size, diff - i - size);
    CutLater(h.stream, Zeros(i), g.stream, Zeros(size), Zeros(diff - i - size));
  }

  lemma AppendCutShort(h: StreamFile.Handler, filled: StreamFile.Handler, g: StreamFile.Handler, data: seq<byte>)
    requires filled == h || filled == h.FillUp()
    requires g == filled.(stream := g.stream) && CutShort(filled.stream, g.stream, data)
    requires |h.base| + |h.stream| >= h.totalSize
    ensures h.stream <= g.stream < filled.stream + data
    ensures g.Whole() ==> h.Whole() && Filled(h, g)
  {
    if g.Whole() {
      assert g == filled;
      assert Zeros(0) == [];
    }
  }

  lemma Stuck(s: State, permit: bool)
    requires Inv(s) && s.current.NoBlock? && s.pool.free == [] && !CanAllocate(s.pool, permit)
    ensures s.channel != [] || s.hand != Idle
  {
    hide Inv;
    NeverWedged(s, permit);
  }

  /**
   * Once the pipeline has drained, clearing the pool among others on the semaphore leaves it
   * its one reserved permit, and closing it none, save those lost to failed mappings.
   */
  lemma DrainedPoolGivesBack(s: State, shared: SharedPools.Shared, i: nat)
    requires Inv(s) && s.wg == 0 && s.current.NoBlock?
    requires SharedPools.Inv(shared) && i < |shared.members|
    requires shared.members[i].pool == s.pool && !shared.members[i].closed
    ensures var t := SharedPools.Cleared(shared, i);
      && |t.members| == |shared.members| && t.members[i].pool.total == 0
      && SharedPools.Permits(t.members[i]) == 1 + shared.members[i].lost
      && SharedPools.Guard(t, SharedPools.Close(i)) && SharedPools.Safe(t, SharedPools.Close(i))
      && var u := SharedPools.Apply(t, SharedPools.Close(i));
         SharedPools.Permits(u.members[i]) == shared.members[i].lost && u.inUse == shared.inUse - Held(s.pool)
  {
    DrainedIsFree(s);
    ReservesOne(s);
    hide Inv;
    SharedPools.ClearedCounts(shared, i);
    SharedPools.ClearedPoolHolds(shared, i);
  }

  lemma PrefixIsCut(before: seq<byte>, data: seq<byte>, count: nat)
    requires count < |data|
    ensures CutShort(before, before + data[..count], data)
  {
    assert before + data == before + data[..count] + data[count..];
  }

  class BufferedWriteHandler {
    const cfg: Config
    const base: seq<byte>

    var current: Current
    var blocks: seq<MemoryBlock>
    var blockPool: Pool
    var uploadCh: seq<BlockId>
    var hand: Hand
    var wg: int
    var writer: seq<byte>
    var uploadError: bool
    var totalSize: int
    var truncatedSize: int
    var uploadClosed: bool
    ghost var stream: seq<byte>
    ghost var trace: seq<Event>

    /** Permits held of the semaphore, those lost to failed mappings, and whether the reservation was given back. */
    ghost var permits: int
    ghost var lost: nat
    ghost var returned: bool

    /** The calls made so far. */
    ghost var history: seq<StreamFile.Request>

    ghost function View(): State
      reads this
    {
      State(cfg, current, blocks, blockPool, uploadCh, hand, wg, writer, uploadError, stream)
    }

    ghost function File(): StreamFile.Handler
      reads this
    {
      StreamFile.Handler(base, stream, totalSize, truncatedSize)
    }

    ghost predicate Running()
      reads this
    {
      && Feasible(cfg, trace) && Execute(cfg, trace) == View() && Inv(View())
      && Balanced(permits, lost, returned, blockPool)
    }

    /** Bytes appended that the handler's size does not count. */
    ghost function Slack(): int
      reads this
    {
      |base| + |stream| - totalSize
    }

    /** Between appends, a block that is being filled is neither empty nor full. */
    ghost predicate Ready()
      reads this
    {
      && Running() && Slack() >= 0
      && (current.Filling? ==> current.block < |blocks| && 0 < blocks[current.block].Size() < cfg.blockSize)
    }

    /** As long as no append was cut short, the file is what the calls made of it. */
    ghost predicate Logged()
      reads this
    {
      var h := StreamFile.NewHandler(base);
      File().Whole() ==> StreamFile.Session(h, history) && File() == StreamFile.Play(h, history)
    }

    /** No accepted write was stale. */
    ghost predicate Unspoilt()
      reads this
    {
      StreamFile.NeverStale(StreamFile.NewHandler(base), history)
    }

    ghost predicate Valid()
      reads this
    {
      Ready() && Logged() && (returned ==> uploadClosed)
    }

    constructor (c: Config, existing: seq<byte>)
      requires c.Valid()
      ensures Valid() && cfg == c && base == existing && history == [] && lost == 0
      ensures View() == Init(c) && File() == StreamFile.NewHandler(existing) && !uploadClosed
    {
      hide Feasible, Execute, Inv;
      cfg, base := c, existing;
      current, blocks, blockPool := NoBlock, [], NewPool(c.blockSize, c.maxBlocks, 1);
      uploadCh, hand, wg, writer, uploadError := [], Idle, 0, [], false;
      totalSize, truncatedSize, uploadClosed := |existing|, -1, false;
      stream, trace, permits, lost, returned, history := [], [], 1, 0, false, [];
      new;
      EmptyTrace(c);
    }

    ghost method Record(ev: Event)
      requires Feasible(cfg, trace) && Guard(Execute(cfg, trace), ev)
      requires View() == Next(Execute(cfg, trace), ev) && Balanced(permits, lost, returned, blockPool)
      modifies this`trace
      ensures Running() && trace == old(trace) + [ev]
      ensures Streams(ev) ==> Extends(old(trace), trace)
    {
      hide Inv, Guard, Next, Balanced;
      ExtendTrace(cfg, trace, ev);
      trace := trace + [ev];
    }

    // ------------------------------------------------- the uploader goroutine

    /** uploadBlock: copies the block to the GCS writer, unless an upload has failed before. */
    method UploadBlock(mayFail: bool)
      requires Running() && hand.Taken?
      modifies this`hand, this`writer, this`uploadError, this`trace
      ensures Running() && hand == Copied(old(hand.block)) && Extends(old(trace), trace)
      ensures old(uploadError) ==> uploadError && writer == old(writer)
      ensures hand.block < |blocks| && old(writer) <= writer <= old(writer) + blocks[hand.block].buffer
      ensures !uploadError ==> writer == old(writer) + blocks[hand.block].buffer
      ensures !mayFail ==> uploadError == old(uploadError)
    {
      hide Feasible, Execute, Inv, Extends;
      PartsAreWellFormed(View());
      var b := hand.block;
      var copied, broken := 0, false;
      if !uploadError {
        while copied < blocks[b].Size() && !broken
          invariant 0 <= copied <= blocks[b].Size() && (broken ==> mayFail)
          decreases blocks[b].Size() - copied, !broken
        {
          var chunk: nat :| 1 <= chunk <= blocks[b].Size() - copied;
          var accepted: nat :| accepted <= chunk && (mayFail || accepted == chunk);
          var err: bool := *;
          copied, broken := copied + accepted, accepted < chunk || (mayFail && err);
        }
      }
      NextIsSafe(View(), Copy(copied, !broken));
      if !uploadError {
        writer, uploadError := writer + blocks[b].buffer[..copied], broken;
      }
      hand := Copied(b);
      Record(Copy(copied, !broken));
    }

    method TakeBlock()
      requires Running() && hand == Idle && uploadCh != []
      modifies this`uploadCh, this`hand, this`trace
      ensures Running() && hand == Taken(old(uploadCh)[0]) && uploadCh == old(uploadCh)[1..]
      ensures Extends(old(trace), trace)
    {
      hide Feasible, Execute, Inv, Extends, Balanced;
      PartsAreWellFormed(View());
      NextIsSafe(View(), Take);
      hand, uploadCh := Taken(uploadCh[0]), uploadCh[1..];
      Record(Take);
    }

    method ReturnBlock()
      requires Running() && hand.Copied?
      modifies this`hand, this`blockPool, this`trace
      ensures Running() && hand == Released && Extends(old(trace), trace) && Used(old(View()), View(), 0)
    {
      hide Feasible, Execute, Inv, Extends, Used;
      PartsAreWellFormed(View());
      NextIsSafe(View(), Return);
      var b := hand.block;
      hand, blockPool := Released, Release(blockPool, b);
      ReturnUsesNothing(old(View()), View(), b);
      Record(Return);
    }

    method SignalDone()
      requires Running() && hand.Released?
      modifies this`hand, this`wg, this`trace
      ensures Running() && hand == Idle && Extends(old(trace), trace)
    {
      hide Feasible, Execute, Inv, Extends, Balanced;
      PartsAreWellFormed(View());
      NextIsSafe(View(), Done);
      hand, wg := Idle, wg - 1;
      Record(Done);
    }

    /** One step of the uploader's loop. */
    method UploaderMove(mayFail: bool)
      requires Running() && (hand != Idle || uploadCh != [])
      modifies this`blockPool, this`uploadCh, this`hand, this`wg, this`writer, this`uploadError, this`trace
      ensures Running() && Rank(uploadCh, hand) < old(Rank(uploadCh, hand)) && Extends(old(trace), trace)
      ensures old(uploadError) ==> uploadError && writer == old(writer)
      ensures Used(old(View()), View(), 0)
      ensures !mayFail ==> uploadError == old(uploadError)
    {
      hide Feasible, Execute, Inv, Extends, Balanced, Used;
      match hand {
        case Idle => TakeBlock(); UploaderUsesNothing(old(View()), View());
        case Taken(_) => UploadBlock(mayFail); UploaderUsesNothing(old(View()), View());
        case Copied(_) => ReturnBlock();
        case Released => SignalDone(); UploaderUsesNothing(old(View()), View());
      }
    }

    /** The uploader runs beside the producer: it takes any number of its steps. */
    method Uploader(mayFail: bool)
      requires Running()
      modifies this`blockPool, this`uploadCh, this`hand, this`wg, this`writer, this`uploadError, this`trace
      ensures Running() && Extends(old(trace), trace) && Used(old(View()), View(), 0)
      ensures old(uploadError) ==> uploadError && writer == old(writer)
      ensures old(wg) == 0 ==> View() == old(View())
      ensures !mayFail ==> uploadError == old(uploadError)
    {
      hide Feasible, Execute, Inv, Extends, Balanced, Used;
      ExtendsItself(trace);
      UsedNothing(View());
      WaitCount(View());
      var rounds: nat := *;
      while rounds > 0 && (hand != Idle || uploadCh != [])
        invariant Running() && Extends(old(trace), trace) && Used(old(View()), View(), 0)
        invariant old(uploadError) ==> uploadError && writer == old(writer)
        invariant old(wg) == 0 ==> View() == old(View()) && hand == Idle && uploadCh == []
        invariant !mayFail ==> uploadError == old(uploadError)
      {
        ghost var before, top := trace, View();
        UploaderMove(mayFail);
        ExtendsTwice(old(trace), before, trace);
        UsedTwice(old(View()), top, View(), 0, 0);
        rounds := rounds - 1;
      }
    }

    /** wg.Wait */
    method AwaitBlocksUpload(mayFail: bool)
      requires Running()
      modifies this`blockPool, this`uploadCh, this`hand, this`wg, this`writer, this`uploadError, this`trace
      ensures Running() && wg == 0 && Extends(old(trace), trace)
      ensures old(uploadError) ==> uploadError && writer == old(writer)
      ensures old(wg) == 0 ==> View() == old(View())
      ensures !mayFail ==> uploadError == old(uploadError)
    {
      hide Feasible, Execute, Inv, Extends, Balanced;
      ExtendsItself(trace);
      WaitCount(View());
      while wg > 0
        invariant Running() && wg == |uploadCh| + (if hand.Idle? then 0 else 1) && Extends(old(trace), trace)
        invariant old(uploadError) ==> uploadError && writer == old(writer)
        invariant old(wg) == 0 ==> View() == old(View())
        invariant !mayFail ==> uploadError == old(uploadError)
        decreases Rank(uploadCh, hand)
      {
        ghost var before := trace;
        UploaderMove(mayFail);
        ExtendsTwice(old(trace), before, trace);
        WaitCount(View());
      }
    }

    // ------------------------------------------------- the producer

    method GetGranted(permit: bool, mapped: bool)
      requires Running() && current.NoBlock? && Granted(TryGet(blockPool, permit, mapped).0)
      modifies this`current, this`blocks, this`blockPool, this`permits, this`trace
      ensures Running() && Extends(old(trace), trace)
      ensures current.Filling? && current.block < |blocks| && blocks[current.block].buffer == []
      ensures Supplied(old(View()), View())
    {
      hide Feasible, Execute, Inv, Extends, Balanced, TakesPermit, TryGet, Guard, Next, Apply, Safe, Need, Spare;
      GrantIs(View(), permit, mapped);
      GrantUses(View(), permit, mapped);
      GrantBalances(permits, lost, returned, blockPool, permit, mapped);
      var (g, pool) := TryGet(blockPool, permit, mapped);
      permits := if TakesPermit(blockPool, permit) then permits + 1 else permits;
      current, blockPool := Filling(g.id), pool;
      blocks := if g.Created? then blocks + [NewMemoryBlock(cfg.blockSize)] else blocks[g.id := blocks[g.id].Reuse()];
      Record(GetBlock(permit, mapped));
    }

    /**
     * blockPool.Get: it spins until a block can be reused or mapped.  Each round that finds
     * none leaves the uploader a step to take, so the wait ends.
     */
    method Get(may: Faults) returns (ok: bool)
      requires Running() && current.NoBlock?
      modifies this`current, this`blocks, this`blockPool, this`uploadCh, this`hand, this`wg
      modifies this`writer, this`uploadError, this`permits, this`lost, this`trace
      ensures Running() && Extends(old(trace), trace)
      ensures if ok then current.Filling? && current.block < |blocks| && blocks[current.block].buffer == []
              else current.NoBlock?
      ensures old(uploadError) ==> uploadError && writer == old(writer)
      ensures lost == old(lost) || (!ok && lost == old(lost) + 1)
      ensures if ok then Supplied(old(View()), View()) else Used(old(View()), View(), 0) && MustMap(View())
      ensures !ok ==> may.memory
      ensures !may.upload ==> uploadError == old(uploadError)
    {
      hide Feasible, Execute, Inv, Extends, Used, Supplied;
      ExtendsItself(trace);
      UsedNothing(View());
      while true
        invariant Running() && current.NoBlock? && Extends(old(trace), trace) && lost == old(lost)
        invariant Used(old(View()), View(), 0)
        invariant old(uploadError) ==> uploadError && writer == old(writer)
        invariant !may.upload ==> uploadError == old(uploadError)
        decreases Rank(uploadCh, hand)
      {
        var permit: bool := *;
        var mapped: bool :| may.memory || mapped;
        var g := TryGet(blockPool, permit, mapped).0;
        ghost var before, top := trace, View();
        if g.MapFailed? {
          if TakesPermit(blockPool, permit) {
            permits, lost := permits + 1, lost + 1;
          }
          return false;
        } else if Granted(g) {
          GetGranted(permit, mapped);
          ExtendsTwice(old(trace), before, trace);
          SuppliedLater(old(View()), top, View());
          return true;
        }
        Stuck(View(), permit);
        UploaderMove(may.upload);
        ExtendsTwice(old(trace), before, trace);
        UsedTwice(old(View()), top, View(), 0, 0);
      }
    }

    method WriteCurrent(data: seq<byte>)
      requires Running() && Guard(View(), Fill(data))
      modifies this`blocks, this`stream, this`trace
      ensures Running() && View() == Next(old(View()), Fill(data)) && Extends(old(trace), trace)
    {
      hide Feasible, Execute, Inv, Extends;
      PartsAreWellFormed(View());
      NextIsSafe(View(), Fill(data));
      blocks := blocks[current.block := blocks[current.block].Write(data).value];
      stream := stream + data;
      Record(Fill(data));
    }

    /** Upload: the send cannot block, since the channel has room for every block. */
    method Upload()
      requires Running() && current.Filling?
      modifies this`current, this`uploadCh, this`wg, this`trace
      ensures Running() && current.NoBlock? && Extends(old(trace), trace) && View() == Next(old(View()), Send)
    {
      hide Feasible, Execute, Inv, Extends;
      PartsAreWellFormed(View());
      NextIsSafe(View(), Send);
      assert |uploadCh| < cfg.maxBlocks;
      wg := wg + 1;
      uploadCh, current := uploadCh + [current.block], NoBlock;
      Record(Send);
    }

    method FillSome(data: seq<byte>) returns (count: nat)
      requires Running() && Slack() >= 0 && data != []
      requires current.Filling? && current.block < |blocks| && blocks[current.block].Size() < cfg.blockSize
      modifies this`current, this`blocks, this`uploadCh, this`wg, this`stream, this`trace
      ensures Ready() && 0 < count <= |data| && stream == old(stream) + data[..count] && Extends(old(trace), trace)
      ensures Spare(View()) + count == old(Spare(View())) && blockPool == old(blockPool)
    {
      hide Feasible, Execute, Inv, Extends, Balanced, Spare;
      PartsAreWellFormed(View());
      count := Min(cfg.blockSize - blocks[current.block].Size(), |data|);
      FillUses(View(), data[..count]);
      WriteCurrent(data[..count]);
      if blocks[current.block].Size() == cfg.blockSize {
        ghost var filled := trace;
        SendUses(View());
        Upload();
        ExtendsTwice(old(trace), filled, trace);
      }
    }

    /** One round of appendBuffer: fills the current block and sends it on when it is full. */
    method AppendSome(data: seq<byte>, may: Faults) returns (ok: bool, count: nat)
      requires Ready() && data != []
      modifies this`current, this`blocks, this`blockPool, this`uploadCh, this`hand, this`wg
      modifies this`writer, this`uploadError, this`stream, this`permits, this`lost, this`trace
      ensures Ready() && count <= |data| && (ok <==> count > 0) && Extends(old(trace), trace)
      ensures stream == old(stream) + data[..count]
      ensures Used(old(View()), View(), count) && (!ok ==> MustMap(View()) && may.memory)
      ensures !may.upload ==> uploadError == old(uploadError)
    {
      hide Feasible, Execute, Inv, Extends, Used, Supplied;
      PartsAreWellFormed(View());
      Uploader(may.upload);
      ghost var before, top := trace, View();
      if current.NoBlock? {
        ok := Get(may);
        ExtendsTwice(old(trace), before, trace);
        if !ok {
          UsedTwice(old(View()), top, View(), 0, 0);
          return false, 0;
        }
      } else {
        FillingIsSupplied(View());
      }
      ghost var got, supplied := trace, View();
      count := FillSome(data);
      ok := true;
      ExtendsTwice(old(trace), got, trace);
      SuppliedUse(old(View()), top, supplied, View(), count);
    }

    method AppendBuffer(data: seq<byte>, may: Faults) returns (ok: bool)
      requires Ready()
      modifies this`current, this`blocks, this`blockPool, this`uploadCh, this`hand, this`wg
      modifies this`writer, this`uploadError, this`stream, this`permits, this`lost, this`totalSize, this`trace
      ensures Ready() && Extends(old(trace), trace)
      ensures ok ==> File() == old(File()).Append(data)
      ensures !ok ==> totalSize == old(totalSize) && CutShort(old(stream), stream, data)
      ensures !ok ==> MustMap(View()) && may.memory
      ensures !may.upload ==> uploadError == old(uploadError)
      ensures |stream| >= |old(stream)| && Used(old(View()), View(), |stream| - |old(stream)|)
    {
      hide Feasible, Execute, Inv, Extends, Balanced, Used;
      ExtendsItself(trace);
      UsedNothing(View());
      var dataWritten := 0;
      while dataWritten < |data|
        invariant Ready() && 0 <= dataWritten <= |data| && Extends(old(trace), trace)
        invariant stream == old(stream) + data[..dataWritten] && totalSize == old(totalSize)
        invariant Used(old(View()), View(), dataWritten)
        invariant !may.upload ==> uploadError == old(uploadError)
      {
        var count;
        ghost var before, top := trace, View();
        ok, count := AppendSome(data[dataWritten..], may);
        ExtendsTwice(old(trace), before, trace);
        UsedTwice(old(View()), top, View(), dataWritten, count);
        if !ok {
          PrefixIsCut(old(stream), data, dataWritten);
          return false;
        }
        assert data[..dataWritten] + data[dataWritten..][..count] == data[..dataWritten + count];
        dataWritten := dataWritten + count;
      }
      assert data[..dataWritten] == data;
      totalSize := totalSize + dataWritten;
      ok := true;
    }

    /** writeDataForTruncatedSize: zeros up to the truncated size, one chunk at a time. */
    method WriteDataForTruncatedSize(may: Faults) returns (ok: bool)
      requires Ready()
      modifies this`current, this`blocks, this`blockPool, this`uploadCh, this`hand, this`wg
      modifies this`writer, this`uploadError, this`stream, this`permits, this`lost, this`totalSize, this`trace
      ensures Ready() && Extends(old(trace), trace)
      ensures ok ==> File() == old(File()).FillUp()
      ensures !ok ==> CutShort(old(stream), stream, Zeros(truncatedSize - old(totalSize)))
      ensures !ok ==> Slack() >= old(Slack()) && (Slack() == old(Slack()) ==> Filled(old(File()), File()))
      ensures truncatedSize <= old(totalSize) ==> ok && View() == old(View())
      ensures |stream| >= |old(stream)| && Used(old(View()), View(), |stream| - |old(stream)|)
      ensures !ok ==> MustMap(View()) && may.memory
      ensures !may.upload ==> uploadError == old(uploadError)
    {
      hide Feasible, Execute, Inv, Zeros, Extends, Balanced, CutShort, Filled, Used;
      ExtendsItself(trace);
      UsedNothing(View());
      ok := true;
      ghost var h := File();
      AppendNothing(h, truncatedSize - totalSize);
      if totalSize >= truncatedSize {
        return;
      }
      var diff := truncatedSize - totalSize;
      var i := 0;
      while i < diff
        invariant 0 <= i <= diff && ok && Extends(old(trace), trace)
        invariant Ready() && File() == h.Append(Zeros(i)) && |Zeros(i)| == i && Used(old(View()), View(), i)
        invariant !may.upload ==> uploadError == old(uploadError)
      {
        var size := Min(ZERO_CHUNK, diff - i);
        ghost var before, filled, top := trace, File(), View();
        ok := AppendBuffer(Zeros(size), may);
        ExtendsTwice(old(trace), before, trace);
        UsedTwice(old(View()), top, View(), i, |stream| - |top.stream|);
        if !ok {
          FillCutShort(h, filled, File(), i, size, diff);
          return;
        }
        AppendTwice(h, i, size);
        i := i + size;
      }
    }

    // ------------------------------------------------- the interface

    /** Adds a call to the history. */
    ghost method Log(r: StreamFile.Request, h: StreamFile.Handler)
      requires Ready() && (returned ==> uploadClosed)
      requires File().Whole() ==>
        && StreamFile.Session(StreamFile.NewHandler(base), history)
        && h == StreamFile.Play(StreamFile.NewHandler(base), history)
        && (r.accepted ==> StreamFile.Acceptable(h, r.call))
        && File() == (if r.accepted then StreamFile.Do(h, r.call) else h)
      modifies this`history
      ensures Valid() && history == old(history) + [r]
    {
      hide Feasible, Execute, Inv, Balanced;
      if File().Whole() {
        StreamFile.OneMoreRequest(StreamFile.NewHandler(base), history, r);
      }
      history := history + [r];
    }

    /** Adds a call that ran out of memory: the file is as it was, or cut short for good. */
    ghost method LogFailure(h: StreamFile.Handler)
      requires Ready() && (returned ==> uploadClosed)
      requires h.Whole() ==>
        && StreamFile.Session(StreamFile.NewHandler(base), history)
        && h == StreamFile.Play(StreamFile.NewHandler(base), history)
      requires File().Whole() ==> h.Whole() && Filled(h, File())
      modifies this`history
      ensures Valid()
    {
      hide Feasible, Execute, Inv, Balanced;
      var count := if totalSize >= h.totalSize then totalSize - h.totalSize else 0;
      Log(StreamFile.Request(StreamFile.Fill(count), true), h);
    }

    /** The part of Write after its checks. */
    method FillAndAppend(data: seq<byte>, offset: int, may: Faults) returns (ok: bool)
      requires Ready() && File().InOrder(offset)
      modifies this`current, this`blocks, this`blockPool, this`uploadCh, this`hand, this`wg
      modifies this`writer, this`uploadError, this`stream, this`permits, this`lost, this`totalSize, this`trace
      ensures Ready()
      ensures ok ==> File() == old(File()).Write(data, offset)
      ensures !ok ==> old(stream) <= stream < old(File()).Write(data, offset).stream
      ensures !ok && File().Whole() ==> old(File()).Whole() && Filled(old(File()), File())
      ensures |stream| >= |old(stream)| && Used(old(View()), View(), |stream| - |old(stream)|)
      ensures !ok ==> MustMap(View()) && may.memory
      ensures !may.upload ==> uploadError == old(uploadError)
    {
      hide Feasible, Execute, Inv, Zeros, Extends, Balanced, Used;
      UsedNothing(View());
      if offset == truncatedSize {
        ok := WriteDataForTruncatedSize(may);
        if !ok {
          CutLater(old(stream), [], stream, Zeros(truncatedSize - old(totalSize)), data);
          return;
        }
      }
      ghost var filled, top := File(), View();
      ok := AppendBuffer(data, may);
      UsedTwice(old(View()), top, View(), |top.stream| - |old(stream)|, |stream| - |top.stream|);
      if !ok {
        assert filled.stream + data == old(File()).Write(data, offset).stream;
        AppendCutShort(old(File()), filled, File(), data);
      }
    }

    method CheckAndWrite(data: seq<byte>, offset: int, may: Faults) returns (err: WriteError)
      requires Ready()
      modifies this`current, this`blocks, this`blockPool, this`uploadCh, this`hand, this`wg
      modifies this`writer, this`uploadError, this`stream, this`permits, this`lost, this`totalSize, this`trace
      ensures Ready() && err != SizeMismatch
      ensures err == OutOfOrder || err == UploadFailed ==> File() == old(File())
      ensures err == OutOfOrder <==> !old(File()).InOrder(offset) && err != UploadFailed
      ensures err == UploadFailed ==> uploadError
      ensures old(uploadError) ==> err == UploadFailed
      ensures err == NoError ==> File() == old(File()).Write(data, offset)
      ensures err == NoMemory ==> old(stream) <= stream < old(File()).Write(data, offset).stream
      ensures err == NoMemory && File().Whole() ==> old(File()).Whole() && Filled(old(File()), File())
      ensures err == NoMemory && stream != old(stream) ==>
        Cuttable(old(View()), |old(File()).Write(data, offset).stream| - |old(stream)|)
      ensures err == NoMemory ==> may.memory
      ensures !may.upload ==> uploadError == old(uploadError)
    {
      hide Feasible, Execute, Inv, Zeros, Extends, Balanced, Filled, Used, Cuttable, MustMap;
      Uploader(may.upload);
      ghost var top := View();
      if uploadError {
        err := UploadFailed;
      } else if offset != totalSize && offset != truncatedSize {
        err := OutOfOrder;
      } else {
        var ok := FillAndAppend(data, offset, may);
        err := if ok then NoError else NoMemory;
        if !ok && stream != old(stream) {
          CutFrom(old(View()), top, View(), old(File()).Write(data, offset).stream);
        }
      }
    }

    /** As long as nothing was truncated, the end of the file is the one offset that is in order. */
    lemma OnlyTheEndIsInOrder(offset: int)
      requires Valid()
      ensures File().Whole() && StreamFile.OnlyAppends(history) && offset >= 0 ==>
        (File().InOrder(offset) <==> offset == |StreamFile.Reference(base, history)|)
    {
      hide Feasible, Execute, Inv, Balanced;
      if File().Whole() && StreamFile.OnlyAppends(history) && offset >= 0 {
        StreamFile.AppendsInOrder(base, history, offset);
      }
    }

    /** A write is refused, or acts on the file as StreamFile says. */
    method Write(data: seq<byte>, offset: int, may: Faults) returns (err: WriteError)
      requires Valid() && !uploadClosed
      modifies this`current, this`blocks, this`blockPool, this`uploadCh, this`hand, this`wg, this`history
      modifies this`writer, this`uploadError, this`stream, this`permits, this`lost, this`totalSize, this`trace
      ensures Valid() && err != SizeMismatch
      ensures err == OutOfOrder || err == UploadFailed ==> File() == old(File())
      ensures err == OutOfOrder <==> !old(File()).InOrder(offset) && err != UploadFailed
      ensures err == UploadFailed ==> uploadError
      ensures old(uploadError) ==> err == UploadFailed
      ensures err == NoError ==> File() == old(File()).Write(data, offset)
      ensures err == NoError && old(File()).Whole() ==>
        && File().Whole()
        && ((File().Contents() == StreamFile.Pwrite(old(File()).Contents(), data, offset))
            <==> (data == [] || !(offset == old(truncatedSize) < old(totalSize))))
      ensures err == NoMemory ==> old(stream) <= stream < old(File()).Write(data, offset).stream
      ensures err == NoMemory && File().Whole() ==> old(File()).Whole() && Filled(old(File()), File())
      ensures err == NoMemory && stream != old(stream) ==>
        Cuttable(old(View()), |old(File()).Write(data, offset).stream| - |old(stream)|)
      ensures err != NoMemory ==>
        history == old(history) + [StreamFile.Request(StreamFile.Write(data, offset), err == NoError)]
      ensures err == NoMemory ==> may.memory
      ensures !may.upload ==> uploadError == old(uploadError)
      ensures !may.memory && !may.upload ==>
        err == if old(uploadError) then UploadFailed else if old(File()).InOrder(offset) then NoError else OutOfOrder
      ensures old(File().Whole() && StreamFile.OnlyAppends(history)) && offset >= 0 && err != UploadFailed ==>
        (err == OutOfOrder <==> offset != |StreamFile.Reference(base, old(history))|)
    {
      hide Feasible, Execute, Inv, Zeros, Extends, Balanced, Filled, Used, Cuttable, MustMap;
      hide StreamFile.Play, StreamFile.Session, StreamFile.Pwrite, StreamFile.OnlyAppends, StreamFile.Reference;
      OnlyTheEndIsInOrder(offset);
      err := CheckAndWrite(data, offset, may);
      if err == NoError && old(File()).Whole() { StreamFile.WriteIsPwrite(old(File()), data, offset); }
      if err == NoMemory {
        LogFailure(old(File()));
      } else {
        Log(StreamFile.Request(StreamFile.Write(data, offset), err == NoError), old(File()));
      }
    }

    method Truncate(size: int) returns (err: WriteError)
      requires Valid()
      modifies this`truncatedSize, this`history
      ensures Valid() && File() == old(File()).Truncate(size)
      ensures err == if size < totalSize then OutOfOrder else NoError
      ensures err == NoError && old(File()).Whole() ==>
        File().Whole() && size >= 0 && File().Contents() == StreamFile.Ftruncate(old(File()).Contents(), size)
      ensures history == old(history) + [StreamFile.Request(StreamFile.Truncate(size), err == NoError)]
    {
      hide Feasible, Execute, Inv, Balanced;
      err := OutOfOrder;
      if size >= totalSize {
        truncatedSize := size;
        err := NoError;
        if old(File()).Whole() { StreamFile.TruncateIsFtruncate(old(File()), size); }
      }
      Log(StreamFile.Request(StreamFile.Truncate(size), err == NoError), old(File()));
    }

    /** The file is what pwrite and ftruncate would have made of it. */
    lemma FileIsReference()
      requires Valid() && File().Whole()
      ensures File().FileSize() == |File().Contents()|
      ensures Unspoilt() ==> File().Contents() == StreamFile.Reference(base, history)
    {
      hide Feasible, Execute, Inv, Balanced;
      StreamFile.FileSizeIsLength(File());
      if Unspoilt() {
        StreamFile.SessionRefinesFile(base, history);
      }
    }

    method WriteFileInfo() returns (size: int)
      requires Valid()
      ensures size == File().FileSize()
      ensures File().Whole() ==> size == |File().Contents()|
      ensures File().Whole() && Unspoilt() ==> size == |StreamFile.Reference(base, history)|
    {
      hide Feasible, Execute, Inv, Balanced;
      if totalSize == |base| + |stream| { FileIsReference(); }
      size := Max(totalSize, truncatedSize);
    }

    /** ClearFreeBlockChannel: the free blocks are unmapped and their permits given back. */
    method ClearFreeBlocks(releaseReservedBlocks: bool)
      requires Running() && (releaseReservedBlocks ==> !returned)
      modifies this`blockPool, this`permits, this`returned, this`trace
      ensures Running() && returned == (old(returned) || releaseReservedBlocks)
      ensures |old(blockPool.free)| <= old(blockPool.total) && blockPool == Emptied(old(blockPool))
      ensures old(permits) - permits == Held(old(blockPool)) - Held(blockPool)
        + (if releaseReservedBlocks then blockPool.reserved else 0)
    {
      hide Feasible, Execute, Inv, Extends;
      PartsAreWellFormed(View());
      NextIsSafe(View(), Clear);
      var left, released := ClearFree(blockPool, releaseReservedBlocks);
      blockPool, permits, returned := left, permits - released, returned || releaseReservedBlocks;
      Record(Clear);
    }

    method StoreUploadError()
      requires Running() && wg == 0
      modifies this`uploadError, this`trace
      ensures Running() && uploadError
    {
      hide Feasible, Execute, Inv, Extends;
      PartsAreWellFormed(View());
      NextIsSafe(View(), FinalizeFails);
      uploadError := true;
      Record(FinalizeFails);
    }

    /** Sends the block being filled, if any, and waits for the uploader. */
    method SendAndWait(mayFail: bool)
      requires Running()
      modifies this`current, this`blockPool, this`uploadCh, this`hand, this`wg
      modifies this`writer, this`uploadError, this`trace
      ensures Running() && wg == 0 && current.NoBlock? && Extends(old(trace), trace)
      ensures |blockPool.free| == blockPool.total && (!uploadError ==> writer == stream)
      ensures old(wg) == 0 && old(current.NoBlock?) ==> View() == old(View())
      ensures !mayFail ==> uploadError == old(uploadError)
    {
      hide Feasible, Execute, Inv, Extends, Balanced;
      ExtendsItself(trace);
      if current.Filling? {
        Upload();
      }
      ghost var sent := trace;
      AwaitBlocksUpload(mayFail);
      ExtendsTwice(old(trace), sent, trace);
      DrainedIsFree(View());
      if !uploadError { DrainedIsComplete(View()); }
    }

    /**
     * What Sync answers: in a zonal bucket it checks that the object has the size written, and
     * everywhere that no upload failed.  `flushed` is whether FlushPendingWrites succeeds.
     */
    predicate Synced(zonal: bool, flushed: bool, err: WriteError)
      reads this
    {
      err == if zonal && !flushed then UploadFailed
             else if zonal && |base| + |writer| != totalSize then SizeMismatch
             else if uploadError then UploadFailed else NoError
    }

    method UploadAll(zonal: bool, flushed: bool, may: Faults) returns (err: WriteError)
      requires Ready() && !returned
      modifies this`current, this`blockPool, this`uploadCh, this`hand, this`wg
      modifies this`writer, this`uploadError, this`permits, this`returned, this`trace
      ensures Ready() && !returned && current.NoBlock? && wg == 0 && err in {NoError, UploadFailed, SizeMismatch}
      ensures err == NoError ==> !uploadError && writer == stream && blockPool.total == 0 && blockPool.free == []
      ensures Synced(zonal, flushed, err) && (err == UploadFailed ==> uploadError)
      ensures err == NoError && zonal ==> File().Whole()
      ensures !(zonal && !flushed) && err != SizeMismatch ==> blockPool.total == 0
      ensures !may.upload ==> uploadError == (old(uploadError) || (zonal && !flushed))
      ensures !uploadError ==> writer == stream
    {
      hide Feasible, Execute, Inv, Extends, Balanced;
      Uploader(may.upload);
      SendAndWait(may.upload);
      if zonal {
        if !flushed {
          StoreUploadError();
          return UploadFailed;
        }
        if |base| + |writer| != totalSize {
          return SizeMismatch;
        }
      }
      ClearFreeBlocks(false);
      err := if uploadError then UploadFailed else NoError;
    }

    /** After a successful Sync all that was written is uploaded and only the reservation is held. */
    method Sync(zonal: bool, flushed: bool, may: Faults) returns (err: WriteError)
      requires Valid() && !uploadClosed
      modifies this`current, this`blockPool, this`uploadCh, this`hand, this`wg, this`history
      modifies this`writer, this`uploadError, this`permits, this`returned, this`trace
      ensures Valid() && File() == old(File()) && err in {NoError, UploadFailed, SizeMismatch}
      ensures err == NoError ==> !uploadError && writer == stream
      ensures err == NoError ==> blockPool.total == 0 && blockPool.free == [] && permits == blockPool.reserved + lost
      ensures err == NoError ==> wg == 0 && current.NoBlock?
      ensures Synced(zonal, flushed, err) && (err == UploadFailed ==> uploadError)
      ensures err == NoError && zonal ==> File().Whole()
      ensures !(zonal && !flushed) && err != SizeMismatch ==> blockPool.total == 0
      ensures !may.upload && !old(uploadError) ==>
        err == if zonal && !flushed then UploadFailed
               else if zonal && !old(File()).Whole() then SizeMismatch else NoError
      ensures !may.upload ==> uploadError == (old(uploadError) || (zonal && !flushed))
      ensures history == old(history) + [StreamFile.Request(StreamFile.Sync, err == NoError)]
    {
      hide Feasible, Execute, Inv, Extends;
      err := UploadAll(zonal, flushed, may);
      Log(StreamFile.Request(StreamFile.Sync, err == NoError), old(File()));
    }

    /** The part of Flush up to the end of its wait. */
    method FillAndDrain(may: Faults) returns (ok: bool, ghost drained: seq<Event>)
      requires Ready() && !uploadError
      modifies this`current, this`blocks, this`blockPool, this`uploadCh, this`hand, this`wg
      modifies this`writer, this`uploadError, this`stream, this`permits, this`lost, this`totalSize, this`trace
      ensures Ready() && drained == trace
      ensures ok ==> File() == old(File()).FillUp() && wg == 0 && current.NoBlock?
      ensures ok ==> |blockPool.free| == blockPool.total && (!uploadError ==> writer == stream)
      ensures ok ==> PassesFlush(cfg, old(trace), Zeros(truncatedSize - old(totalSize)), drained)
      ensures !ok && File().Whole() ==> old(File()).Whole() && Filled(old(File()), File())
      ensures ok && old(wg) == 0 && old(current.NoBlock?) && truncatedSize <= old(totalSize) ==> View() == old(View())
      ensures !ok ==> may.memory
      ensures !may.upload ==> uploadError == old(uploadError)
    {
      hide Feasible, Execute, Inv, Extends, Balanced, Zeros, Used, MustMap;
      ok := WriteDataForTruncatedSize(may);
      drained := trace;
      if ok {
        SendAndWait(may.upload);
        ExtendsTwice(old(trace), drained, trace);
        drained := trace;
      }
    }

    /** The part of Flush after its wait; `finalized` says whether FinalizeUpload succeeds. */
    method Finish(finalized: bool) returns (err: WriteError)
      requires Ready() && wg == 0 && current.NoBlock? && |blockPool.free| == blockPool.total && !returned
      modifies this`blockPool, this`uploadError, this`uploadClosed, this`permits, this`returned, this`trace
      ensures Ready() && uploadClosed && err == if finalized then NoError else UploadFailed
      ensures finalized ==> blockPool.total == 0 && permits == lost && uploadError == old(uploadError)
      ensures !finalized ==> uploadError
    {
      hide Feasible, Execute, Inv, Extends;
      uploadClosed := true;
      if !finalized {
        StoreUploadError();
        return UploadFailed;
      }
      ClearFreeBlocks(true);
      err := NoError;
    }

    method FlushAll(finalized: bool, may: Faults)
      returns (err: WriteError, filled: bool, ghost checked: seq<Event>, ghost drained: seq<Event>)
      requires Ready() && !returned
      modifies this`current, this`blocks, this`blockPool, this`uploadCh, this`hand, this`wg
      modifies this`writer, this`uploadError, this`stream, this`totalSize, this`uploadClosed
      modifies this`permits, this`lost, this`returned, this`trace
      ensures Ready() && (returned ==> uploadClosed) && err in {NoError, UploadFailed, NoMemory}
      ensures err != NoMemory ==> File() == if filled then old(File()).FillUp() else old(File())
      ensures err == NoMemory && File().Whole() ==> old(File()).Whole() && Filled(old(File()), File())
      ensures err == NoError ==> filled && blockPool.total == 0 && permits == lost && uploadClosed
      ensures err == NoError && !uploadError ==> writer == stream
      ensures err == NoError ==>
        && Extends(old(trace), checked)
        && PassesFlush(cfg, checked, Zeros(truncatedSize - old(totalSize)), drained)
        && writer == Execute(cfg, drained).writer
      ensures err == NoError && old(wg) == 0 && old(current.NoBlock?) && truncatedSize <= old(totalSize) ==>
        !uploadError && stream == old(stream)
      ensures err == UploadFailed ==> uploadError
      ensures err == NoMemory ==> may.memory
      ensures !may.memory && !may.upload ==>
        err == (if old(uploadError) || !finalized then UploadFailed else NoError) && (err == NoError ==> !uploadError)
    {
      hide Feasible, Execute, Inv, Extends, Zeros, Balanced, Filled, PassesFlush, Used, MustMap;
      Uploader(may.upload);
      checked, drained, filled := trace, trace, false;
      if uploadError {
        err := UploadFailed;
      } else {
        filled, drained := FillAndDrain(may);
        err := NoMemory;
        if filled {
          err := Finish(finalized);
        }
      }
    }

    /**
     * Flush reports the upload errors of earlier calls, but one that occurs while it waits
     * goes unreported.  Without one, the object is the whole file, lazy zeros included.
     * `checked` is the trace when it looked for an error, `drained` when it had waited.
     */
    method Flush(finalized: bool, may: Faults)
      returns (err: WriteError, ghost checked: seq<Event>, ghost drained: seq<Event>)
      requires Valid() && !uploadClosed
      modifies this`current, this`blocks, this`blockPool, this`uploadCh, this`hand, this`wg, this`history
      modifies this`writer, this`uploadError, this`stream, this`totalSize, this`uploadClosed
      modifies this`permits, this`lost, this`returned, this`trace
      ensures Valid() && err in {NoError, UploadFailed, NoMemory}
      ensures err == NoError ==> File() == old(File()).FillUp() && uploadClosed
      ensures err == NoError ==> blockPool.total == 0 && permits == lost
      ensures err == NoError && !uploadError ==> writer == stream
      ensures err == NoError && !uploadError ==> |base| + |writer| == File().FileSize() + Slack()
      ensures err == NoError && !uploadError && old(File()).Whole() ==> base + writer == old(File()).Contents()
      ensures err == NoError && !uploadError && old(File().Whole() && Unspoilt()) ==>
        base + writer == StreamFile.Reference(base, old(history))
      ensures err == NoError ==>
        && Extends(old(trace), checked)
        && PassesFlush(cfg, checked, Zeros(truncatedSize - old(totalSize)), drained)
        && writer == Execute(cfg, drained).writer
      ensures err == NoError && old(wg) == 0 && old(current.NoBlock?) && truncatedSize <= old(totalSize) ==>
        !uploadError && writer == stream == old(stream)
      ensures err == UploadFailed ==> uploadError
      ensures err == NoMemory ==> may.memory
      ensures !may.memory && !may.upload ==>
        err == (if old(uploadError) || !finalized then UploadFailed else NoError) && (err == NoError ==> !uploadError)
    {
      hide Feasible, Execute, Inv, Extends, Zeros, PassesFlush, Balanced, Filled;
      hide StreamFile.Play, StreamFile.Session, StreamFile.NeverStale, StreamFile.Reference;
      if old(File()).Whole() {
        FileIsReference();
        StreamFile.FillUpKeepsFile(old(File()));
      }
      var filled;
      err, filled, checked, drained := FlushAll(finalized, may);
      if err == NoMemory {
        LogFailure(old(File()));
      } else {
        Log(StreamFile.Request(StreamFile.Flush, filled), old(File()));
      }
    }
  }

  method WritePieces(c: Config, existing: seq<byte>, pieces: seq<seq<byte>>) returns (h: BufferedWriteHandler)
    requires c.Valid()
    ensures fresh(h) && h.Valid() && !h.uploadClosed && !h.uploadError && h.base == existing
    ensures h.File() == StreamFile.Handler(existing, Flat(pieces), |existing| + |Flat(pieces)|, -1)
  {
    hide Feasible, Execute, Inv, Balanced, Cuttable, Filled, StreamFile.Reference, StreamFile.OnlyAppends;
    hide StreamFile.Pwrite, StreamFile.Session, StreamFile.Play;
    h := new BufferedWriteHandler(c, existing);
    var i := 0;
    while i < |pieces|
      invariant 0 <= i <= |pieces| && fresh(h) && h.Valid() && !h.uploadClosed && !h.uploadError && h.base == existing
      invariant h.File() == StreamFile.Handler(existing, Flat(pieces[..i]), |existing| + |Flat(pieces[..i])|, -1)
    {
      var _ := h.Write(pieces[i], h.totalSize, Faults(false, false));
      FlatMore(pieces[..i], pieces[i]);
      assert pieces[..i] + [pieces[i]] == pieces[..i + 1];
      i := i + 1;
    }
    assert pieces[..i] == pieces;
  }

  /** If nothing fails, what is flushed is what was there followed by the pieces, however they were cut. */
  method UploadPieces(c: Config, existing: seq<byte>, pieces: seq<seq<byte>>) returns (h: BufferedWriteHandler)
    requires c.Valid()
    ensures fresh(h) && h.Valid() && h.uploadClosed && h.base == existing && h.writer == Flat(pieces)
  {
    hide Feasible, Execute, Inv, Balanced, PassesFlush, Extends, StreamFile.Reference, StreamFile.NeverStale;
    h := WritePieces(c, existing, pieces);
    var _, _, _ := h.Flush(true, Faults(false, false));
  }
}
