// What holds of the upload pipeline over whole runs.
module UploadRuns {
  import opened Bytes
  import opened Blocks
  import opened BlockPools
  import opened UploadPipeline
  import opened UploadProofs

  lemma EmptyIsInv(c: Config)
    requires c.Valid()
    ensures Inv(Init(c))
  {
  }

  lemma NextIsSafe(s: State, ev: Event)
    requires Inv(s) && Guard(s, ev)
    ensures Safe(s, ev) && Inv(Apply(s, ev)) && Apply(s, ev).cfg == s.cfg
  {
    hide Inv;
    GuardIsSafe(s, ev);
    StepKeepsInv(s, ev);
  }

  ghost function Next(s: State, ev: Event): (t: State)
    requires Inv(s) && Guard(s, ev)
    ensures Safe(s, ev) && t == Apply(s, ev) && Inv(t) && t.cfg == s.cfg
  {
    NextIsSafe(s, ev);
    Apply(s, ev)
  }

  /** The trace is one that the producer and the uploader can produce together. */
  ghost predicate Feasible(c: Config, trace: seq<Event>)
    decreases |trace|, 0
  {
    && c.Valid()
    && (trace != [] ==>
          && Feasible(c, trace[..|trace| - 1])
          && Guard(Execute(c, trace[..|trace| - 1]), trace[|trace| - 1]))
  }

  /** The state after a trace.  It is defined because no step panics and no send blocks. */
  ghost function Execute(c: Config, trace: seq<Event>): (s: State)
    requires Feasible(c, trace)
    ensures Inv(s) && s.cfg == c
    decreases |trace|, 1
  {
    if trace == [] then EmptyIsInv(c); Init(c)
    else Next(Execute(c, trace[..|trace| - 1]), trace[|trace| - 1])
  }

  lemma EmptyTrace(c: Config)
    requires c.Valid()
    ensures Feasible(c, []) && Execute(c, []) == Init(c) && Inv(Init(c))
  {
    hide Inv;
    EmptyIsInv(c);
  }

  lemma LastStep(c: Config, trace: seq<Event>)
    requires Feasible(c, trace) && trace != []
    ensures var front, ev := trace[..|trace| - 1], trace[|trace| - 1];
      && Feasible(c, front) && Guard(Execute(c, front), ev)
      && Execute(c, trace) == Next(Execute(c, front), ev)
  {
    hide Inv, Guard;
  }

  lemma ExtendTrace(c: Config, trace: seq<Event>, ev: Event)
    requires Feasible(c, trace) && Guard(Execute(c, trace), ev)
    ensures Feasible(c, trace + [ev])
    ensures Execute(c, trace + [ev]) == Next(Execute(c, trace), ev)
  {
    hide Inv, Guard;
    assert (trace + [ev])[..|trace|] == trace;
  }

  // ------------------------------------------------- order and completeness

  /** What the GCS writer has is a prefix of what was appended, whatever the interleaving. */
  lemma WriterIsPrefix(s: State)
    requires Inv(s)
    ensures s.writer <= s.stream
  {
    hide Counted, Sized;
  }

  /** With no error and the pipeline drained, only the block being filled is not uploaded. */
  lemma DrainedIsComplete(s: State)
    requires Inv(s) && !s.failed && s.wg == 0
    ensures s.stream == s.writer + (if s.current.Filling? then s.blocks[s.current.block].buffer else [])
  {
    hide Sized;
    assert s.channel == [] && s.hand.Idle?;
    assert PendingOf(s) == CurrentBlocks(s.current);
    if s.current.Filling? { BytesOfOne(s.blocks, s.current.block); }
  }

  /** With the pipeline drained and nothing being filled, every block is in the pool. */
  lemma DrainedIsFree(s: State)
    requires Inv(s) && s.wg == 0 && s.current.NoBlock?
    ensures |s.pool.free| == s.pool.total
  {
    hide Streamed, Sized;
    PlaceSizes(s);
  }

  /** Bytes are only ever appended, in order; after an error the writer gets no more. */
  lemma StepExtends(s: State, ev: Event)
    requires Inv(s) && Guard(s, ev)
    ensures var t := Next(s, ev);
      s.stream <= t.stream && s.writer <= t.writer && (s.failed ==> t.failed && t.writer == s.writer)
  {
    hide Inv;
    NextIsSafe(s, ev);
  }

  lemma {:induction false} ErrorIsSticky(c: Config, trace: seq<Event>, from: nat)
    requires Feasible(c, trace) && from <= |trace| && Feasible(c, trace[..from])
    ensures var s, t := Execute(c, trace[..from]), Execute(c, trace);
      s.stream <= t.stream && s.writer <= t.writer && (s.failed ==> t.failed && t.writer == s.writer)
    decreases |trace|
  {
    hide Feasible, Execute, Inv, Next;
    if from == |trace| {
      assert trace[..from] == trace;
    } else {
      LastStep(c, trace);
      var front := trace[..|trace| - 1];
      assert front[..from] == trace[..from];
      ErrorIsSticky(c, front, from);
      StepExtends(Execute(c, front), trace[|trace| - 1]);
    }
  }

  // ------------------------------------------------- a flush that misses bytes

  /** Steps the uploader still has to take before it is idle with nothing to do. */
  function Rank(channel: seq<BlockId>, h: Hand): nat {
    4 * |channel| + (match h case Idle => 0 case Released => 1 case Copied(_) => 2 case Taken(_) => 3)
  }

  /** A step of appending or uploading, as opposed to one of finalizing or clearing. */
  predicate Streams(ev: Event) {
    !ev.FinalizeFails? && !ev.Clear?
  }

  /** `longer` goes on from `trace` with steps of appending and uploading alone. */
  ghost predicate Extends(trace: seq<Event>, longer: seq<Event>) {
    trace <= longer && forall i :: |trace| <= i < |longer| ==> Streams(longer[i])
  }

  lemma ExtendsItself(trace: seq<Event>)
    ensures Extends(trace, trace)
  {
  }

  lemma ExtendsByOne(trace: seq<Event>, longer: seq<Event>, ev: Event)
    requires Extends(trace, longer) && Streams(ev)
    ensures Extends(trace, longer + [ev])
  {
  }

  lemma ExtendsTwice(a: seq<Event>, b: seq<Event>, c: seq<Event>)
    requires Extends(a, b) && Extends(b, c)
    ensures Extends(a, c)
  {
  }

  /**
   * From the state after `trace`, where Flush finds no upload error, the steps up to `drained`
   * append the missing zeros, send the last block and wait for the uploader: Flush then goes
   * on to finalize the upload.
   */
  ghost predicate PassesFlush(c: Config, trace: seq<Event>, zeros: seq<byte>, drained: seq<Event>) {
    && Feasible(c, trace) && Feasible(c, drained) && Extends(trace, drained) && !Execute(c, trace).failed
    && var t := Execute(c, drained);
       t.stream == Execute(c, trace).stream + zeros && t.wg == 0 && t.current.NoBlock?
  }

  lemma Start(c: Config) returns (trace: seq<Event>)
    requires c.Valid()
    ensures Feasible(c, trace) && Execute(c, trace) == Init(c)
  {
    trace := [];
  }

  lemma More(c: Config, origin: seq<Event>, trace: seq<Event>, ev: Event) returns (longer: seq<Event>)
    requires Feasible(c, trace) && Guard(Execute(c, trace), ev) && Extends(origin, trace) && Streams(ev)
    ensures Feasible(c, longer) && Extends(origin, longer)
    ensures Safe(Execute(c, trace), ev) && Execute(c, longer) == Apply(Execute(c, trace), ev)
  {
    hide Inv, Guard, Extends;
    ExtendTrace(c, trace, ev);
    NextIsSafe(Execute(c, trace), ev);
    ExtendsByOne(origin, trace, ev);
    longer := trace + [ev];
  }

  /** What a stretch of steps that uploads nothing leaves alone. */
  ghost predicate Stalled(s: State, t: State, data: seq<byte>) {
    t.cfg == s.cfg && t.writer == s.writer && t.stream == s.stream + data
  }

  lemma WaitCount(s: State)
    requires Inv(s)
    ensures s.wg == |s.channel| + (if s.hand.Idle? then 0 else 1)
  {
  }

  lemma PartsAreWellFormed(s: State)
    requires Inv(s)
    ensures WellFormed(s)
  {
  }

  /** The uploader empties its channel, and every copy fails. */
  lemma {:induction false} DrainStalled(c: Config, origin: seq<Event>, trace: seq<Event>) returns (longer: seq<Event>)
    requires Feasible(c, trace) && Extends(origin, trace)
    ensures Feasible(c, longer) && Extends(origin, longer)
    ensures var s, t := Execute(c, trace), Execute(c, longer);
      Stalled(s, t, []) && t.wg == 0 && t.current == s.current && t.blocks == s.blocks
    decreases Rank(Execute(c, trace).channel, Execute(c, trace).hand)
  {
    hide Feasible, Execute, Extends, Inv;
    var s := Execute(c, trace);
    WaitCount(s);
    if s.wg == 0 {
      return trace;
    }
    PartsAreWellFormed(s);
    longer := More(c, origin, trace, UploaderStep(s, false));
    longer := DrainStalled(c, origin, longer);
  }

  lemma ReservesOne(s: State)
    requires Inv(s)
    ensures s.pool.reserved == 1 && s.pool.maxBlocks == s.cfg.maxBlocks && s.cfg.Valid()
  {
  }

  /** The producer has a block with room, whatever it had before. */
  lemma RoomStalled(c: Config, origin: seq<Event>, trace: seq<Event>) returns (longer: seq<Event>)
    requires Feasible(c, trace) && Extends(origin, trace)
    ensures Feasible(c, longer) && Extends(origin, longer)
    ensures var s, t := Execute(c, trace), Execute(c, longer);
      && Stalled(s, t, []) && t.current.Filling?
      && t.current.block < |t.blocks| && t.blocks[t.current.block].Size() < c.blockSize
  {
    hide Feasible, Execute, Extends, Counted, Streamed, Places, Pending;
    longer := trace;
    var s := Execute(c, trace);
    if s.current.Filling? {
      if s.blocks[s.current.block].Size() < c.blockSize {
        return;
      }
      longer := More(c, origin, longer, Send);
    }
    longer := DrainStalled(c, origin, longer);
    var u := Execute(c, longer);
    DrainedIsFree(u);
    ReservesOne(u);
    longer := More(c, origin, longer, GetBlock(true, true));
  }

  lemma {:induction false} AppendStalled(c: Config, origin: seq<Event>, trace: seq<Event>, data: seq<byte>)
    returns (longer: seq<Event>)
    requires Feasible(c, trace) && Extends(origin, trace)
    ensures Feasible(c, longer) && Extends(origin, longer)
    ensures Stalled(Execute(c, trace), Execute(c, longer), data)
    decreases |data|
  {
    hide Feasible, Execute, Extends, Inv;
    longer := trace;
    if data != [] {
      longer := RoomStalled(c, origin, trace);
      PartsAreWellFormed(Execute(c, longer));
      var s := Execute(c, longer);
      var count := Min(c.blockSize - s.blocks[s.current.block].Size(), |data|);
      longer := More(c, origin, longer, Fill(data[..count]));
      longer := AppendStalled(c, origin, longer, data[count..]);
      assert data == data[..count] + data[count..];
    }
  }

  /** Flush can get through with nothing uploaded that was not uploaded before. */
  lemma FlushCanStall(c: Config, trace: seq<Event>, zeros: seq<byte>) returns (drained: seq<Event>)
    requires Feasible(c, trace) && !Execute(c, trace).failed
    ensures PassesFlush(c, trace, zeros, drained)
    ensures Execute(c, drained).writer == Execute(c, trace).writer
  {
    hide Feasible, Execute, Extends, Inv;
    ExtendsItself(trace);
    drained := AppendStalled(c, trace, trace, zeros);
    PartsAreWellFormed(Execute(c, drained));
    if Execute(c, drained).current.Filling? {
      drained := More(c, trace, drained, Send);
    }
    drained := DrainStalled(c, trace, drained);
  }

  lemma FlushOnlyAdds(c: Config, trace: seq<Event>, zeros: seq<byte>, drained: seq<Event>)
    requires PassesFlush(c, trace, zeros, drained)
    ensures Execute(c, trace).writer <= Execute(c, drained).writer <= Execute(c, drained).stream
  {
    hide Feasible, Execute, Inv;
    assert drained[..|trace|] == trace;
    ErrorIsSticky(c, drained, |trace|);
    WriterIsPrefix(Execute(c, drained));
  }

  /**
   * Every flush that gets through has uploaded all of the file, if and only if nothing was
   * pending when it looked for an upload error: no byte appended but not uploaded, and no
   * zeros to add.
   */
  lemma FlushIsComplete(c: Config, trace: seq<Event>, zeros: seq<byte>)
    requires Feasible(c, trace) && !Execute(c, trace).failed
    ensures (forall drained | PassesFlush(c, trace, zeros, drained) ::
               Execute(c, drained).writer == Execute(c, drained).stream)
       <==> Execute(c, trace).writer == Execute(c, trace).stream && zeros == []
  {
    hide Feasible, Execute, Inv, Extends;
    var s := Execute(c, trace);
    WriterIsPrefix(s);
    forall drained | PassesFlush(c, trace, zeros, drained)
      ensures s.writer <= Execute(c, drained).writer <= Execute(c, drained).stream
    {
      FlushOnlyAdds(c, trace, zeros, drained);
    }
    var stalled := FlushCanStall(c, trace, zeros);
    assert Execute(c, stalled).writer == s.writer && Execute(c, stalled).stream == s.stream + zeros;
  }

  /** A first write of up to one block, then a flush whose one upload fails: it gets through with nothing uploaded. */
  lemma FlushCanMissBytes(c: Config, data: seq<byte>) returns (trace: seq<Event>, drained: seq<Event>)
    requires c.Valid() && 0 < |data| <= c.blockSize
    ensures PassesFlush(c, trace, [], drained)
    ensures Execute(c, drained).stream == data && Execute(c, drained).writer == []
  {
    hide Feasible, Execute, Extends, Inv;
    trace := Start(c);
    ExtendsItself(trace);
    var origin := trace;
    trace := More(c, origin, trace, GetBlock(true, true));
    trace := More(c, origin, trace, Fill(data));
    drained := FlushCanStall(c, trace, []);
  }
}
