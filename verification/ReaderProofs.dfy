// Every interleaving of reads, callbacks, seeks and downloads keeps the invariant.
module ReaderProofs {
  import opened Bytes
  import opened Blocks
  import opened BlockPools
  import opened ReaderState

  // ------------------------------------------------- what the invariant says of one block

  lemma InUseBlock(s: State, b: BlockId)
    requires Inv(s) && b in s.holder
    ensures b < |s.blocks| && s.holder[b] < |s.entries| && s.entries[s.holder[b]].block == b
    ensures Faithful(s.cfg, s.blocks[b]) && (b in s.tasks <==> !s.blocks[b].Settled())
    ensures s.blocks[b].refCount == s.inflight[s.holder[b]] + s.leaked[s.holder[b]]
    ensures |s.pool.free| < s.pool.maxBlocks && Consistent(s.entries, s.holder)
  {
    assert s.holder.Keys != {};
  }

  lemma QueuedBlock(s: State, i: int)
    requires Inv(s) && 0 <= i < |s.queue|
    ensures s.queue[i] < |s.entries| && !s.entries[s.queue[i]].wasEvicted
    ensures var b := s.entries[s.queue[i]].block; b in s.holder && s.holder[b] == s.queue[i]
  {
    var b := s.entries[s.queue[i]].block;
    assert Live(s.entries, s.holder, s.queue[i]);
    assert s.holder[b] in s.queue;
  }

  lemma TaskBlock(s: State, b: BlockId)
    requires Inv(s) && b in s.tasks
    ensures b in s.holder
  {
  }

  lemma ReferencedBlock(s: State, e: EntryId)
    requires Inv(s) && (e in s.inflight || e in s.leaked)
    ensures e < |s.entries|
    ensures var b := s.entries[e].block; b in s.holder && s.holder[b] == e
  {
    assert Live(s.entries, s.holder, e);
  }

  lemma FaithfulBounds(c: Config, b: PrefetchBlock)
    requires Faithful(c, b)
    ensures 0 <= b.absStartOff && b.mem.capacity == c.blockSize
    ensures b.absStartOff + b.mem.Size() <= c.Limit(b.absStartOff)
  {
  }

  /** No reachable step panics or fails inside. */
  lemma GuardIsSafe(s: State, ev: Event)
    requires Inv(s) && Guard(s, ev)
    ensures Safe(s, ev)
  {
    hide Faithful, Partition, Counted, Owned, Referenced, InFile, Consistent;
    match ev
    case Discard =>
      QueuedBlock(s, 0);
      InUseBlock(s, s.entries[s.queue[0]].block);
    case Callback(e) =>
      ReferencedBlock(s, e);
      InUseBlock(s, s.entries[e].block);
    case Download(b, count) =>
      TaskBlock(s, b);
      InUseBlock(s, b);
      FaithfulBounds(s.cfg, s.blocks[b]);
    case Notify(b, ok) =>
      TaskBlock(s, b);
      InUseBlock(s, b);
    case _ =>
  }

  // ------------------------------------------------- steps that change one block

  lemma OwnedAfterUpdate(c: Config, holder: map<BlockId, EntryId>, blocks: seq<PrefetchBlock>,
                         tasks: set<BlockId>, b: BlockId, blk: PrefetchBlock)
    requires Owned(c, holder, blocks, tasks) && b in holder && Faithful(c, blk)
    ensures Owned(c, holder, blocks[b := blk], if blk.Settled() then tasks - {b} else tasks + {b})
  {
  }

  lemma RefsAfterUpdate(entries: seq<Entry>, holder: map<BlockId, EntryId>, blocks: seq<PrefetchBlock>,
                        inflight: multiset<EntryId>, leaked: multiset<EntryId>,
                        b: BlockId, blk: PrefetchBlock)
    requires Referenced(entries, holder, blocks, inflight, leaked)
    requires b < |blocks| && blk.refCount == blocks[b].refCount
    ensures Referenced(entries, holder, blocks[b := blk], inflight, leaked)
  {
  }

  lemma WindowAfterUpdate(c: Config, next: int, queue: seq<EntryId>, entries: seq<Entry>,
                          blocks: seq<PrefetchBlock>, b: BlockId, blk: PrefetchBlock)
    requires Window(c, next, queue, entries, blocks)
    requires b < |blocks| && blk.absStartOff == blocks[b].absStartOff
    ensures Window(c, next, queue, entries, blocks[b := blk])
  {
  }

  /** A settled or unsettled block in use may change as long as it stays faithful. */
  lemma UpdateKeepsInv(s: State, b: BlockId, blk: PrefetchBlock)
    requires Inv(s) && b in s.holder && b < |s.blocks|
    requires Faithful(s.cfg, blk)
    requires blk.refCount == s.blocks[b].refCount && blk.absStartOff == s.blocks[b].absStartOff
    ensures Inv(s.(blocks := s.blocks[b := blk], tasks := if blk.Settled() then s.tasks - {b} else s.tasks + {b}))
  {
    OwnedAfterUpdate(s.cfg, s.holder, s.blocks, s.tasks, b, blk);
    RefsAfterUpdate(s.entries, s.holder, s.blocks, s.inflight, s.leaked, b, blk);
  }

  lemma AwaitedIsFaithful(c: Config, blk: PrefetchBlock)
    requires Faithful(c, blk) && blk.Settled()
    ensures Faithful(c, blk.AwaitReady())
  {
  }

  lemma AwaitKeepsInv(s: State, e: EntryId)
    requires Inv(s) && Guard(s, Await(e))
    ensures Inv(Apply(s, Await(e)))
  {
    hide Faithful, Partition, Counted, Owned, Referenced, InFile, Consistent;
    var i :| 0 <= i < |s.queue| && s.queue[i] == e;
    QueuedBlock(s, i);
    var b := s.entries[e].block;
    InUseBlock(s, b);
    assert s.tasks == s.tasks - {b};
    AwaitedIsFaithful(s.cfg, s.blocks[b]);
    UpdateKeepsInv(s, b, s.blocks[b].AwaitReady());
  }

  lemma DownloadedIsFaithful(s: State, b: BlockId, count: nat)
    requires WellFormed(s) && Guard(s, Download(b, count)) && Safe(s, Download(b, count))
    requires Faithful(s.cfg, s.blocks[b]) && !s.blocks[b].Settled()
    ensures Faithful(s.cfg, s.blocks[b].(mem := WithChunk(s, b, count).value))
  {
    var at := s.blocks[b].absStartOff + s.blocks[b].mem.Size();
    assert s.cfg.content[s.blocks[b].absStartOff .. at] + s.cfg.content[at .. at + count]
        == s.cfg.content[s.blocks[b].absStartOff .. at + count];
  }

  lemma DownloadKeepsInv(s: State, b: BlockId, count: nat)
    requires Inv(s) && Guard(s, Download(b, count)) && Safe(s, Download(b, count))
    ensures Inv(Apply(s, Download(b, count)))
  {
    hide Faithful, Partition, Counted, Owned, Referenced, InFile, Consistent;
    TaskBlock(s, b);
    InUseBlock(s, b);
    DownloadedIsFaithful(s, b, count);
    assert s.tasks == s.tasks + {b};
    UpdateKeepsInv(s, b, s.blocks[b].(mem := WithChunk(s, b, count).value));
  }

  lemma NotifiedIsFaithful(c: Config, blk: PrefetchBlock, ok: bool)
    requires Faithful(c, blk) && !blk.Settled()
    requires ok ==> blk.absStartOff + blk.mem.Size() == c.Limit(blk.absStartOff)
    ensures Faithful(c, blk.NotifyReady(if ok then Downloaded else DownloadFailed))
  {
  }

  lemma NotifyKeepsInv(s: State, b: BlockId, ok: bool)
    requires Inv(s) && Guard(s, Notify(b, ok)) && Safe(s, Notify(b, ok))
    ensures Inv(Apply(s, Notify(b, ok)))
  {
    hide Faithful, Partition, Counted, Owned, Referenced, InFile, Consistent;
    TaskBlock(s, b);
    InUseBlock(s, b);
    NotifiedIsFaithful(s.cfg, s.blocks[b], ok);
    UpdateKeepsInv(s, b, s.blocks[b].NotifyReady(if ok then Downloaded else DownloadFailed));
  }

  // ------------------------------------------------- references

  /** One more or one fewer reference to the entry that holds block `b`. */
  lemma RefsAfterCount(entries: seq<Entry>, holder: map<BlockId, EntryId>, blocks: seq<PrefetchBlock>,
                       inflight: multiset<EntryId>, leaked: multiset<EntryId>,
                       b: BlockId, blk: PrefetchBlock, count: nat)
    requires Referenced(entries, holder, blocks, inflight, leaked)
    requires Consistent(entries, holder)
    requires b in holder && blk.refCount == count + leaked[holder[b]]
    requires entries[holder[b]].wasEvicted ==> blk.refCount > 0
    ensures Referenced(entries, holder, blocks[b := blk], inflight[holder[b] := count], leaked)
  {
  }

  lemma FaithfulWithCount(c: Config, blk: PrefetchBlock, count: int)
    requires Faithful(c, blk) && (count > 0 ==> blk.status == Downloaded)
    ensures Faithful(c, blk.(refCount := count))
  {
  }

  lemma RecountKeepsInv(s: State, b: BlockId, blk: PrefetchBlock, count: nat)
    requires Inv(s) && b in s.holder && b < |s.blocks|
    requires blk == s.blocks[b].(refCount := count + s.leaked[s.holder[b]])
    requires blk.refCount > 0 ==> blk.status == Downloaded
    requires s.entries[s.holder[b]].wasEvicted ==> blk.refCount > 0
    ensures Inv(s.(blocks := s.blocks[b := blk], inflight := s.inflight[s.holder[b] := count]))
  {
    hide Faithful, Partition, Counted, Owned, Referenced, InFile, Consistent;
    InUseBlock(s, b);
    FaithfulWithCount(s.cfg, s.blocks[b], blk.refCount);
    assert s.tasks == if blk.Settled() then s.tasks - {b} else s.tasks + {b};
    OwnedAfterUpdate(s.cfg, s.holder, s.blocks, s.tasks, b, blk);
    RefsAfterCount(s.entries, s.holder, s.blocks, s.inflight, s.leaked, b, blk, count);
  }

  lemma TakeRefKeepsInv(s: State)
    requires Inv(s) && Guard(s, TakeRef)
    ensures Inv(Apply(s, TakeRef))
  {
    hide Faithful, Partition, Counted, Owned, Referenced, InFile, Consistent;
    var e := s.queue[0];
    var b := s.entries[e].block;
    QueuedBlock(s, 0);
    InUseBlock(s, b);
    assert s.inflight + multiset{e} == s.inflight[e := s.inflight[e] + 1];
    RecountKeepsInv(s, b, s.blocks[b].(refCount := s.blocks[b].refCount + 1), s.inflight[e] + 1);
  }

  lemma LeakKeepsInv(s: State, refs: multiset<EntryId>)
    requires Inv(s) && Guard(s, Leak(refs))
    ensures Inv(Apply(s, Leak(refs)))
  {
    var t := Apply(s, Leak(refs));
  }

  // ------------------------------------------------- blocks that are given back

  lemma PopAndFree(queue: seq<EntryId>, entries: seq<Entry>, holder: map<BlockId, EntryId>,
                   free: seq<BlockId>, count: nat)
    requires Partition(queue, entries, holder, free, count) && queue != []
    ensures var b := entries[queue[0]].block;
            Partition(queue[1..], entries, holder - {b}, free + [b], count)
  {
    var b := entries[queue[0]].block;
    assert b !in free;
    assert forall i :: 0 <= i < |queue[1..]| ==> queue[1..][i] == queue[i + 1];
    var holder', free' := holder - {b}, free + [b];
    forall c: BlockId | c < count ensures c in free' <==> c !in holder' {
      if c in free { assert c in free'; }
      if c == b { assert free'[|free|] == b; }
    }
    forall c | c in holder' ensures holder'[c] in queue[1..] <==> !entries[holder'[c]].wasEvicted {
      if holder[c] in queue { assert holder[c] != queue[0]; }
    }
  }

  lemma PopAndEvict(queue: seq<EntryId>, entries: seq<Entry>, holder: map<BlockId, EntryId>,
                    free: seq<BlockId>, count: nat)
    requires Partition(queue, entries, holder, free, count) && queue != []
    ensures var e := queue[0];
            Partition(queue[1..], entries[e := entries[e].(wasEvicted := true)], holder, free, count)
  {
    assert forall i :: 0 <= i < |queue[1..]| ==> queue[1..][i] == queue[i + 1];
    var e := queue[0];
    var entries' := entries[e := entries[e].(wasEvicted := true)];
    forall c | c in holder ensures holder[c] in queue[1..] <==> !entries'[holder[c]].wasEvicted {
      if holder[c] in queue && holder[c] != e { assert holder[c] in queue[1..]; }
    }
  }

  lemma FreeEvicted(queue: seq<EntryId>, entries: seq<Entry>, holder: map<BlockId, EntryId>,
                    free: seq<BlockId>, count: nat, b: BlockId)
    requires Partition(queue, entries, holder, free, count)
    requires b in holder && entries[holder[b]].wasEvicted
    ensures Partition(queue, entries, holder - {b}, free + [b], count)
  {
    assert b !in free;
    var holder', free' := holder - {b}, free + [b];
    forall c: BlockId | c < count ensures c in free' <==> c !in holder' {
      if c in free { assert c in free'; }
      if c == b { assert free'[|free|] == b; }
    }
    forall i | 0 <= i < |queue| ensures Live(entries, holder', queue[i]) {
      assert holder[b] != queue[i];
    }
  }

  lemma OwnedWithout(c: Config, holder: map<BlockId, EntryId>, blocks: seq<PrefetchBlock>,
                     tasks: set<BlockId>, b: BlockId)
    requires Owned(c, holder, blocks, tasks) && b !in tasks
    ensures Owned(c, holder - {b}, blocks, tasks)
  {
  }

  lemma RefsWithout(entries: seq<Entry>, holder: map<BlockId, EntryId>, blocks: seq<PrefetchBlock>,
                    inflight: multiset<EntryId>, leaked: multiset<EntryId>, b: BlockId)
    requires Referenced(entries, holder, blocks, inflight, leaked)
    requires b in holder && inflight[holder[b]] + leaked[holder[b]] == 0
    ensures Referenced(entries, holder - {b}, blocks, inflight, leaked)
  {
    forall e | e in inflight ensures Live(entries, holder - {b}, e) {
      assert Live(entries, holder, e);
      assert e != holder[b];
    }
    forall e | e in leaked ensures Live(entries, holder - {b}, e) {
      assert Live(entries, holder, e);
      assert e != holder[b];
    }
  }

  lemma RefsAfterEvict(entries: seq<Entry>, holder: map<BlockId, EntryId>, blocks: seq<PrefetchBlock>,
                       inflight: multiset<EntryId>, leaked: multiset<EntryId>, e: EntryId)
    requires Referenced(entries, holder, blocks, inflight, leaked)
    requires Live(entries, holder, e) && blocks[entries[e].block].refCount > 0
    requires Consistent(entries, holder)
    ensures Referenced(entries[e := entries[e].(wasEvicted := true)], holder, blocks, inflight, leaked)
  {
    var entries' := entries[e := entries[e].(wasEvicted := true)];
    forall f | f in inflight || f in leaked ensures Live(entries', holder, f) {
      assert Live(entries, holder, f);
    }
  }

  lemma OneFewer(holder: map<BlockId, EntryId>, b: BlockId)
    requires b in holder
    ensures |holder - {b}| == |holder| - 1
  {
    assert (holder - {b}).Keys == holder.Keys - {b};
  }

  lemma WindowAfterPop(c: Config, next: int, queue: seq<EntryId>, entries: seq<Entry>,
                       blocks: seq<PrefetchBlock>, flag: bool)
    requires Window(c, next, queue, entries, blocks) && queue != []
    ensures var e := queue[0];
            Window(c, next, queue[1..], entries[e := entries[e].(wasEvicted := flag)], blocks)
  {
    assert forall i :: 0 <= i < |queue[1..]| ==> queue[1..][i] == queue[i + 1];
  }

  lemma DiscardKeepsInv(s: State)
    requires Inv(s) && Guard(s, Discard) && Safe(s, Discard)
    ensures Inv(Apply(s, Discard))
  {
    hide Faithful, Partition, Referenced, Owned, InFile, Consistent;
    var e := s.queue[0];
    var b := s.entries[e].block;
    QueuedBlock(s, 0);
    InUseBlock(s, b);
    if s.blocks[b].refCount > 0 {
      PopAndEvict(s.queue, s.entries, s.holder, s.pool.free, |s.blocks|);
      RefsAfterEvict(s.entries, s.holder, s.blocks, s.inflight, s.leaked, e);
    } else {
      assert s.entries == s.entries[e := s.entries[e].(wasEvicted := false)];
      PopAndFree(s.queue, s.entries, s.holder, s.pool.free, |s.blocks|);
      OwnedWithout(s.cfg, s.holder, s.blocks, s.tasks, b);
      RefsWithout(s.entries, s.holder, s.blocks, s.inflight, s.leaked, b);
      OneFewer(s.holder, b);
    }
  }

  /** The last reference to an evicted entry is given back. */
  lemma RefsAfterLast(entries: seq<Entry>, holder: map<BlockId, EntryId>, blocks: seq<PrefetchBlock>,
                      inflight: multiset<EntryId>, leaked: multiset<EntryId>,
                      b: BlockId, blk: PrefetchBlock)
    requires Referenced(entries, holder, blocks, inflight, leaked) && Consistent(entries, holder)
    requires b in holder && holder[b] in inflight && blocks[b].refCount == 1
    ensures Referenced(entries, holder - {b}, blocks[b := blk], inflight - multiset{holder[b]}, leaked)
  {
    var e := holder[b];
    var inflight' := inflight - multiset{e};
    forall f | f in inflight' || f in leaked ensures Live(entries, holder - {b}, f) {
      assert Live(entries, holder, f);
      assert f != e;
    }
    forall c | c in holder - {b} ensures holder[c] != e {
      assert entries[holder[c]].block == c;
    }
  }

  lemma SettledByReference(c: Config, b: PrefetchBlock)
    requires Faithful(c, b) && b.refCount > 0
    ensures b.Settled() && b.status == Downloaded
  {
  }

  lemma CallbackKeepsInv(s: State, e: EntryId)
    requires Inv(s) && Guard(s, Callback(e)) && Safe(s, Callback(e))
    ensures Inv(Apply(s, Callback(e)))
  {
    hide Faithful, Partition, Owned, Referenced, InFile, Consistent;
    ReferencedBlock(s, e);
    var b := s.entries[e].block;
    InUseBlock(s, b);
    var blk := s.blocks[b].(refCount := s.blocks[b].refCount - 1);
    if s.blocks[b].refCount == 1 && s.entries[e].wasEvicted {
      SettledByReference(s.cfg, s.blocks[b]);
      FaithfulWithCount(s.cfg, s.blocks[b], 0);
      OwnedAfterUpdate(s.cfg, s.holder, s.blocks, s.tasks, b, blk);
      assert s.tasks == s.tasks - {b};
      OwnedWithout(s.cfg, s.holder, s.blocks[b := blk], s.tasks, b);
        FreeEvicted(s.queue, s.entries, s.holder, s.pool.free, |s.blocks|, b);
      RefsAfterLast(s.entries, s.holder, s.blocks, s.inflight, s.leaked, b, blk);
      OneFewer(s.holder, b);
    } else {
      SettledByReference(s.cfg, s.blocks[b]);
      assert s.inflight - multiset{e} == s.inflight[e := s.inflight[e] - 1];
      RecountKeepsInv(s, b, blk, s.inflight[e] - 1);
    }
  }

  // ------------------------------------------------- a block is scheduled

  /** Only block `b` changed, and it may be a new one. */
  ghost predicate ChangedAt(blocks: seq<PrefetchBlock>, b: BlockId, blocks': seq<PrefetchBlock>) {
    && (|blocks'| == |blocks| || (|blocks'| == |blocks| + 1 && b == |blocks|))
    && b < |blocks'|
    && forall i :: 0 <= i < |blocks| && i != b ==> blocks'[i] == blocks[i]
  }

  ghost predicate ChangedTo(blocks: seq<PrefetchBlock>, b: BlockId, blk: PrefetchBlock, blocks': seq<PrefetchBlock>) {
    ChangedAt(blocks, b, blocks') && blocks'[b] == blk
  }

  ghost predicate AllLive(queue: seq<EntryId>, entries: seq<Entry>, holder: map<BlockId, EntryId>) {
    forall i :: 0 <= i < |queue| ==> Live(entries, holder, queue[i])
  }

  /** The free blocks are those not in use and other than `b`. */
  ghost predicate FreeOthers(holder: map<BlockId, EntryId>, b: BlockId, free: seq<BlockId>, count: nat) {
    && (forall c: BlockId :: c < count ==> (c in free <==> c !in holder && c != b))
    && (forall i, j :: 0 <= i < j < |free| ==> free[i] != free[j])
  }

  lemma PartitionAfterSchedule(queue: seq<EntryId>, entries: seq<Entry>, holder: map<BlockId, EntryId>,
                               free: seq<BlockId>, count: nat, b: BlockId, free': seq<BlockId>, count': nat)
    requires Partition(queue, entries, holder, free, count)
    requires b !in holder && b < count' && count <= count'
    requires FreeOthers(holder, b, free', count')
    ensures Partition(queue + [|entries|], entries + [Entry(b, false)], holder[b := |entries|], free', count')
  {
    var queue', entries' := queue + [|entries|], entries + [Entry(b, false)];
    var holder' := holder[b := |entries|];
    forall c | c in holder' ensures holder'[c] in queue' <==> !entries'[holder'[c]].wasEvicted {
      if c == b {
        assert queue'[|queue|] == |entries|;
      } else if holder[c] in queue {
        var i :| 0 <= i < |queue| && queue[i] == holder[c];
        assert queue'[i] == holder[c];
      }
    }
    forall i | 0 <= i < |queue'| ensures Live(entries', holder', queue'[i]) {
      if i < |queue| { assert Live(entries, holder, queue[i]); }
    }
  }

  lemma OwnedAfterSchedule(c: Config, holder: map<BlockId, EntryId>, blocks: seq<PrefetchBlock>,
                           tasks: set<BlockId>, b: BlockId, e: EntryId, blocks': seq<PrefetchBlock>)
    requires Owned(c, holder, blocks, tasks) && b !in holder
    requires ChangedAt(blocks, b, blocks') && Faithful(c, blocks'[b]) && !blocks'[b].Settled()
    ensures Owned(c, holder[b := e], blocks', tasks + {b})
  {
    forall i | 0 <= i < |blocks'| ensures blocks'[i].mem.capacity == c.blockSize {
      if i != b { assert blocks'[i] == blocks[i]; }
    }
  }

  lemma RefsAfterSchedule(entries: seq<Entry>, holder: map<BlockId, EntryId>, blocks: seq<PrefetchBlock>,
                          inflight: multiset<EntryId>, leaked: multiset<EntryId>,
                          b: BlockId, blocks': seq<PrefetchBlock>)
    requires Referenced(entries, holder, blocks, inflight, leaked) && Consistent(entries, holder)
    requires b !in holder && ChangedAt(blocks, b, blocks') && blocks'[b].refCount == 0
    ensures Referenced(entries + [Entry(b, false)], holder[b := |entries|], blocks', inflight, leaked)
  {
    var entries', holder' := entries + [Entry(b, false)], holder[b := |entries|];
    forall f | f in inflight || f in leaked ensures Live(entries', holder', f) && f != |entries| {
      assert Live(entries, holder, f);
    }
  }

  lemma WindowAfterSchedule(c: Config, next: int, queue: seq<EntryId>, entries: seq<Entry>,
                            holder: map<BlockId, EntryId>, blocks: seq<PrefetchBlock>,
                            b: BlockId, blocks': seq<PrefetchBlock>)
    requires Window(c, next, queue, entries, blocks) && next < BlockCount(c.Size(), c.blockSize)
    requires AllLive(queue, entries, holder) && b !in holder && ChangedAt(blocks, b, blocks')
    requires blocks'[b].absStartOff == StartOf(next, c.blockSize)
    ensures Window(c, next + 1, queue + [|entries|], entries + [Entry(b, false)], blocks')
  {
    hide StartOf, BlockCount;
    var queue', entries' := queue + [|entries|], entries + [Entry(b, false)];
    forall i | 0 <= i < |queue'|
      ensures queue'[i] < |entries'| && entries'[queue'[i]].block < |blocks'|
      ensures blocks'[entries'[queue'[i]].block].absStartOff
           == StartOf(next + 1 - |queue'| + i, c.blockSize)
    {
      if i < |queue| {
        assert Live(entries, holder, queue[i]);
        assert entries[queue[i]].block != b;
      }
    }
  }

  /** The granted block is not in use, and the free list loses just that block. */
  lemma GrantedBlock(s: State, permit: bool, mapped: bool)
    requires Inv(s) && Guard(s, Schedule(permit, mapped))
    ensures var (g, pool) := TryGet(s.pool, permit, mapped);
      && g.id !in s.holder && (if g.Created? then g.id == |s.blocks| else g.id < |s.blocks|)
      && pool.created == (if g.Created? then |s.blocks| + 1 else |s.blocks|)
      && FreeOthers(s.holder, g.id, pool.free, pool.created)
      && (g.Reused? ==> s.blocks[g.id].mem.capacity == s.cfg.blockSize)
  {
    var (g, pool) := TryGet(s.pool, permit, mapped);
    if g.Reused? { assert g.id in s.pool.free; }
    forall c: BlockId | c < pool.created ensures c in pool.free <==> c !in s.holder && c != g.id {
      if g.Reused? && c in s.pool.free && c != g.id {
        var i :| 0 <= i < |s.pool.free| && s.pool.free[i] == c;
        assert pool.free[i - 1] == c;
      }
    }
  }

  lemma StartedIsFaithful(s: State, g: Grant)
    requires WellFormed(s) && Granted(g) && 0 <= s.next < BlockCount(s.cfg.Size(), s.cfg.blockSize)
    requires g.Reused? ==> g.id < |s.blocks| && s.blocks[g.id].mem.capacity == s.cfg.blockSize
    requires StartedBlock(s, g).Ok?
    ensures var b := StartedBlock(s, g).value;
      && Faithful(s.cfg, b) && !b.Settled() && b.refCount == 0
      && b.absStartOff == StartOf(s.next, s.cfg.blockSize)
  {
    InsideData(s.next, s.cfg.Size(), s.cfg.blockSize);
    Covering(StartOf(s.next, s.cfg.blockSize), s.next, s.cfg.blockSize);
  }

  lemma ScheduledBlocks(s: State, permit: bool, mapped: bool)
    requires Inv(s) && Guard(s, Schedule(permit, mapped)) && Safe(s, Schedule(permit, mapped))
    ensures var g, t := TryGet(s.pool, permit, mapped).0, Apply(s, Schedule(permit, mapped));
      ChangedTo(s.blocks, g.id, StartedBlock(s, g).value, t.blocks) && |t.blocks| == t.pool.created
  {
    hide Faithful, Partition, Owned, Referenced, InFile, Consistent, FreeOthers;
    GrantedBlock(s, permit, mapped);
  }

  lemma QueueIsLive(s: State)
    requires Inv(s)
    ensures AllLive(s.queue, s.entries, s.holder)
  {
  }

  lemma ScheduledIsWellFormed(s: State, permit: bool, mapped: bool)
    requires Inv(s) && Guard(s, Schedule(permit, mapped)) && Safe(s, Schedule(permit, mapped))
    ensures WellFormed(Apply(s, Schedule(permit, mapped)))
  {
    hide Faithful, Partition, Counted, Owned, Referenced, InFile, FreeOthers, StartedBlock;
    ScheduledBlocks(s, permit, mapped);
  }

  lemma ScheduledCounts(s: State, permit: bool, mapped: bool)
    requires Inv(s) && Guard(s, Schedule(permit, mapped)) && Safe(s, Schedule(permit, mapped))
    ensures var t := Apply(s, Schedule(permit, mapped)); Counted(t.cfg, t.queue, t.holder, t.pool)
  {
    hide Faithful, Partition, Owned, Referenced, InFile, FreeOthers, WellFormed, StartedBlock;
    GrantedBlock(s, permit, mapped);
    var g := TryGet(s.pool, permit, mapped).0;
    assert s.holder[g.id := |s.entries|].Keys == s.holder.Keys + {g.id};
  }

  lemma ConsistentHolder(s: State)
    requires Inv(s)
    ensures Consistent(s.entries, s.holder)
  {
  }

  lemma ScheduleKeepsInv(s: State, permit: bool, mapped: bool)
    requires Inv(s) && Guard(s, Schedule(permit, mapped)) && Safe(s, Schedule(permit, mapped))
    ensures Inv(Apply(s, Schedule(permit, mapped)))
  {
    hide Faithful, Partition, Counted, Owned, Referenced, Consistent, FreeOthers, ChangedAt, StartedBlock;
    var (g, pool) := TryGet(s.pool, permit, mapped);
    var t := Apply(s, Schedule(permit, mapped));
    ScheduledBlocks(s, permit, mapped);
    ScheduledIsWellFormed(s, permit, mapped);
    ScheduledCounts(s, permit, mapped);
    hide WellFormed;
    GrantedBlock(s, permit, mapped);
    StartedIsFaithful(s, g);
    ConsistentHolder(s);
    PartitionAfterSchedule(s.queue, s.entries, s.holder, s.pool.free, |s.blocks|, g.id, pool.free, |t.blocks|);
    OwnedAfterSchedule(s.cfg, s.holder, s.blocks, s.tasks, g.id, |s.entries|, t.blocks);
    RefsAfterSchedule(s.entries, s.holder, s.blocks, s.inflight, s.leaked, g.id, t.blocks);
  }

  // ------------------------------------------------- every step

  lemma RestartKeepsInv(s: State, index: int)
    requires Inv(s) && Guard(s, Restart(index))
    ensures Inv(Apply(s, Restart(index)))
  {
  }

  lemma StepKeepsInv(s: State, ev: Event)
    requires Inv(s) && Guard(s, ev) && Safe(s, ev)
    ensures Inv(Apply(s, ev))
  {
    hide Inv, Safe, Guard, Apply;
    match ev
    case Restart(index) => RestartKeepsInv(s, index);
    case Schedule(permit, mapped) => ScheduleKeepsInv(s, permit, mapped);
    case Await(e) => AwaitKeepsInv(s, e);
    case Discard => DiscardKeepsInv(s);
    case TakeRef => TakeRefKeepsInv(s);
    case Callback(e) => CallbackKeepsInv(s, e);
    case Leak(refs) => LeakKeepsInv(s, refs);
    case Download(b, count) => DownloadKeepsInv(s, b, count);
    case Notify(b, ok) => NotifyKeepsInv(s, b, ok);
  }

  // ------------------------------------------------- the window

  lemma WindowAfterRestart(s: State, index: int)
    requires Inv(s) && Windowed(s) && Guard(s, Restart(index))
    ensures Windowed(Apply(s, Restart(index))) <==> s.queue == [] || index == s.next
  {
    hide Partition, Counted, Owned, Referenced, Faithful, Consistent, StartOf, BlockCount;
    if s.queue != [] && index != s.next && |s.queue| <= index {
      var i, j := index - |s.queue|, s.next - |s.queue|;
      if i < j {
        StartsAreMonotone(i, j, s.cfg.blockSize);
      } else {
        StartsAreMonotone(j, i, s.cfg.blockSize);
      }
      assert s.blocks[s.entries[s.queue[0]].block].absStartOff == StartOf(j + 0, s.cfg.blockSize);
    }
  }

  lemma ScheduleKeepsWindow(s: State, permit: bool, mapped: bool)
    requires Inv(s) && Windowed(s) && Guard(s, Schedule(permit, mapped)) && Safe(s, Schedule(permit, mapped))
    ensures Windowed(Apply(s, Schedule(permit, mapped)))
  {
    hide Faithful, Partition, Counted, Owned, Referenced, Window, InFile, Consistent, FreeOthers, ChangedAt, AllLive;
    var g, t := TryGet(s.pool, permit, mapped).0, Apply(s, Schedule(permit, mapped));
    ScheduledBlocks(s, permit, mapped);
    GrantedBlock(s, permit, mapped);
    StartedIsFaithful(s, g);
    QueueIsLive(s);
    WindowAfterSchedule(s.cfg, s.next, s.queue, s.entries, s.holder, s.blocks, g.id, t.blocks);
  }

  /** Every step keeps the window contiguous, save a restart elsewhere under a queue, which never does. */
  lemma StepKeepsWindow(s: State, ev: Event)
    requires Inv(s) && Windowed(s) && Guard(s, ev) && Safe(s, ev)
    ensures Windowed(Apply(s, ev)) <==> (ev.Restart? ==> s.queue == [] || ev.index == s.next)
  {
    hide Faithful, Partition, Counted, Owned, Referenced, Window, InFile, Consistent;
    match ev
    case Restart(index) => WindowAfterRestart(s, index);
    case Schedule(permit, mapped) => ScheduleKeepsWindow(s, permit, mapped);
    case Await(e) =>
      var b := s.entries[e].block;
      WindowAfterUpdate(s.cfg, s.next, s.queue, s.entries, s.blocks, b, s.blocks[b].AwaitReady());
    case Discard =>
      var b := s.entries[s.queue[0]].block;
      var head := s.entries[s.queue[0]];
      assert s.entries == s.entries[s.queue[0] := head.(wasEvicted := head.wasEvicted)];
      WindowAfterPop(s.cfg, s.next, s.queue, s.entries, s.blocks, head.wasEvicted);
      WindowAfterPop(s.cfg, s.next, s.queue, s.entries, s.blocks, true);
    case TakeRef =>
      var b := s.entries[s.queue[0]].block;
      WindowAfterUpdate(s.cfg, s.next, s.queue, s.entries, s.blocks, b, Apply(s, ev).blocks[b]);
    case Callback(e) =>
      var b := s.entries[e].block;
      WindowAfterUpdate(s.cfg, s.next, s.queue, s.entries, s.blocks, b, Apply(s, ev).blocks[b]);
    case Leak(_) =>
    case Download(b, _) =>
      WindowAfterUpdate(s.cfg, s.next, s.queue, s.entries, s.blocks, b, Apply(s, ev).blocks[b]);
    case Notify(b, _) =>
      WindowAfterUpdate(s.cfg, s.next, s.queue, s.entries, s.blocks, b, Apply(s, ev).blocks[b]);
  }
}
