// internal/fs/fs.go: lookups in the inode index, with other threads in between.
module FileSystems {
  import opened InodeIndex
  import opened InodeRuns
  import opened Options

  // ------------------------------------------------- lookups

  /** The record can be looked up: it is sane, backed by an object, and its entry leads somewhere. */
  ghost predicate Searchable(s: State, core: Core) {
    && core.Sane() && core.backing.Object?
    && (core.name in s.generationBacked ==> s.generationBacked[core.name] < |s.objects|)
  }

  /** How a round of the retry loop ends. */
  datatype Round = Done(found: Option<Ref>, after: State) | Again(found: Option<Ref>, after: State)

  /** A round once the lock is held again and the entry is still the one seen; `found` is the result so far. */
  ghost function LookRound(s: State, core: Core, found: Option<Ref>): Round
    requires Searchable(s, core)
  {
    if core.name !in s.generationBacked then Done(Some(|s.objects|), Apply(s, MintObject(core)))
    else
      var r := s.generationBacked[core.name];
      var c := core.backing.generation.Compare(s.objects[r].generation);
      if c == 0 then Done(Some(r), s)
      else if c < 0 then Done(found, s)
      else Again(Some(|s.objects|), Apply(s, MintObject(core)))
  }

  /** A lookup that no other thread comes between: its first round, and then its count. */
  ghost predicate QuietLookup(s: State, core: Core, found: Option<Ref>, t: State)
    requires Searchable(s, core)
  {
    var r := LookRound(s, core, None);
    && found == r.found
    && if found.None? then t == r.after
       else found.value < |r.after.objects| && t == Apply(r.after, LookedUp(found.value))
  }

  /**
   * The inode found is the indexed one, has the record's generation, and never replaces one
   * that is not older.
   */
  lemma QuietLookupFindsCurrent(s: State, core: Core, found: Option<Ref>, t: State)
    requires Inv(s) && Searchable(s, core) && QuietLookup(s, core, found, t)
    ensures found.None? <==>
      && core.name in s.generationBacked
      && core.backing.generation.Compare(s.objects[s.generationBacked[core.name]].generation) < 0
    ensures found.None? ==> t == s
    ensures found.Some? ==>
      var r := found.value;
      && core.name in t.generationBacked && t.generationBacked[core.name] == r && Live(t, r)
      && t.objects[r].name == core.name
      && core.backing.generation.Compare(t.objects[r].generation) == 0
      && (t.objects[r].generation == core.backing.generation <==>
          t.objects[r].generation.size <= core.backing.generation.size)
      && (r >= |s.objects| ==> t.objects[r].generation == core.backing.generation)
      && t.objects[r].lookupCount == (if r < |s.objects| then s.objects[r].lookupCount + 1 else 1)
    ensures core.name in s.generationBacked && t.generationBacked != s.generationBacked ==>
      core.backing.generation.Compare(s.objects[s.generationBacked[core.name]].generation) > 0
  {
    var n := core.name;
    if n in s.generationBacked {
      assert Points(s.objects, s.inodes, s.generationBacked[n]);
    }
  }

  lemma MintIs(s: State, core: Core)
    requires Searchable(s, core)
    ensures Guard(s, MintObject(core)) ==>
      var t := Apply(s, MintObject(core));
      && |t.objects| == |s.objects| + 1 && t.objects[..|s.objects|] == s.objects
      && t.generationBacked == s.generationBacked[core.name := |s.objects|]
      && t.implicitDirs == s.implicitDirs && t.folders == s.folders && t.localFiles == s.localFiles
  {
  }

  lemma CountIs(s: State, r: Ref)
    requires r < |s.objects|
    ensures Guard(s, LookedUp(r))
    ensures Apply(s, LookedUp(r)) ==
      s.(objects := s.objects[r := s.objects[r].(lookupCount := s.objects[r].lookupCount + 1)])
  {
  }

  /** No other name, no other index and no other inode changes. */
  lemma QuietLookupLeavesOthers(s: State, core: Core, found: Option<Ref>, t: State)
    requires Searchable(s, core) && QuietLookup(s, core, found, t)
    ensures forall n :: n != core.name ==> (n in t.generationBacked <==> n in s.generationBacked)
    ensures forall n <- s.generationBacked :: n != core.name ==> t.generationBacked[n] == s.generationBacked[n]
    ensures t.implicitDirs == s.implicitDirs && t.folders == s.folders && t.localFiles == s.localFiles
    ensures |s.objects| <= |t.objects|
    ensures forall r :: 0 <= r < |s.objects| && found != Some(r) ==> t.objects[r] == s.objects[r]
  {
    hide Apply;
    MintIs(s, core);
    var u := LookRound(s, core, None).after;
    if found.Some? { CountIs(u, found.value); }
  }

  /** A record is older than, equal to or newer than an inode, except that a smaller size counts as equal. */
  lemma SameGeneration(g: Generation, h: Generation)
    ensures g.Compare(h) == 0 <==> g.number == h.number && g.metadata == h.metadata && g.size <= h.size
    ensures g.size >= h.size ==> (g.Compare(h) == 0 <==> g == h)
    ensures g.Compare(h) < 0 ==> h.Compare(g) > 0
  {
  }

  lemma CountAfterForget(s: State, r: Ref, n: nat)
    requires Guard(s, Forget(r, n))
    ensures r < |s.objects| && n <= s.objects[r].lookupCount
    ensures var t := s.(objects := s.objects[r := s.objects[r].(lookupCount := s.objects[r].lookupCount - n)]);
      Apply(s, Forget(r, n)) == if n == s.objects[r].lookupCount then Removed(t, r) else t
  {
  }

  lemma EntryIsLive(s: State, n: Name)
    requires Inv(s) && n in s.generationBacked
    ensures s.generationBacked[n] < |s.objects| && s.objects[s.generationBacked[n]].name == n
  {
    assert Points(s.objects, s.inodes, s.generationBacked[n]);
  }

  predicate LinkedLocal(s: State, name: Name) {
    && name in s.localFiles && s.localFiles[name] < |s.objects|
    && !s.objects[s.localFiles[name]].unlinked
  }

  lemma LocalIsLive(s: State, name: Name)
    requires Inv(s) && name in s.localFiles
    ensures s.localFiles[name] < |s.objects| && s.objects[s.localFiles[name]].name == name
  {
    assert Points(s.objects, s.inodes, s.localFiles[name]);
  }

  /**
   * What CreateLocalFile returns: the linked local file of the name, looked up once more, else
   * a new inode, or the unlinked one if there is no record for a new one.
   */
  ghost predicate LocalOutcome(s: State, t: State, core: Core, child: Option<Ref>, recordMade: bool) {
    && (child.Some? ==> child.value < |t.objects| && t.objects[child.value].name == core.name)
    && if LinkedLocal(s, core.name) then
         child == Some(s.localFiles[core.name]) && t == Apply(s, LookedUp(child.value))
       else if recordMade then child == Some(|s.objects|)
       else child == if core.name in s.localFiles then Some(s.localFiles[core.name]) else None
  }

  /** A new local file that has been looked up once. */
  function WithLocal(s: State, core: Core): State
    requires Guard(s, MintLocal(core))
  {
    var t := Apply(s, MintLocal(core));
    t.(objects := t.objects[|s.objects| := t.objects[|s.objects|].(lookupCount := 1)])
  }

  lemma WithLocalIs(s: State, core: Core)
    requires Guard(s, MintLocal(core))
    ensures var t := Apply(s, MintLocal(core));
      && |s.objects| < |t.objects| && Guard(t, LookedUp(|s.objects|))
      && Apply(t, LookedUp(|s.objects|)) == WithLocal(s, core) && LinkedLocal(WithLocal(s, core), core.name)
  {
  }

  lemma StillThere(s: State, t: State, r: Ref)
    requires Grown(s, t) && r < |s.objects|
    ensures r < |t.objects| && t.objects[r].name == s.objects[r].name
  {
  }

  lemma MintedLocal(s: State, core: Core)
    requires Guard(s, MintLocal(core))
    ensures var t := Apply(s, MintLocal(core));
      |t.objects| == |s.objects| + 1 && t.objects[|s.objects|].name == core.name && LinkedLocal(t, core.name)
  {
  }

  /** The index after a flush: kept if the file is unlinked, else the file leaves the local files. */
  function Flushed(s: State, f: Ref, synced: bool): State
    requires Guard(s, Promote(f))
  {
    if s.objects[f].unlinked then s
    else Apply(s, if synced then Promote(f) else DropLocal(s.objects[f].name))
  }

  function DirEntry(s: State, core: Core): Option<Ref> {
    var index := if core.backing.Folder? then s.folders else s.implicitDirs;
    if core.name in index then Some(index[core.name]) else None
  }

  predicate LinkedDir(s: State, core: Core) {
    var r := DirEntry(s, core);
    r.Some? && r.value < |s.objects| && !s.objects[r.value].unlinked
  }

  lemma DirIsLive(s: State, core: Core)
    requires Inv(s) && DirEntry(s, core).Some?
    ensures var r := DirEntry(s, core).value; r < |s.objects| && s.objects[r].name == core.name
  {
    assert Points(s.objects, s.inodes, DirEntry(s, core).value);
  }

  /** Neither the table nor an index leads to the inode. */
  ghost predicate Unreachable(s: State, r: Ref) {
    && (forall id <- s.inodes :: s.inodes[id] != r)
    && (forall n <- s.generationBacked :: s.generationBacked[n] != r)
    && (forall n <- s.implicitDirs :: s.implicitDirs[n] != r)
    && (forall n <- s.folders :: s.folders[n] != r)
    && (forall n <- s.localFiles :: s.localFiles[n] != r)
  }

  lemma GoneIsUnreachable(s: State, r: Ref)
    requires Inv(s) && r < |s.objects| && !Live(s, r)
    ensures Unreachable(s, r)
  {
    assert forall n <- s.generationBacked :: Points(s.objects, s.inodes, s.generationBacked[n]);
    assert forall n <- s.implicitDirs :: Points(s.objects, s.inodes, s.implicitDirs[n]);
    assert forall n <- s.folders :: Points(s.objects, s.inodes, s.folders[n]);
    assert forall n <- s.localFiles :: Points(s.objects, s.inodes, s.localFiles[n]);
  }

  /** Forgetting the last lookup leaves no way to the inode. */
  lemma ForgottenIsUnreachable(s: State, r: Ref, n: nat)
    requires Inv(s) && Guard(s, Forget(r, n)) && n == s.objects[r].lookupCount
    ensures Unreachable(Apply(s, Forget(r, n)), r)
  {
    hide Inv, Unreachable;
    StepKeepsInv(s, Forget(r, n));
    GoneIsUnreachable(Apply(s, Forget(r, n)), r);
  }

  /** The result of a lookup so far: nothing, or an inode it minted itself. */
  ghost predicate Minted(s: State, core: Core, found: Option<Ref>, first: nat) {
    found.Some? ==> first <= found.value < |s.objects| && s.objects[found.value].name == core.name
  }

  /** The record has the generation of the indexed inode. */
  ghost predicate Current(s: State, core: Core) {
    && core.backing.Object? && core.name in s.generationBacked && s.generationBacked[core.name] < |s.objects|
    && core.backing.generation.Compare(s.objects[s.generationBacked[core.name]].generation) == 0
  }

  /**
   * What a lookup returns, whatever other threads did: the indexed inode if the record has
   * its generation, and otherwise, the record being older, nothing or an inode that the
   * lookup minted itself and that has been replaced since, and perhaps destroyed.
   */
  ghost predicate LookedUpAs(s: State, core: Core, found: Option<Ref>, first: nat) {
    && core.backing.Object? && core.name in s.generationBacked && s.generationBacked[core.name] < |s.objects|
    && var r := s.generationBacked[core.name];
       if Current(s, core) then found == Some(r) && s.objects[r].name == core.name
       else core.backing.generation.Compare(s.objects[r].generation) < 0 && Minted(s, core, found, first)
  }

  lemma StillMinted(s: State, t: State, core: Core, found: Option<Ref>, first: nat)
    requires Minted(s, core, found, first) && Grown(s, t)
    ensures Minted(t, core, found, first)
  {
  }

  lemma RoundOutcome(s: State, core: Core, found: Option<Ref>, first: nat)
    requires Inv(s) && Searchable(s, core) && Minted(s, core, found, first) && first <= |s.objects|
    ensures match LookRound(s, core, found)
      case Done(f, t) => LookedUpAs(t, core, f, first)
      case Again(f, t) =>
        && !Current(s, core) && Current(t, core) && f == Some(t.generationBacked[core.name])
        && Minted(t, core, f, first)
    ensures Current(s, core) ==> LookRound(s, core, found) == Done(Some(s.generationBacked[core.name]), s)
  {
    if core.name in s.generationBacked { EntryIsLive(s, core.name); }
  }

  /**
   * With another thread in between, a lookup of an old record can return an inode that is
   * no longer indexed: a first round mints it, a newer record replaces it while the lock is
   * dropped, and a later round then leaves with the first one's result.
   */
  lemma InterruptedLookupCanReturnUnindexed(s: State, older: Core, newer: Core)
    requires Searchable(s, older) && Outdated(s, older) && newer.Sane() && newer.backing.Object?
    requires older.name == newer.name && older.backing.generation.Compare(newer.backing.generation) < 0
    ensures var minted := Some(|s.objects|);
      var t := Apply(s, MintObject(older));
      && LookRound(s, older, None) == Again(minted, t)
      && Guard(t, MintObject(newer))
      && var u := Apply(t, MintObject(newer));
         && Searchable(u, older) && LookRound(u, older, minted) == Done(minted, u)
         && Some(u.generationBacked[older.name]) != minted
  {
  }

  /**
   * It can even return an inode that is gone: others find the inode that the first round
   * minted, forget it again, and index a newer record.
   */
  lemma InterruptedLookupCanReturnDestroyed(s: State, older: Core, newer: Core)
    requires Inv(s) && Searchable(s, older) && Outdated(s, older) && newer.Sane() && newer.backing.Object?
    requires older.name == newer.name && older.backing.generation.Compare(newer.backing.generation) < 0
    ensures var r := |s.objects|;
      var t := Apply(s, MintObject(older));
      && LookRound(s, older, None) == Again(Some(r), t) && Guard(t, LookedUp(r))
      && var u := Apply(t, LookedUp(r));
         && Guard(u, Forget(r, 1))
         && var v := Apply(u, Forget(r, 1));
            && Guard(v, MintObject(newer))
            && var w := Apply(v, MintObject(newer));
               Searchable(w, older) && LookRound(w, older, Some(r)) == Done(Some(r), w) && !Live(w, r)
  {
    hide ImplicitIndexed, Indexed;
  }

  /** A file that is flushed and promoted is the one that a lookup of its new generation finds. */
  lemma FlushedIsFound(s: State, f: Ref, generation: Generation, core: Core)
    requires Inv(s) && Guard(s, Changed(f, generation)) && s.objects[f].kind == File
    requires core.name == s.objects[f].name && core.backing == Object(generation, false)
    requires core.name in s.generationBacked ==> Holds(s, GenerationBacked, f)
    ensures var t := Apply(s, Changed(f, generation));
      && Guard(t, Promote(f))
      && var u := Apply(t, Promote(f));
         && Searchable(u, core) && LookRound(u, core, None) == Done(Some(f), u) && core.name !in u.localFiles
  {
    hide Inv;
  }

  /** A forget leaves the entries of other inodes alone, and all of them unless it is the last. */
  lemma OthersKeepEntries(s: State, r: Ref, n: nat, ix: Index, q: Ref)
    requires Inv(s) && Guard(s, Forget(r, n)) && (q != r || n != s.objects[r].lookupCount)
    ensures Holds(Apply(s, Forget(r, n)), ix, q) <==> Holds(s, ix, q)
  {
    hide Inv, Apply;
    StepMovesEntry(s, Forget(r, n), ix, q);
    StepGrows(s, Forget(r, n));
  }

  class FileSystem {
    const root: Name
    var nextInodeID: InodeId
    var objects: seq<Inode>
    var inodes: map<InodeId, Ref>
    var generationBackedInodes: map<Name, Ref>
    var implicitDirInodes: map<Name, Ref>
    var folderInodes: map<Name, Ref>
    var localFileInodes: map<Name, Ref>
    ghost var trace: seq<Event>

    function View(): State
      reads this
    {
      State(nextInodeID, objects, inodes, generationBackedInodes, implicitDirInodes, folderInodes, localFileInodes)
    }

    ghost predicate Valid()
      reads this
    {
      Feasible(root, trace) && Execute(root, trace) == View()
    }

    constructor (root: Name)
      requires root.IsDir()
      ensures Valid() && View() == Init(root)
      ensures Holds(View(), ImplicitDirs, 0) && Holds(View(), Folders, 0) && Live(View(), 0)
      ensures |objects| == 1 && objects[0].id == ROOT_INODE_ID && objects[0].name == root && objects[0].lookupCount == 1
    {
      this.root := root;
      var s := Init(root);
      nextInodeID, objects, inodes := s.nextInodeID, s.objects, s.inodes;
      generationBackedInodes, implicitDirInodes := s.generationBacked, s.implicitDirs;
      folderInodes, localFileInodes, trace := s.folders, s.localFiles, [];
    }

    ghost method Record(ev: Event)
      requires Feasible(root, trace) && Guard(Execute(root, trace), ev) && View() == Apply(Execute(root, trace), ev)
      modifies this`trace
      ensures Valid() && trace == old(trace) + [ev]
    {
      hide Inv, Guard, Apply;
      ExtendTrace(root, trace, ev);
      trace := trace + [ev];
    }

    /** Other threads run any critical sections of theirs. */
    method OtherThreads()
      requires Valid()
      modifies this
      ensures Valid() && Grown(old(View()), View())
    {
      hide Feasible, Execute, Inv;
      var rounds: nat := *;
      while rounds > 0
        invariant Valid() && Grown(old(View()), View())
      {
        var ev: Event := *;
        if Guard(View(), ev) {
          StepGrows(View(), ev);
          var t := Apply(View(), ev);
          nextInodeID, objects, inodes := t.nextInodeID, t.objects, t.inodes;
          generationBackedInodes, implicitDirInodes := t.generationBacked, t.implicitDirs;
          folderInodes, localFileInodes := t.folders, t.localFiles;
          Record(ev);
        }
        rounds := rounds - 1;
      }
    }

    method MintInode(core: Core) returns (r: Ref)
      modifies this`nextInodeID, this`objects, this`inodes
      ensures View() == Mint(old(View()), core) && r == |old(objects)|
    {
      var id := nextInodeID;
      nextInodeID := nextInodeID + 1;
      r := |objects|;
      var generation := if core.backing.Object? then core.backing.generation else Generation(0, 0, 0);
      objects := objects + [Inode(id, core.name, KindOf(core), generation, 0, false)];
      inodes := inodes[id := r];
    }

    method IncrementLookupCount(r: Ref)
      requires Valid() && r < |objects|
      modifies this`objects, this`trace
      ensures Valid() && View() == Apply(old(View()), LookedUp(r))
    {
      hide Feasible, Execute, Inv;
      objects := objects[r := objects[r].(lookupCount := objects[r].lookupCount + 1)];
      Record(LookedUp(r));
    }

    method MintBacked(core: Core) returns (r: Ref)
      requires Valid() && Guard(View(), MintObject(core))
      modifies this`nextInodeID, this`objects, this`inodes, this`generationBackedInodes, this`trace
      ensures Valid() && View() == Apply(old(View()), MintObject(core)) && r == |old(objects)|
    {
      hide Feasible, Execute, Inv;
      r := MintInode(core);
      generationBackedInodes := generationBackedInodes[objects[r].name := r];
      Record(MintObject(core));
    }

    /** The part of a round after the lock is taken back. */
    method LookAgain(core: Core, found: Option<Ref>) returns (done: bool, next: Option<Ref>)
      requires Valid() && Searchable(View(), core)
      modifies this`nextInodeID, this`objects, this`inodes, this`generationBackedInodes, this`trace
      ensures Valid() && Grown(old(View()), View())
      ensures LookRound(old(View()), core, found) == if done then Done(next, View()) else Again(next, View())
    {
      hide Feasible, Execute, Inv, Mint, GrownTo;
      GrownItself(View());
      var oGen := core.backing.generation;
      if core.name in generationBackedInodes {
        var existing := generationBackedInodes[core.name];
        var cmp := oGen.Compare(objects[existing].generation);
        if cmp == 0 {
          return true, Some(existing);
        }
        if cmp == -1 {
          return true, found;
        }
      }
      done := core.name !in generationBackedInodes;
      StepGrows(View(), MintObject(core));
      var r := MintBacked(core);
      next := Some(r);
    }

    /**
     * The retry loop of lookUpOrCreateInodeIfNotStale for a record backed by an object.
     * `interruptions` bounds how often other threads get in while the lock is dropped.
     */
    method LookUpObject(core: Core, interruptions: nat) returns (found: Option<Ref>, rounds: nat)
      requires Valid() && Searchable(View(), core)
      modifies this
      ensures Valid() && Grown(old(View()), View())
      ensures LookedUpAs(View(), core, found, |old(objects)|)
      ensures interruptions == 0 ==> rounds <= 2
      ensures interruptions == 0 ==>
        var r := LookRound(old(View()), core, None); found == r.found && View() == r.after
    {
      hide Feasible, Execute, Inv, Apply, Mint, LookRound, GrownTo;
      ghost var first := LookRound(View(), core, None);
      var left := interruptions;
      found, rounds := None, 0;
      GrownItself(View());
      while true
        invariant Valid() && Grown(old(View()), View()) && left <= interruptions
        invariant Minted(View(), core, found, |old(objects)|)
        invariant interruptions == 0 ==> rounds <= 1
        invariant interruptions == 0 && rounds == 0 ==> View() == old(View()) && found == None
        invariant interruptions == 0 && rounds == 1 ==>
          && first == Again(found, View()) && Current(View(), core)
          && found == Some(generationBackedInodes[core.name])
        decreases left, if Current(View(), core) then 0 else 1
      {
        rounds := rounds + 1;
        if core.name in generationBackedInodes && left > 0 {
          var existing := generationBackedInodes[core.name];
          left := left - 1;
          ghost var before := View();
          OtherThreads();
          GrownTwice(old(View()), before, View());
          StillMinted(before, View(), core, found, |old(objects)|);
          if !(core.name in generationBackedInodes && generationBackedInodes[core.name] == existing) {
            continue;
          }
        }
        if core.name in generationBackedInodes { EntryIsLive(View(), core.name); }
        ghost var before := View();
        GrownSize(old(View()), before);
        RoundOutcome(before, core, found, |old(objects)|);
        var done;
        done, found := LookAgain(core, found);
        GrownTwice(old(View()), before, View());
        if done {
          return;
        }
      }
    }

    method MintDirectory(core: Core) returns (r: Ref)
      requires Valid() && Guard(View(), MintDir(core))
      modifies this`nextInodeID, this`objects, this`inodes, this`folderInodes, this`implicitDirInodes, this`trace
      ensures Valid() && View() == Apply(old(View()), MintDir(core)) && r == |old(objects)|
    {
      hide Feasible, Execute, Inv;
      r := MintInode(core);
      if core.backing.Folder? {
        folderInodes := folderInodes[core.name := r];
      } else {
        implicitDirInodes := implicitDirInodes[core.name := r];
      }
      Record(MintDir(core));
    }

    /** createDirInode: at most three tries, one if no other thread comes between. */
    method CreateDirInode(core: Core, interruptions: nat) returns (found: Option<Ref>)
      requires Valid() && core.Sane() && (core.backing.Folder? || core.backing.Implicit?)
      modifies this
      ensures Valid() && Grown(old(View()), View())
      ensures found.Some? ==> DirEntry(View(), core) == found
      ensures interruptions < 3 ==> found.Some?
      ensures interruptions == 0 ==>
        if LinkedDir(old(View()), core) then found == DirEntry(old(View()), core) && View() == old(View())
        else Guard(old(View()), MintDir(core)) && View() == Apply(old(View()), MintDir(core))
    {
      hide Feasible, Execute, Inv, Mint;
      GrownItself(View());
      var left, tries := interruptions, 0;
      while tries < 3
        invariant Valid() && Grown(old(View()), View()) && 0 <= tries <= 3 && left <= interruptions
        invariant interruptions == 0 ==> tries == 0 && View() == old(View())
        invariant 0 <= left && tries <= interruptions - left
      {
        tries := tries + 1;
        var index := if core.backing.Folder? then folderInodes else implicitDirInodes;
        if core.name in index { DirIsLive(View(), core); }
        if core.name !in index || objects[index[core.name]].unlinked {
          StepGrows(View(), MintDir(core));
          GrownTwice(old(View()), View(), Apply(View(), MintDir(core)));
          var r := MintDirectory(core);
          return Some(r);
        }
        var existing := index[core.name];
        if left > 0 {
          left := left - 1;
          ghost var before := View();
          OtherThreads();
          GrownTwice(old(View()), before, View());
        }
        index := if core.backing.Folder? then folderInodes else implicitDirInodes;
        if core.name in index && index[core.name] == existing {
          return Some(existing);
        }
      }
      found := None;
    }

    /** Returns nil only for a record older than the inode, if no other thread comes between. */
    method LookUpOrCreateInodeIfNotStale(core: Core, interruptions: nat) returns (found: Option<Ref>, rounds: nat)
      requires Valid() && core.Sane() && !core.backing.Local?
      modifies this
      ensures Valid() && Grown(old(View()), View())
      ensures found.Some? ==> found.value < |objects| && objects[found.value].name == core.name
      ensures core.backing.Object? ==> LookedUpAs(View(), core, found, |old(objects)|)
      ensures interruptions == 0 ==> rounds <= 2
      ensures interruptions == 0 && core.backing.Object? ==>
        Searchable(old(View()), core) && QuietLookup(old(View()), core, found, View())
      ensures interruptions < 3 && !core.backing.Object? ==> found.Some?
    {
      hide Feasible, Execute, Inv, Mint, LookRound, GrownTo;
      if core.backing.Object? {
        if core.name in generationBackedInodes { EntryIsLive(View(), core.name); }
        found, rounds := LookUpObject(core, interruptions);
      } else {
        found := CreateDirInode(core, interruptions);
        rounds := 1;
        if found.Some? { DirIsLive(View(), core); }
      }
      if found.Some? {
        StepGrows(View(), LookedUp(found.value));
        GrownTwice(old(View()), View(), Apply(View(), LookedUp(found.value)));
        IncrementLookupCount(found.value);
      }
    }

    method MintLocalFile(core: Core) returns (r: Ref)
      requires Valid() && Guard(View(), MintLocal(core))
      modifies this`nextInodeID, this`objects, this`inodes, this`localFileInodes, this`trace
      ensures Valid() && View() == Apply(old(View()), MintLocal(core)) && r == |old(objects)|
    {
      hide Feasible, Execute, Inv;
      r := MintInode(core);
      localFileInodes := localFileInodes[core.name := r];
      Record(MintLocal(core));
    }

    method ForgetLocalName(name: Name)
      requires Valid()
      modifies this`localFileInodes, this`trace
      ensures Valid() && View() == Apply(old(View()), DropLocal(name)) && Grown(old(View()), View())
      ensures name !in localFileInodes
    {
      hide Feasible, Execute, Inv;
      StepGrows(View(), DropLocal(name));
      localFileInodes := localFileInodes - {name};
      Record(DropLocal(name));
    }

    method NewLocalFile(core: Core, interrupted: bool, writerReady: bool) returns (child: Ref)
      requires Valid() && Guard(View(), MintLocal(core))
      modifies this
      ensures Valid() && Grown(old(View()), View())
      ensures child == |old(objects)| < |objects| && objects[child].name == core.name
      ensures !writerReady ==> core.name !in localFileInodes
      ensures writerReady && !interrupted ==> View() == Apply(old(View()), MintLocal(core))
    {
      hide Feasible, Execute, Inv, Mint, GrownTo;
      StepGrows(View(), MintLocal(core));
      MintedLocal(View(), core);
      child := MintLocalFile(core);
      ghost var minted := View();
      if interrupted {
        OtherThreads();
        GrownTwice(old(View()), minted, View());
        StillThere(minted, View(), child);
      }
      if !writerReady {
        ghost var before := View();
        ForgetLocalName(core.name);
        GrownTwice(old(View()), before, View());
      }
    }

    /** The part of CreateLocalFile for a name without a local file, or with an unlinked one. */
    method ReplaceLocalFile(core: Core, existing: Option<Ref>, recordMade: bool, interrupted: bool, writerReady: bool)
      returns (child: Option<Ref>)
      requires Valid() && Guard(View(), MintLocal(core))
      requires existing == if core.name in localFileInodes then Some(localFileInodes[core.name]) else None
      requires existing.Some? ==> existing.value < |objects| && objects[existing.value].name == core.name
      modifies this
      ensures Valid() && Grown(old(View()), View())
      ensures child == if recordMade then Some(|old(objects)|) else existing
      ensures child.Some? ==> child.value < |objects| && objects[child.value].name == core.name
      ensures !(recordMade && writerReady) ==> core.name !in localFileInodes
      ensures recordMade && writerReady && !interrupted ==> View() == Apply(old(View()), MintLocal(core))
    {
      hide Feasible, Execute, Inv, Mint, GrownTo, Apply, Guard;
      GrownItself(View());
      child := existing;
      if recordMade {
        var minted := NewLocalFile(core, interrupted, writerReady);
        child := Some(minted);
      } else if existing.Some? {
        ForgetLocalName(core.name);
      }
    }

    /**
     * A local file of that name that is not unlinked is found again; otherwise a new one
     * takes its place.  If its record or its writer cannot be made, no local file has the
     * name, and without a record what is returned is the unlinked one, if any.
     */
    method CreateLocalFile(core: Core, recordMade: bool, interrupted: bool, writerReady: bool)
      returns (child: Option<Ref>, ok: bool)
      requires Valid() && core.Sane() && core.backing.Local?
      modifies this
      ensures Valid() && Grown(old(View()), View())
      ensures ok == (LinkedLocal(old(View()), core.name) || (recordMade && writerReady)) && (ok ==> child.Some?)
      ensures LocalOutcome(old(View()), View(), core, child, recordMade)
      ensures !ok ==> core.name !in localFileInodes
      ensures !LinkedLocal(old(View()), core.name) && ok && !interrupted ==>
        && Guard(old(View()), MintLocal(core)) && View() == WithLocal(old(View()), core)
        && LinkedLocal(View(), core.name)
    {
      hide Feasible, Execute, Inv, Mint, GrownTo, Apply;
      GrownItself(View());
      ok := true;
      child := None;
      if core.name in localFileInodes {
        LocalIsLive(View(), core.name);
        child := Some(localFileInodes[core.name]);
      }
      if child.None? || objects[child.value].unlinked {
        WithLocalIs(View(), core);
        ok := recordMade && writerReady;
        child := ReplaceLocalFile(core, child, recordMade, interrupted, writerReady);
      }
      if child.Some? {
        CountIs(View(), child.value);
        StepGrows(View(), LookedUp(child.value));
        GrownTwice(old(View()), View(), Apply(View(), LookedUp(child.value)));
        IncrementLookupCount(child.value);
      }
    }

    method PromoteToGenerationBacked(f: Ref)
      requires Valid() && Guard(View(), Promote(f))
      modifies this`localFileInodes, this`generationBackedInodes, this`trace
      ensures Valid() && View() == Apply(old(View()), Promote(f))
      ensures var name := objects[f].name;
        && name !in localFileInodes && name in generationBackedInodes
        && (if name in old(generationBackedInodes) then generationBackedInodes == old(generationBackedInodes)
            else generationBackedInodes == old(generationBackedInodes)[name := f])
    {
      hide Feasible, Execute, Inv;
      var name := objects[f].name;
      localFileInodes := localFileInodes - {name};
      if name !in generationBackedInodes {
        generationBackedInodes := generationBackedInodes[name := f];
      }
      Record(Promote(f));
    }

    /**
     * `synced` is whether the inode's own flush succeeds.  If it does, the name is indexed as
     * backed afterwards, by this inode unless another one holds it.
     */
    method FlushFile(f: Ref, synced: bool)
      requires Valid() && Guard(View(), Promote(f))
      modifies this`localFileInodes, this`generationBackedInodes, this`trace
      ensures Valid()
      ensures View() == Flushed(old(View()), f, synced)
      ensures !objects[f].unlinked ==> objects[f].name !in localFileInodes
      ensures synced && !objects[f].unlinked ==>
        && objects[f].name in generationBackedInodes
        && (Holds(View(), GenerationBacked, f) <==>
              objects[f].name !in old(generationBackedInodes) || Holds(old(View()), GenerationBacked, f))
      ensures !synced || objects[f].unlinked ==> generationBackedInodes == old(generationBackedInodes)
      ensures forall ix, r: Ref :: ix != LocalFiles && r != f ==> (Holds(View(), ix, r) <==> Holds(old(View()), ix, r))
    {
      hide Feasible, Execute, Inv;
      if objects[f].unlinked {
        return;
      }
      if synced {
        PromoteToGenerationBacked(f);
      } else {
        ForgetLocalName(objects[f].name);
      }
    }

    method RemoveEntries(r: Ref)
      requires r < |objects|
      modifies this`inodes, this`generationBackedInodes, this`implicitDirInodes, this`folderInodes, this`localFileInodes
      ensures View() == Removed(old(View()), r)
    {
      var name := objects[r].name;
      inodes := inodes - {objects[r].id};
      if name in generationBackedInodes && generationBackedInodes[name] == r {
        generationBackedInodes := generationBackedInodes - {name};
      }
      if name in implicitDirInodes && implicitDirInodes[name] == r {
        implicitDirInodes := implicitDirInodes - {name};
      }
      if name in localFileInodes && localFileInodes[name] == r {
        localFileInodes := localFileInodes - {name};
      }
      if name in folderInodes && folderInodes[name] == r {
        folderInodes := folderInodes - {name};
      }
    }

    /** An inode whose count reaches zero leaves the table and every index that points to it. */
    method UnlockAndDecrementLookupCount(r: Ref, n: nat) returns (destroyed: bool)
      requires Valid() && Guard(View(), Forget(r, n))
      modifies this`objects, this`inodes, this`generationBackedInodes, this`implicitDirInodes
      modifies this`folderInodes, this`localFileInodes, this`trace
      ensures Valid() && View() == Apply(old(View()), Forget(r, n))
      ensures destroyed <==> n == old(objects)[r].lookupCount
      ensures destroyed ==> Unreachable(View(), r)
      ensures objects == old(objects)[r := old(objects)[r].(lookupCount := old(objects)[r].lookupCount - n)]
      ensures forall ix, q: Ref :: q != r || !destroyed ==> (Holds(View(), ix, q) <==> Holds(old(View()), ix, q))
    {
      hide Feasible, Execute, Inv, Unreachable, Guard, Holds;
      CountAfterForget(View(), r, n);
      objects := objects[r := objects[r].(lookupCount := objects[r].lookupCount - n)];
      destroyed := objects[r].lookupCount == 0;
      if destroyed {
        RemoveEntries(r);
      }
      Record(Forget(r, n));
      if destroyed { ForgottenIsUnreachable(old(View()), r, n); }
      forall ix, q: Ref | q != r || !destroyed ensures Holds(View(), ix, q) <==> Holds(old(View()), ix, q) {
        OthersKeepEntries(old(View()), r, n, ix, q);
      }
    }
  }
}
