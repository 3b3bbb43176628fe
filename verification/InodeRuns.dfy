// internal/fs/fs.go: what holds of the inode index after any sequence of critical sections.
module InodeRuns {
  import opened InodeIndex

  ghost predicate Feasible(root: Name, trace: seq<Event>)
    decreases |trace|, 0
  {
    && root.IsDir()
    && (trace != [] ==>
          && Feasible(root, trace[..|trace| - 1])
          && Guard(Execute(root, trace[..|trace| - 1]), trace[|trace| - 1]))
  }

  /** The index after any sequence of critical sections: its documented invariants hold. */
  ghost function Execute(root: Name, trace: seq<Event>): (s: State)
    requires Feasible(root, trace)
    ensures Inv(s)
    decreases |trace|, 1
  {
    if trace == [] then Init(root)
    else
      var s, ev := Execute(root, trace[..|trace| - 1]), trace[|trace| - 1];
      StepKeepsInv(s, ev);
      Apply(s, ev)
  }

  lemma LastStep(root: Name, trace: seq<Event>)
    requires Feasible(root, trace) && trace != []
    ensures var front, ev := trace[..|trace| - 1], trace[|trace| - 1];
      && Feasible(root, front) && Guard(Execute(root, front), ev)
      && Execute(root, trace) == Apply(Execute(root, front), ev)
  {
    hide Inv, Guard;
  }

  lemma StartsEmpty(root: Name)
    requires Feasible(root, [])
    ensures Execute(root, []) == Init(root)
  {
  }

  lemma ExtendTrace(root: Name, trace: seq<Event>, ev: Event)
    requires Feasible(root, trace) && Guard(Execute(root, trace), ev)
    ensures Feasible(root, trace + [ev]) && Execute(root, trace + [ev]) == Apply(Execute(root, trace), ev)
  {
    hide Inv, Guard;
    assert (trace + [ev])[..|trace|] == trace;
  }

  // ------------------------------------------------- identities

  /** Old inodes keep their ID and name, and later ones get IDs that were never handed out. */
  ghost predicate GrownTo(objects: seq<Inode>, next: InodeId, objects': seq<Inode>, next': InodeId) {
    && |objects| <= |objects'| && next <= next'
    && (forall r :: 0 <= r < |objects| ==> objects'[r].id == objects[r].id && objects'[r].name == objects[r].name)
    && (forall r :: |objects| <= r < |objects'| ==> next <= objects'[r].id)
  }

  ghost predicate Grown(s: State, t: State) {
    GrownTo(s.objects, s.nextInodeID, t.objects, t.nextInodeID)
  }

  lemma AppendGrows(objects: seq<Inode>, next: InodeId, minted: Inode)
    requires minted.id == next
    ensures GrownTo(objects, next, objects + [minted], next + 1)
  {
  }

  lemma UpdateGrows(objects: seq<Inode>, next: InodeId, r: Ref, updated: Inode)
    requires r < |objects| && updated.id == objects[r].id && updated.name == objects[r].name
    ensures GrownTo(objects, next, objects[r := updated], next) && GrownTo(objects, next, objects, next)
  {
  }

  lemma GrownItself(s: State)
    ensures Grown(s, s)
  {
  }

  lemma GrownSize(s: State, t: State)
    requires Grown(s, t)
    ensures |s.objects| <= |t.objects|
  {
  }

  lemma GrownTwice(r: State, s: State, t: State)
    requires Grown(r, s) && Grown(s, t)
    ensures Grown(r, t)
  {
  }

  lemma StepGrows(s: State, ev: Event)
    requires Guard(s, ev)
    ensures Grown(s, Apply(s, ev))
  {
    hide GrownTo, Outdated;
    var t := Apply(s, ev);
    match ev
    case MintObject(_) => AppendGrows(s.objects, s.nextInodeID, t.objects[|s.objects|]);
    case MintDir(_) => AppendGrows(s.objects, s.nextInodeID, t.objects[|s.objects|]);
    case MintLocal(_) => AppendGrows(s.objects, s.nextInodeID, t.objects[|s.objects|]);
    case LookedUp(r) => UpdateGrows(s.objects, s.nextInodeID, r, t.objects[r]);
    case Forget(r, _) => UpdateGrows(s.objects, s.nextInodeID, r, t.objects[r]);
    case Changed(r, _) => UpdateGrows(s.objects, s.nextInodeID, r, t.objects[r]);
    case Unlinked(r) => UpdateGrows(s.objects, s.nextInodeID, r, t.objects[r]);
    case Promote(_) => GrownItself(s);
    case DropLocal(_) => GrownItself(s);
  }

  lemma {:induction false} IdsAreNeverReused(root: Name, trace: seq<Event>, from: nat)
    requires Feasible(root, trace) && from <= |trace| && Feasible(root, trace[..from])
    ensures Grown(Execute(root, trace[..from]), Execute(root, trace))
    decreases |trace|
  {
    hide Feasible, Execute, Inv;
    if from == |trace| {
      assert trace[..from] == trace;
    } else {
      LastStep(root, trace);
      var front := trace[..|trace| - 1];
      assert front[..from] == trace[..from];
      IdsAreNeverReused(root, front, from);
      StepGrows(Execute(root, front), trace[|trace| - 1]);
    }
  }

  // ------------------------------------------------- generations in the index

  /** No older in any respect that Compare looks at. */
  predicate AtLeast(g: Generation, h: Generation) {
    || g.number > h.number
    || (g.number == h.number && (g.metadata > h.metadata || (g.metadata == h.metadata && g.size >= h.size)))
  }

  predicate HasEntry(s: State, name: Name) {
    name in s.generationBacked && s.generationBacked[name] < |s.objects|
  }

  function EntryGeneration(s: State, name: Name): Generation
    requires HasEntry(s, name)
  {
    s.objects[s.generationBacked[name]].generation
  }

  lemma StepKeepsUpToDate(s: State, ev: Event, name: Name)
    requires Guard(s, ev) && HasEntry(s, name) && HasEntry(Apply(s, ev), name)
    ensures AtLeast(EntryGeneration(Apply(s, ev), name), EntryGeneration(s, name))
  {
  }

  /** While a name stays indexed, its entry is never replaced by a stale one and never goes back. */
  lemma {:induction false} EntryStaysUpToDate(root: Name, trace: seq<Event>, from: nat, name: Name)
    requires Feasible(root, trace) && from <= |trace|
    requires forall k :: from <= k <= |trace| ==>
      Feasible(root, trace[..k]) && HasEntry(Execute(root, trace[..k]), name)
    ensures HasEntry(Execute(root, trace[..from]), name) && HasEntry(Execute(root, trace), name)
    ensures AtLeast(EntryGeneration(Execute(root, trace), name), EntryGeneration(Execute(root, trace[..from]), name))
    decreases |trace|
  {
    hide Feasible, Execute, Inv, HasEntry;
    assert trace[..|trace|] == trace;
    if from < |trace| {
      var front := trace[..|trace| - 1];
      LastStep(root, trace);
      assert forall k :: from <= k <= |front| ==> front[..k] == trace[..k];
      assert front[..|front|] == front;
      EntryStaysUpToDate(root, front, from, name);
      StepKeepsUpToDate(Execute(root, front), trace[|trace| - 1], name);
    }
  }

  // ------------------------------------------------- who has an entry

  /** The table of inodes and the four indexes. */
  datatype Index = Inodes | GenerationBacked | ImplicitDirs | Folders | LocalFiles

  function Names(s: State, ix: Index): map<Name, Ref> {
    match ix
    case Inodes => map[]
    case GenerationBacked => s.generationBacked
    case ImplicitDirs => s.implicitDirs
    case Folders => s.folders
    case LocalFiles => s.localFiles
  }

  /** The table leads to the inode by its ID, or the index by its name. */
  predicate Holds(s: State, ix: Index, r: Ref) {
    r < |s.objects| && if ix == Inodes then Live(s, r) else Leads(s.objects, Names(s, ix), r)
  }

  /** The index that a minted inode is entered in. */
  function HomeOf(backing: Backing): Index {
    match backing
    case Object(_, _) => GenerationBacked
    case Folder => Folders
    case Implicit => ImplicitDirs
    case Local => LocalFiles
  }

  /** A new inode gets its entries, and a flushed file one among the backed if its name has none. */
  predicate Gives(s: State, ev: Event, ix: Index, r: Ref) {
    match ev
    case MintObject(core) => r == |s.objects| && ix in {Inodes, HomeOf(core.backing)}
    case MintDir(core) => r == |s.objects| && ix in {Inodes, HomeOf(core.backing)}
    case MintLocal(core) => r == |s.objects| && ix in {Inodes, HomeOf(core.backing)}
    case Promote(f) =>
      r == f < |s.objects| && ix == GenerationBacked && s.objects[f].name !in s.generationBacked
    case _ => false
  }

  /** Entries are taken by a new inode of the name, by the last forget, and among local files by name. */
  predicate Takes(s: State, ev: Event, ix: Index, r: Ref)
    requires r < |s.objects|
  {
    match ev
    case MintObject(core) => ix == HomeOf(core.backing) && core.name == s.objects[r].name
    case MintDir(core) => ix == HomeOf(core.backing) && core.name == s.objects[r].name
    case MintLocal(core) => ix == HomeOf(core.backing) && core.name == s.objects[r].name
    case Promote(f) => ix == LocalFiles && f < |s.objects| && s.objects[f].name == s.objects[r].name
    case DropLocal(name) => ix == LocalFiles && name == s.objects[r].name
    case Forget(q, n) => q == r && n == s.objects[r].lookupCount
    case _ => false
  }

  predicate HoldsAfter(s: State, ev: Event, ix: Index, r: Ref) {
    Gives(s, ev, ix, r) || (r < |s.objects| && Holds(s, ix, r) && !Takes(s, ev, ix, r))
  }

  lemma EntriesAreBounded(s: State, ix: Index)
    requires Inv(s)
    ensures forall n <- Names(s, ix) :: Names(s, ix)[n] < |s.objects|
  {
    hide Table, ImplicitIndexed;
  }

  lemma NewEntry(objects: seq<Inode>, minted: Inode, index: map<Name, Ref>, r: Ref)
    requires r <= |objects| && forall n <- index :: index[n] < |objects|
    ensures Leads(objects + [minted], index, r) <==> r < |objects| && Leads(objects, index, r)
    ensures Leads(objects + [minted], index[minted.name := |objects|], r) <==>
      r == |objects| || (Leads(objects, index, r) && minted.name != objects[r].name)
  {
  }

  lemma NewInode(s: State, core: Core, r: Ref)
    requires Table(s.nextInodeID, s.objects, s.inodes)
    ensures Live(Mint(s, core), r) <==> r == |s.objects| || Live(s, r)
  {
    hide KindOf;
  }

  lemma MintKeepsNames(s: State, core: Core, ix: Index)
    ensures Names(Mint(s, core), ix) == Names(s, ix)
  {
    hide KindOf;
  }

  /** A new inode is entered in the table and in the index of its kind. */
  lemma MintedNames(s: State, ev: Event, ix: Index)
    requires Guard(s, ev) && (ev.MintObject? || ev.MintDir? || ev.MintLocal?)
    ensures var t := Apply(s, ev);
      && t.objects == Mint(s, ev.core).objects && t.inodes == Mint(s, ev.core).inodes
      && Names(t, ix) ==
           if ix == HomeOf(ev.core.backing) then Names(s, ix)[ev.core.name := |s.objects|] else Names(s, ix)
  {
    hide Outdated, Replaceable, KindOf, Mint;
    MintKeepsNames(s, ev.core, ix);
    match ev
    case MintObject(_) =>
    case MintDir(_) =>
    case MintLocal(_) =>
  }

  lemma MintMoves(s: State, ev: Event, ix: Index, r: Ref)
    requires Inv(s) && Guard(s, ev) && (ev.MintObject? || ev.MintDir? || ev.MintLocal?)
    ensures Holds(Apply(s, ev), ix, r) <==> HoldsAfter(s, ev, ix, r)
  {
    hide Guard, Apply, KindOf, Leads, Table, Indexed, ImplicitIndexed, Names;
    MintedNames(s, ev, ix);
    NewInode(s, ev.core, r);
    EntriesAreBounded(s, ix);
    if r <= |s.objects| { NewEntry(s.objects, Mint(s, ev.core).objects[|s.objects|], Names(s, ix), r); }
  }

  lemma EntryRemoved(objects: seq<Inode>, left: Inode, index: map<Name, Ref>, q: Ref, r: Ref)
    requires q < |objects| && r < |objects| && left.name == objects[q].name
    ensures Leads(objects[q := left], index, r) <==> Leads(objects, index, r)
    ensures Leads(objects[q := left], Without(index, left.name, q), r) <==> Leads(objects, index, r) && q != r
  {
  }

  lemma InodeRemoved(s: State, left: Inode, q: Ref, r: Ref)
    requires Table(s.nextInodeID, s.objects, s.inodes) && Live(s, q) && left.id == s.objects[q].id
    ensures Points(s.objects[q := left], s.inodes, r) <==> Live(s, r)
    ensures Points(s.objects[q := left], s.inodes - {left.id}, r) <==> Live(s, r) && q != r
  {
  }

  /** The table and the indexes without an inode. */
  function Removed(s: State, r: Ref): State
    requires r < |s.objects|
  {
    var name := s.objects[r].name;
    s.(inodes := s.inodes - {s.objects[r].id},
       generationBacked := Without(s.generationBacked, name, r), implicitDirs := Without(s.implicitDirs, name, r),
       localFiles := Without(s.localFiles, name, r), folders := Without(s.folders, name, r))
  }

  /** An inode that changes in place, and one that goes, leave the entries of the others alone. */
  lemma UpdateMoves(s: State, q: Ref, left: Inode, ix: Index, r: Ref)
    requires Table(s.nextInodeID, s.objects, s.inodes) && q < |s.objects| && Live(s, q)
    requires left.id == s.objects[q].id && left.name == s.objects[q].name
    ensures var t := s.(objects := s.objects[q := left]);
      && (Holds(t, ix, r) <==> Holds(s, ix, r))
      && (Holds(Removed(t, q), ix, r) <==> Holds(s, ix, r) && q != r)
  {
    hide Table, Leads, Points, Without;
    if r < |s.objects| {
      InodeRemoved(s, left, q, r);
      EntryRemoved(s.objects, left, Names(s, ix), q, r);
    }
  }

  lemma ForgetMoves(s: State, q: Ref, n: nat, ix: Index, r: Ref)
    requires Table(s.nextInodeID, s.objects, s.inodes) && Guard(s, Forget(q, n))
    ensures Holds(Apply(s, Forget(q, n)), ix, r) <==> HoldsAfter(s, Forget(q, n), ix, r)
  {
    hide Table, Leads, Without;
    UpdateMoves(s, q, s.objects[q].(lookupCount := s.objects[q].lookupCount - n), ix, r);
  }

  lemma CountMoves(s: State, q: Ref, ix: Index, r: Ref)
    requires q < |s.objects|
    ensures Holds(Apply(s, LookedUp(q)), ix, r) <==> Holds(s, ix, r)
  {
  }

  /** Exactly which steps give an inode an entry and which take it, for each index. */
  lemma StepMovesEntry(s: State, ev: Event, ix: Index, r: Ref)
    requires Inv(s) && Guard(s, ev)
    ensures Holds(Apply(s, ev), ix, r) <==> HoldsAfter(s, ev, ix, r)
  {
    hide Table, Indexed, ImplicitIndexed;
    match ev
    case MintObject(_) => MintMoves(s, ev, ix, r);
    case MintDir(_) => MintMoves(s, ev, ix, r);
    case MintLocal(_) => MintMoves(s, ev, ix, r);
    case Forget(q, n) => ForgetMoves(s, q, n, ix, r);
    case LookedUp(q) => CountMoves(s, q, ix, r);
    case Changed(q, generation) => UpdateMoves(s, q, s.objects[q].(generation := generation), ix, r);
    case Unlinked(q) => UpdateMoves(s, q, s.objects[q].(unlinked := true), ix, r);
    case Promote(_) =>
    case DropLocal(_) =>
  }

  /** A new inode takes the place of an older generation or of an unlinked inode only. */
  lemma OnlyOutdatedReplaced(s: State, ev: Event, ix: Index, r: Ref)
    requires Guard(s, ev) && Holds(s, ix, r) && Takes(s, ev, ix, r)
    ensures ev.MintObject? ==> ev.core.backing.generation.Compare(s.objects[r].generation) > 0
    ensures ev.MintDir? || ev.MintLocal? ==> s.objects[r].unlinked
  {
  }

  /** The entry was there from the start, or is given by step `k - 1`. */
  ghost predicate GivenAt(root: Name, trace: seq<Event>, k: nat, ix: Index, r: Ref) {
    if k == 0 then Holds(Init(root), ix, r)
    else k <= |trace| && Feasible(root, trace[..k - 1]) && Gives(Execute(root, trace[..k - 1]), trace[k - 1], ix, r)
  }

  ghost predicate TakenAt(root: Name, trace: seq<Event>, k: nat, ix: Index, r: Ref) {
    && k < |trace| && Feasible(root, trace[..k])
    && var s := Execute(root, trace[..k]); r < |s.objects| && Takes(s, trace[k], ix, r)
  }

  ghost predicate KeptSince(root: Name, trace: seq<Event>, k: nat, ix: Index, r: Ref) {
    k <= |trace| && GivenAt(root, trace, k, ix, r) && forall j :: k <= j < |trace| ==> !TakenAt(root, trace, j, ix, r)
  }

  lemma KeptInFront(root: Name, trace: seq<Event>, k: nat, ix: Index, r: Ref)
    requires k < |trace|
    ensures var front := trace[..|trace| - 1];
      KeptSince(root, trace, k, ix, r) <==>
        KeptSince(root, front, k, ix, r) && !TakenAt(root, trace, |front|, ix, r)
  {
    hide Feasible, Execute, Gives, Takes, Holds;
    var front := trace[..|trace| - 1];
    if k > 0 { assert front[..k - 1] == trace[..k - 1]; }
    forall j | k <= j < |front| ensures TakenAt(root, trace, j, ix, r) == TakenAt(root, front, j, ix, r) {
      assert front[..j] == trace[..j];
    }
  }

  lemma KeptFromStart(root: Name, ix: Index, r: Ref)
    requires Feasible(root, [])
    ensures Holds(Execute(root, []), ix, r) <==> KeptSince(root, [], 0, ix, r)
    ensures forall k: nat :: KeptSince(root, [], k, ix, r) ==> k == 0
  {
    hide Holds;
  }

  lemma HeldIsKnown(s: State, ix: Index, r: Ref)
    requires Holds(s, ix, r)
    ensures r < |s.objects|
  {
  }

  lemma GivenLast(root: Name, trace: seq<Event>, ix: Index, r: Ref)
    requires Feasible(root, trace) && trace != []
    ensures var front := trace[..|trace| - 1];
      && Feasible(root, front)
      && (KeptSince(root, trace, |trace|, ix, r) <==> Gives(Execute(root, front), trace[|trace| - 1], ix, r))
      && (r < |Execute(root, front).objects| ==>
            (TakenAt(root, trace, |front|, ix, r) <==> Takes(Execute(root, front), trace[|trace| - 1], ix, r)))
  {
    hide Execute, Inv, Gives, Takes, Holds;
  }

  /**
   * After any run, and in each index: an inode has an entry if and only if some step gave it
   * one and no later step took it.
   */
  lemma {:induction false} IndexedIffGiven(root: Name, trace: seq<Event>, ix: Index, r: Ref)
    requires Feasible(root, trace)
    ensures Holds(Execute(root, trace), ix, r) <==> exists k: nat :: KeptSince(root, trace, k, ix, r)
    decreases |trace|
  {
    hide Feasible, Execute, Inv, Gives, Takes, Holds, GivenAt, TakenAt;
    if trace == [] {
      KeptFromStart(root, ix, r);
    } else {
      var front, ev := trace[..|trace| - 1], trace[|trace| - 1];
      LastStep(root, trace);
      IndexedIffGiven(root, front, ix, r);
      StepMovesEntry(Execute(root, front), ev, ix, r);
      if Holds(Execute(root, front), ix, r) { HeldIsKnown(Execute(root, front), ix, r); }
      GivenLast(root, trace, ix, r);
      forall k: nat | k < |trace|
        ensures KeptSince(root, trace, k, ix, r) <==>
          KeptSince(root, front, k, ix, r) && !TakenAt(root, trace, |front|, ix, r)
      {
        KeptInFront(root, trace, k, ix, r);
      }
    }
  }

  // ------------------------------------------------- lookup counts

  function Lookups(trace: seq<Event>, r: Ref): nat {
    if trace == [] then 0
    else Lookups(trace[..|trace| - 1], r) + if trace[|trace| - 1] == LookedUp(r) then 1 else 0
  }

  function Forgotten(trace: seq<Event>, r: Ref): nat {
    if trace == [] then 0
    else
      var ev := trace[|trace| - 1];
      Forgotten(trace[..|trace| - 1], r) + if ev.Forget? && ev.gone == r then ev.count else 0
  }

  lemma StepCounts(s: State, ev: Event, r: Ref)
    requires Guard(s, ev)
    ensures var t := Apply(s, ev);
      && |s.objects| <= |t.objects|
      && (if r < |s.objects| then
            t.objects[r].lookupCount == s.objects[r].lookupCount + (if ev == LookedUp(r) then 1 else 0)
              - (if ev.Forget? && ev.gone == r then ev.count else 0)
          else
            && (r < |t.objects| ==> t.objects[r].lookupCount == 0)
            && ev != LookedUp(r) && !(ev.Forget? && ev.gone == r))
  {
    hide Outdated, Replaceable, KindOf;
  }

  /** The count of an inode is the number of its lookups less those forgotten; the root starts with one. */
  lemma {:induction false} CountsBalance(root: Name, trace: seq<Event>, r: Ref)
    requires Feasible(root, trace)
    ensures var s := Execute(root, trace);
      |s.objects| > 0 &&
      if r < |s.objects|
      then s.objects[r].lookupCount == (if r == 0 then 1 else 0) + Lookups(trace, r) - Forgotten(trace, r)
      else Lookups(trace, r) == 0 == Forgotten(trace, r)
    decreases |trace|
  {
    hide Feasible, Execute, Inv;
    if trace == [] {
      StartsEmpty(root);
    } else {
      LastStep(root, trace);
      CountsBalance(root, trace[..|trace| - 1], r);
      StepCounts(Execute(root, trace[..|trace| - 1]), trace[|trace| - 1], r);
    }
  }

  // ------------------------------------------------- entries that are missing

  lemma Start(root: Name) returns (trace: seq<Event>)
    requires root.IsDir()
    ensures trace == [] && Feasible(root, trace) && Execute(root, trace) == Init(root)
  {
    trace := [];
  }

  lemma More(root: Name, trace: seq<Event>, ev: Event) returns (longer: seq<Event>)
    requires Feasible(root, trace) && Guard(Execute(root, trace), ev)
    ensures longer == trace + [ev] && Feasible(root, longer)
    ensures Execute(root, longer) == Apply(Execute(root, trace), ev)
  {
    ExtendTrace(root, trace, ev);
    longer := trace + [ev];
  }

  /**
   * A live local file that is not unlinked can be without an entry: after a file was looked
   * up and a local one of its name created, a successful flush of the first takes the entry
   * of the second.
   */
  lemma FlushTakesAnothersEntry(root: Name, backed: Core, local: Core) returns (trace: seq<Event>)
    requires root.IsDir() && backed.Sane() && backed.backing.Object? && !backed.backing.symlink
    requires local.Sane() && local.backing.Local? && backed.name == local.name
    ensures Feasible(root, trace) && trace == [MintObject(backed), MintLocal(local), Promote(1)]
    ensures var s := Execute(root, trace);
      && |s.objects| == 3 && s.objects[2].name == local.name && s.objects[2].kind == File && !s.objects[2].unlinked
      && Live(s, 2) && local.name !in s.localFiles
  {
    hide Feasible, Execute, Inv;
    trace := Start(root);
    trace := More(root, trace, MintObject(backed));
    trace := More(root, trace, MintLocal(local));
    trace := More(root, trace, Promote(1));
  }

  /** The documented "every implicit directory is indexed" fails for one that was unlinked and then replaced. */
  lemma ReplacedDirIsUnindexed(root: Name, core: Core) returns (trace: seq<Event>)
    requires root.IsDir() && core.Sane() && core.backing.Implicit? && core.name != root
    ensures Feasible(root, trace) && trace == [MintDir(core), Unlinked(1), MintDir(core)]
    ensures var s := Execute(root, trace);
      && |s.objects| == 3 && Live(s, 1) && s.objects[1].kind == ImplicitDir && s.objects[1].name == core.name
      && Holds(s, ImplicitDirs, 2) && !Holds(s, ImplicitDirs, 1)
  {
    hide Feasible, Execute, Inv;
    trace := Start(root);
    trace := More(root, trace, MintDir(core));
    trace := More(root, trace, Unlinked(1));
    trace := More(root, trace, MintDir(core));
  }
}
