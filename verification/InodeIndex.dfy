// internal/fs/fs.go: the table of live inodes and the four indexes from names to inodes.
// An event is one critical section under the file system's mutex.
module InodeIndex {

  datatype Name = Name(bucketName: string, objectName: string) {
    predicate IsDir() {
      objectName == "" || objectName[|objectName| - 1] == '/'
    }
  }

  type InodeId = nat
  const ROOT_INODE_ID: InodeId := 1

  /** Which inode object: the identity of the Go pointer. */
  type Ref = nat

  datatype Generation = Generation(number: int, metadata: int, size: nat) {
    /** `this` is what GCS reported, `current` what the inode has; a smaller size is not older. */
    function Compare(current: Generation): int {
      if number != current.number then (if number < current.number then -1 else 1)
      else if metadata != current.metadata then (if metadata < current.metadata then -1 else 1)
      else if size > current.size then 1
      else 0
    }
  }

  datatype Backing = Object(generation: Generation, symlink: bool) | Folder | Implicit | Local

  /** inode.Core, for records that pass its sanity check. */
  datatype Core = Core(name: Name, backing: Backing) {
    predicate Sane() {
      match backing
      case Object(_, _) => true
      case Local => !name.IsDir()
      case _ => name.IsDir()
    }
  }

  datatype Kind = ExplicitDir | ImplicitDir | Symlink | File

  datatype Inode = Inode(id: InodeId, name: Name, kind: Kind, generation: Generation,
                         lookupCount: nat, unlinked: bool)

  /** `objects` are all inodes ever made; `inodes` and the indexes point into it. */
  datatype State =
    State(nextInodeID: InodeId, objects: seq<Inode>, inodes: map<InodeId, Ref>,
          generationBacked: map<Name, Ref>, implicitDirs: map<Name, Ref>,
          folders: map<Name, Ref>, localFiles: map<Name, Ref>)

  function KindOf(core: Core): Kind {
    match core.backing
    case Object(_, symlink) => if core.name.IsDir() then ExplicitDir else if symlink then Symlink else File
    case Folder => ExplicitDir
    case Implicit => if core.name.IsDir() then ImplicitDir else File
    case Local => if core.name.IsDir() then ImplicitDir else File
  }

  /** Directories are explicit exactly if an object or a folder stands for them. */
  lemma KindIsBacking(core: Core)
    requires core.Sane()
    ensures KindOf(core) == ExplicitDir <==> core.backing.Folder? || (core.backing.Object? && core.name.IsDir())
    ensures KindOf(core) == ImplicitDir <==> core.backing.Implicit?
    ensures KindOf(core) == Symlink <==> core.backing.Object? && core.backing.symlink && !core.name.IsDir()
  {
  }

  /** A file system right after it is mounted: the root is an implicit directory and a folder. */
  function Init(root: Name): State {
    State(ROOT_INODE_ID + 1, [Inode(ROOT_INODE_ID, root, ImplicitDir, Generation(0, 0, 0), 1, false)],
          map[ROOT_INODE_ID := 0], map[], map[root := 0], map[root := 0], map[])
  }

  datatype Event =
    | MintObject(core: Core)                         // lookUpOrCreateInodeIfNotStale
    | MintDir(core: Core)                            // createDirInode
    | MintLocal(core: Core)                          // createLocalFile
    | Promote(file: Ref)                             // promoteToGenerationBacked
    | DropLocal(name: Name)                          // flushFile, syncFile, createLocalFile on error
    | LookedUp(found: Ref)                           // IncrementLookupCount
    | Forget(gone: Ref, count: nat)                  // unlockAndDecrementLookupCount
    | Changed(inode: Ref, generation: Generation)    // the inode wrote a new generation of its object
    | Unlinked(inode: Ref)                           // the inode's object or folder was deleted

  // ---------------------------------------------------------------- the invariant

  predicate Points(objects: seq<Inode>, inodes: map<InodeId, Ref>, r: Ref) {
    r < |objects| && objects[r].id in inodes && inodes[objects[r].id] == r
  }

  predicate Live(s: State, r: Ref) {
    Points(s.objects, s.inodes, r)
  }

  /** Every entry leads from a name to a live inode of that name and of one of the kinds. */
  ghost predicate Indexed(objects: seq<Inode>, inodes: map<InodeId, Ref>, index: map<Name, Ref>, kinds: set<Kind>) {
    forall n <- index ::
      Points(objects, inodes, index[n]) && objects[index[n]].name == n && objects[index[n]].kind in kinds
  }

  /** IDs are handed out in order, so none is used twice, and the table is keyed by them. */
  ghost predicate Table(next: InodeId, objects: seq<Inode>, inodes: map<InodeId, Ref>) {
    && ROOT_INODE_ID < next
    && (forall id <- inodes :: inodes[id] < |objects| && objects[inodes[id]].id == id)
    && (forall r :: 0 <= r < |objects| ==> ROOT_INODE_ID <= objects[r].id < next)
    && (forall q, r :: 0 <= q < r < |objects| ==> objects[q].id < objects[r].id)
    && (forall r :: 0 <= r < |objects| ==>
          (objects[r].name.IsDir() <==> objects[r].kind in {ExplicitDir, ImplicitDir}))
    && (ROOT_INODE_ID in inodes ==> objects[inodes[ROOT_INODE_ID]].kind in {ExplicitDir, ImplicitDir})
  }

  /** The name of the inode leads to it. */
  predicate Leads(objects: seq<Inode>, index: map<Name, Ref>, r: Ref)
    requires r < |objects|
  {
    objects[r].name in index && index[objects[r].name] == r
  }

  /** Every live implicit directory that is not unlinked is the one its name leads to. */
  ghost predicate ImplicitIndexed(objects: seq<Inode>, inodes: map<InodeId, Ref>, index: map<Name, Ref>) {
    forall r: Ref :: Points(objects, inodes, r) && objects[r].kind == ImplicitDir && !objects[r].unlinked ==>
      Leads(objects, index, r)
  }

  /** Kinds that are a GenerationBackedInode, a DirInode, and an implicit one. */
  const BACKED: set<Kind> := {ExplicitDir, Symlink, File}
  const DIRS: set<Kind> := {ExplicitDir, ImplicitDir}

  ghost predicate Inv(s: State) {
    && Table(s.nextInodeID, s.objects, s.inodes)
    && Indexed(s.objects, s.inodes, s.generationBacked, BACKED)
    && Indexed(s.objects, s.inodes, s.implicitDirs, {ImplicitDir})
    && Indexed(s.objects, s.inodes, s.folders, DIRS)
    && Indexed(s.objects, s.inodes, s.localFiles, {File})
    && ImplicitIndexed(s.objects, s.inodes, s.implicitDirs)
  }

  // ---------------------------------------------------------------- the steps

  /** mintInode: a new object with the next ID. */
  function Mint(s: State, core: Core): State {
    var generation := if core.backing.Object? then core.backing.generation else Generation(0, 0, 0);
    var minted := Inode(s.nextInodeID, core.name, KindOf(core), generation, 0, false);
    s.(nextInodeID := s.nextInodeID + 1, objects := s.objects + [minted],
       inodes := s.inodes[s.nextInodeID := |s.objects|])
  }

  /** The record is newer than the indexed inode. */
  predicate Outdated(s: State, core: Core) {
    && core.backing.Object? && core.name in s.generationBacked && s.generationBacked[core.name] < |s.objects|
    && core.backing.generation.Compare(s.objects[s.generationBacked[core.name]].generation) > 0
  }

  /** No inode has the name in the index, or only an unlinked one. */
  predicate Replaceable(objects: seq<Inode>, index: map<Name, Ref>, name: Name) {
    name in index ==> index[name] < |objects| && objects[index[name]].unlinked
  }

  /** What the code has checked, under the lock, when it takes the step; GCS makes changed objects newer. */
  predicate Guard(s: State, ev: Event) {
    match ev
    case MintObject(core) =>
      && core.Sane() && core.backing.Object?
      && (core.name in s.generationBacked ==> Outdated(s, core))
    case MintDir(core) =>
      && core.Sane() && (core.backing.Folder? || core.backing.Implicit?)
      && Replaceable(s.objects, if core.backing.Folder? then s.folders else s.implicitDirs, core.name)
    case MintLocal(core) => core.Sane() && core.backing.Local? && Replaceable(s.objects, s.localFiles, core.name)
    case Promote(f) => Live(s, f) && s.objects[f].kind == File
    case DropLocal(_) => true
    case LookedUp(r) => r < |s.objects|
    case Forget(r, n) => Live(s, r) && n <= s.objects[r].lookupCount
    case Changed(r, generation) => Live(s, r) && generation.Compare(s.objects[r].generation) > 0
    case Unlinked(r) => Live(s, r)
  }

  function Without(index: map<Name, Ref>, name: Name, r: Ref): map<Name, Ref> {
    if name in index && index[name] == r then index - {name} else index
  }

  function Apply(s: State, ev: Event): State
    requires Guard(s, ev)
  {
    match ev
    case MintObject(core) => Mint(s, core).(generationBacked := s.generationBacked[core.name := |s.objects|])
    case MintDir(core) =>
      if core.backing.Folder?
      then Mint(s, core).(folders := s.folders[core.name := |s.objects|])
      else Mint(s, core).(implicitDirs := s.implicitDirs[core.name := |s.objects|])
    case MintLocal(core) => Mint(s, core).(localFiles := s.localFiles[core.name := |s.objects|])
    case Promote(f) =>
      var name := s.objects[f].name;
      s.(localFiles := s.localFiles - {name},
         generationBacked := if name in s.generationBacked then s.generationBacked else s.generationBacked[name := f])
    case DropLocal(name) => s.(localFiles := s.localFiles - {name})
    case LookedUp(r) =>
      s.(objects := s.objects[r := s.objects[r].(lookupCount := s.objects[r].lookupCount + 1)])
    case Forget(r, n) =>
      var left := s.objects[r].(lookupCount := s.objects[r].lookupCount - n);
      var t := s.(objects := s.objects[r := left]);
      if left.lookupCount > 0 then t
      else t.(inodes := s.inodes - {left.id},
              generationBacked := Without(s.generationBacked, left.name, r),
              implicitDirs := Without(s.implicitDirs, left.name, r),
              localFiles := Without(s.localFiles, left.name, r),
              folders := Without(s.folders, left.name, r))
    case Changed(r, generation) => s.(objects := s.objects[r := s.objects[r].(generation := generation)])
    case Unlinked(r) => s.(objects := s.objects[r := s.objects[r].(unlinked := true)])
  }

  // ---------------------------------------------------------------- every step

  lemma IndexAfterMint(s: State, core: Core, index: map<Name, Ref>, kinds: set<Kind>)
    requires Table(s.nextInodeID, s.objects, s.inodes) && Indexed(s.objects, s.inodes, index, kinds)
    ensures var t := Mint(s, core);
      && Indexed(t.objects, t.inodes, index, kinds)
      && (KindOf(core) in kinds ==> Indexed(t.objects, t.inodes, index[core.name := |s.objects|], kinds))
  {
    var t := Mint(s, core);
    forall n | n in index ensures Points(t.objects, t.inodes, index[n]) && t.objects[index[n]] == s.objects[index[n]] {
      assert Points(s.objects, s.inodes, index[n]);
    }
  }

  lemma TableAfterMint(s: State, core: Core)
    requires Table(s.nextInodeID, s.objects, s.inodes) && core.Sane()
    ensures var t := Mint(s, core); Table(t.nextInodeID, t.objects, t.inodes)
  {
  }

  /** A directory is minted under a name only in place of an unlinked one. */
  lemma ImplicitAfterMint(s: State, ev: Event)
    requires Table(s.nextInodeID, s.objects, s.inodes) && ImplicitIndexed(s.objects, s.inodes, s.implicitDirs)
    requires Guard(s, ev) && (ev.MintObject? || ev.MintDir? || ev.MintLocal?)
    ensures var t := Apply(s, ev); ImplicitIndexed(t.objects, t.inodes, t.implicitDirs)
  {
    var t := Apply(s, ev);
    forall r: Ref | Points(t.objects, t.inodes, r) && t.objects[r].kind == ImplicitDir && !t.objects[r].unlinked
      ensures Leads(t.objects, t.implicitDirs, r)
    {
      if r < |s.objects| {
        assert Points(s.objects, s.inodes, r) && Leads(s.objects, s.implicitDirs, r);
      }
    }
  }

  lemma MintKeepsInv(s: State, ev: Event)
    requires Inv(s) && Guard(s, ev) && (ev.MintObject? || ev.MintDir? || ev.MintLocal?)
    ensures Inv(Apply(s, ev))
  {
    hide Table, Indexed, ImplicitIndexed;
    ImplicitAfterMint(s, ev);
    TableAfterMint(s, ev.core);
    IndexAfterMint(s, ev.core, s.generationBacked, BACKED);
    IndexAfterMint(s, ev.core, s.implicitDirs, {ImplicitDir});
    IndexAfterMint(s, ev.core, s.folders, DIRS);
    IndexAfterMint(s, ev.core, s.localFiles, {File});
  }

  lemma IndexAfterUpdate(s: State, r: Ref, left: Inode, index: map<Name, Ref>, kinds: set<Kind>)
    requires Indexed(s.objects, s.inodes, index, kinds) && r < |s.objects|
    requires left.id == s.objects[r].id && left.name == s.objects[r].name && left.kind == s.objects[r].kind
    ensures Indexed(s.objects[r := left], s.inodes, index, kinds)
  {
    forall n | n in index ensures Points(s.objects[r := left], s.inodes, index[n]) {
      assert Points(s.objects, s.inodes, index[n]);
    }
  }

  lemma TableAfterUpdate(next: InodeId, objects: seq<Inode>, inodes: map<InodeId, Ref>, r: Ref, left: Inode)
    requires Table(next, objects, inodes) && r < |objects|
    requires left.id == objects[r].id && left.name == objects[r].name && left.kind == objects[r].kind
    ensures Table(next, objects[r := left], inodes)
  {
  }

  lemma ImplicitAfterUpdate(s: State, r: Ref, left: Inode)
    requires ImplicitIndexed(s.objects, s.inodes, s.implicitDirs) && r < |s.objects|
    requires left.id == s.objects[r].id && left.name == s.objects[r].name && left.kind == s.objects[r].kind
    requires s.objects[r].unlinked ==> left.unlinked
    ensures ImplicitIndexed(s.objects[r := left], s.inodes, s.implicitDirs)
  {
    var objects := s.objects[r := left];
    forall q: Ref | Points(objects, s.inodes, q) && objects[q].kind == ImplicitDir && !objects[q].unlinked
      ensures Leads(objects, s.implicitDirs, q)
    {
      assert Points(s.objects, s.inodes, q) && Leads(s.objects, s.implicitDirs, q);
    }
  }

  /** An inode that changes in place keeps its ID, name and kind, and stays unlinked if it is. */
  lemma UpdateKeepsInv(s: State, r: Ref, left: Inode)
    requires Inv(s) && r < |s.objects|
    requires left.id == s.objects[r].id && left.name == s.objects[r].name && left.kind == s.objects[r].kind
    requires s.objects[r].unlinked ==> left.unlinked
    ensures Inv(s.(objects := s.objects[r := left]))
  {
    hide Table, Indexed, ImplicitIndexed;
    ImplicitAfterUpdate(s, r, left);
    TableAfterUpdate(s.nextInodeID, s.objects, s.inodes, r, left);
    IndexAfterUpdate(s, r, left, s.generationBacked, BACKED);
    IndexAfterUpdate(s, r, left, s.implicitDirs, {ImplicitDir});
    IndexAfterUpdate(s, r, left, s.folders, DIRS);
    IndexAfterUpdate(s, r, left, s.localFiles, {File});
  }

  lemma IndexAfterForget(s: State, r: Ref, index: map<Name, Ref>, kinds: set<Kind>)
    requires Indexed(s.objects, s.inodes, index, kinds) && Live(s, r)
    ensures Indexed(s.objects, s.inodes - {s.objects[r].id}, Without(index, s.objects[r].name, r), kinds)
  {
    forall n | n in Without(index, s.objects[r].name, r)
      ensures Points(s.objects, s.inodes - {s.objects[r].id}, index[n])
    {
      assert Points(s.objects, s.inodes, index[n]);
    }
  }

  lemma TableAfterForget(next: InodeId, objects: seq<Inode>, inodes: map<InodeId, Ref>, id: InodeId)
    requires Table(next, objects, inodes)
    ensures Table(next, objects, inodes - {id})
  {
  }

  lemma ImplicitAfterForget(s: State, r: Ref)
    requires ImplicitIndexed(s.objects, s.inodes, s.implicitDirs) && Live(s, r)
    ensures ImplicitIndexed(s.objects, s.inodes - {s.objects[r].id}, Without(s.implicitDirs, s.objects[r].name, r))
  {
    var inodes := s.inodes - {s.objects[r].id};
    forall q: Ref | Points(s.objects, inodes, q) && s.objects[q].kind == ImplicitDir && !s.objects[q].unlinked
      ensures Leads(s.objects, Without(s.implicitDirs, s.objects[r].name, r), q)
    {
      assert Points(s.objects, s.inodes, q) && Leads(s.objects, s.implicitDirs, q);
    }
  }

  lemma ForgetKeepsInv(s: State, r: Ref)
    requires Inv(s) && Live(s, r)
    ensures var name := s.objects[r].name;
      Inv(s.(inodes := s.inodes - {s.objects[r].id},
             generationBacked := Without(s.generationBacked, name, r),
             implicitDirs := Without(s.implicitDirs, name, r),
             localFiles := Without(s.localFiles, name, r),
             folders := Without(s.folders, name, r)))
  {
    hide Table, Indexed, ImplicitIndexed;
    ImplicitAfterForget(s, r);
    TableAfterForget(s.nextInodeID, s.objects, s.inodes, s.objects[r].id);
    IndexAfterForget(s, r, s.generationBacked, BACKED);
    IndexAfterForget(s, r, s.implicitDirs, {ImplicitDir});
    IndexAfterForget(s, r, s.folders, DIRS);
    IndexAfterForget(s, r, s.localFiles, {File});
  }

  lemma IndexMayShrink(s: State, index: map<Name, Ref>, name: Name, kinds: set<Kind>)
    requires Indexed(s.objects, s.inodes, index, kinds)
    ensures Indexed(s.objects, s.inodes, index - {name}, kinds)
  {
  }

  lemma IndexMayGrow(s: State, index: map<Name, Ref>, r: Ref, kinds: set<Kind>)
    requires Indexed(s.objects, s.inodes, index, kinds) && Live(s, r) && s.objects[r].kind in kinds
    ensures Indexed(s.objects, s.inodes, index[s.objects[r].name := r], kinds)
  {
  }

  lemma StepKeepsInv(s: State, ev: Event)
    requires Inv(s) && Guard(s, ev)
    ensures Inv(Apply(s, ev))
  {
    hide Table, Indexed, ImplicitIndexed;
    match ev
    case MintObject(_) => MintKeepsInv(s, ev);
    case MintDir(_) => MintKeepsInv(s, ev);
    case MintLocal(_) => MintKeepsInv(s, ev);
    case Promote(f) =>
      IndexMayShrink(s, s.localFiles, s.objects[f].name, {File});
      IndexMayGrow(s, s.generationBacked, f, BACKED);
    case DropLocal(name) => IndexMayShrink(s, s.localFiles, name, {File});
    case LookedUp(r) => UpdateKeepsInv(s, r, s.objects[r].(lookupCount := s.objects[r].lookupCount + 1));
    case Forget(r, n) =>
      var left := s.objects[r].(lookupCount := s.objects[r].lookupCount - n);
      UpdateKeepsInv(s, r, left);
      if left.lookupCount == 0 {
        ForgetKeepsInv(s.(objects := s.objects[r := left]), r);
      }
    case Changed(r, generation) => UpdateKeepsInv(s, r, s.objects[r].(generation := generation));
    case Unlinked(r) => UpdateKeepsInv(s, r, s.objects[r].(unlinked := true));
  }
}
