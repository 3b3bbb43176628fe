// cfg/optimize.go, CreateHierarchicalOptimizedFlags.
// The nested maps are built in place and share structure while they grow, so they are
// kept in an arena: a level is an index, and an entry is a value or another level.
module FlagTree {
  import opened Options

  type Path = seq<string>

  datatype Entry<+V> = Leaf(value: V) | Level(id: nat)

  datatype Outcome<+V> = Nested(levels: seq<map<string, Entry<V>>>) | Conflict(key: string)

  // ---------------------------------------------------------------- dotted keys

  predicate NoDots(p: Path) {
    forall i :: 0 <= i < |p| ==> '.' !in p[i]
  }

  /** strings.Split with the separator ".". */
  function Split(key: string): (p: Path)
    ensures |p| >= 1 && NoDots(p)
  {
    if key == "" then [""]
    else
      var rest := Split(key[1..]);
      if key[0] == '.' then [""] + rest else [[key[0]] + rest[0]] + rest[1..]
  }

  /** strings.Join with the separator ".". */
  function Join(p: Path): string
    requires |p| >= 1
  {
    if |p| == 1 then p[0] else p[0] + "." + Join(p[1..])
  }

  lemma {:induction false} JoinSplit(key: string)
    ensures Join(Split(key)) == key
  {
    hide NoDots;
    if key != "" {
      JoinSplit(key[1..]);
      var rest := Split(key[1..]);
      if key[0] == '.' {
        assert Split(key)[1..] == rest;
      } else {
        assert Split(key)[1..] == rest[1..];
      }
      assert key == [key[0]] + key[1..];
    }
  }

  lemma {:induction false} SplitJoin(p: Path)
    requires |p| >= 1 && NoDots(p)
    ensures Split(Join(p)) == p
    decreases |p|, |p[0]|
  {
    var key := Join(p);
    if p[0] == "" {
      if |p| > 1 {
        assert key[1..] == Join(p[1..]);
        SplitJoin(p[1..]);
      }
    } else {
      var shorter := [p[0][1..]] + p[1..];
      assert shorter[1..] == p[1..];
      assert key[1..] == Join(shorter) && key[0] == p[0][0];
      assert p[0][0] in p[0];
      SplitJoin(shorter);
      assert [p[0][0]] + shorter[0] == p[0];
    }
  }

  // ---------------------------------------------------------------- what the nested maps hold

  /** One step further from what was found. */
  function Down<V>(levels: seq<map<string, Entry<V>>>, found: Option<Entry<V>>, k: string): Option<Entry<V>> {
    match found
    case Some(Level(i)) => if i < |levels| && k in levels[i] then Some(levels[i][k]) else None
    case _ => None
  }

  /** The entry a path leads to from the outermost level. */
  function Find<V>(levels: seq<map<string, Entry<V>>>, p: Path): Option<Entry<V>>
    decreases |p|
  {
    if p == [] then Some(Level(0))
    else Down(levels, Find(levels, p[..|p| - 1]), p[|p| - 1])
  }

  /** `paths[i]` is the one path to level i. */
  ghost predicate WellFormed<V>(levels: seq<map<string, Entry<V>>>, paths: seq<Path>) {
    && |levels| == |paths| >= 1 && paths[0] == []
    && forall i, k :: 0 <= i < |levels| && k in levels[i] && levels[i][k].Level? ==>
      levels[i][k].id < |paths| && paths[levels[i][k].id] == paths[i] + [k]
  }

  lemma {:induction false} FindIsPath<V>(levels: seq<map<string, Entry<V>>>, paths: seq<Path>, p: Path)
    requires WellFormed(levels, paths)
    ensures Find(levels, p).Some? && Find(levels, p).value.Level? ==>
      Find(levels, p).value.id < |paths| && paths[Find(levels, p).value.id] == p
    decreases |p|
  {
    if p != [] {
      FindIsPath(levels, paths, p[..|p| - 1]);
      assert p == p[..|p| - 1] + [p[|p| - 1]];
    }
  }

  function Added<V>(levels: seq<map<string, Entry<V>>>, i: nat, k: string, e: Entry<V>): seq<map<string, Entry<V>>>
    requires i < |levels|
  {
    levels[i := levels[i][k := e]] + (if e.Level? then [map[]] else [])
  }

  lemma DownAfterAdd<V>(levels: seq<map<string, Entry<V>>>, i: nat, k: string, e: Entry<V>,
                        found: Option<Entry<V>>, last: string)
    requires i < |levels| && k !in levels[i] && (e.Level? ==> e.id == |levels|)
    requires found.Some? && found.value.Level? ==> found.value.id < |levels|
    ensures Down(Added(levels, i, k, e), found, last)
         == if found == Some(Level(i)) && last == k then Some(e) else Down(levels, found, last)
    ensures Down(Added(levels, i, k, e), Some(e), last) == None && Down(levels, Some(Level(i)), k) == None
    ensures Down(levels, None, last) == None
  {
  }

  /** A new entry is found at its own path, and every other path leads where it led. */
  lemma {:induction false} FindAfterAdd<V>(levels: seq<map<string, Entry<V>>>, paths: seq<Path>, i: nat,
                                           k: string, e: Entry<V>, p: Path)
    requires WellFormed(levels, paths) && i < |levels| == |paths| && k !in levels[i]
    requires Find(levels, paths[i]) == Some(Level(i)) && (e.Level? ==> e.id == |levels|)
    ensures Find(Added(levels, i, k, e), p) == if p == paths[i] + [k] then Some(e) else Find(levels, p)
    decreases |p|
  {
    hide WellFormed, Down, Added;
    var after, here := Added(levels, i, k, e), paths[i] + [k];
    if p != [] {
      var q, last := p[..|p| - 1], p[|p| - 1];
      assert p == q + [last];
      FindAfterAdd(levels, paths, i, k, e, q);
      FindIsPath(levels, paths, q);
      DownAfterAdd(levels, i, k, e, Find(levels, q), last);
      if q == here {
        assert here[..|here| - 1] == paths[i];
        assert Find(levels, here) == Down(levels, Some(Level(i)), k);
      }
    }
  }

  ghost predicate Inside<V>(content: map<Path, V>, p: Path) {
    exists q :: q in content && p < q
  }

  /** The path is a level: the outermost, on the way to `extra`, or on the way to some value. */
  ghost predicate IsLevel<V>(content: map<Path, V>, extra: Path, p: Path) {
    p == [] || p <= extra || Inside(content, p)
  }

  ghost predicate Shows<V>(found: Option<Entry<V>>, content: map<Path, V>, extra: Path, p: Path) {
    match found
    case Some(Leaf(v)) => p in content && content[p] == v && !IsLevel(content, extra, p)
    case Some(Level(_)) => p !in content && IsLevel(content, extra, p)
    case None => p !in content && !IsLevel(content, extra, p)
  }

  /** The nested maps hold exactly `content`, and so far the levels of `extra`. */
  ghost predicate Denotes<V>(levels: seq<map<string, Entry<V>>>, content: map<Path, V>, extra: Path) {
    forall p :: Shows(Find(levels, p), content, extra, p)
  }

  // ---------------------------------------------------------------- one step of the walk

  lemma OneMore(q: Path, k: string, p: Path)
    ensures p <= q + [k] <==> p <= q || p == q + [k]
  {
  }

  /** One more level of the walk changes what is expected at the path of that level alone. */
  lemma ShowsFurther<V>(found: Option<Entry<V>>, content: map<Path, V>, q: Path, k: string, p: Path)
    requires Shows(found, content, q, p)
    requires p == q + [k] ==> found.Some? && found.value.Level?
    ensures Shows(found, content, q + [k], p)
  {
    hide Inside;
    OneMore(q, k, p);
  }

  lemma ShowsNewLevel<V>(content: map<Path, V>, q: Path, k: string, id: nat)
    requires Shows(None, content, q, q + [k])
    ensures Shows(Some(Level(id)), content, q + [k], q + [k])
  {
  }

  lemma MissingEntry<V>(levels: seq<map<string, Entry<V>>>, q: Path, i: nat, k: string)
    requires i < |levels| && Find(levels, q) == Some(Level(i))
    ensures Find(levels, q + [k]) == if k in levels[i] then Some(levels[i][k]) else None
  {
    assert (q + [k])[..|q|] == q;
  }

  lemma EnterLevel<V>(levels: seq<map<string, Entry<V>>>, paths: seq<Path>, content: map<Path, V>,
                      i: nat, k: string)
    requires WellFormed(levels, paths) && i < |levels| && k !in levels[i]
    requires Find(levels, paths[i]) == Some(Level(i)) && Denotes(levels, content, paths[i])
    ensures var after := Added(levels, i, k, Level(|levels|));
      && WellFormed(after, paths + [paths[i] + [k]])
      && Find(after, paths[i] + [k]) == Some(Level(|levels|))
      && Denotes(after, content, paths[i] + [k])
  {
    hide Find, Shows;
    var after, here := Added(levels, i, k, Level(|levels|)), paths[i] + [k];
    FindAfterAdd(levels, paths, i, k, Level(|levels|), here);
    assert Denotes(after, content, here) by {
      hide WellFormed, Added;
      MissingEntry(levels, paths[i], i, k);
      forall p ensures Shows(Find(after, p), content, here, p) {
        FindAfterAdd(levels, paths, i, k, Level(|levels|), p);
        if p == here {
          ShowsNewLevel(content, paths[i], k, |levels|);
        } else {
          ShowsFurther(Find(levels, p), content, paths[i], k, p);
        }
      }
    }
  }

  lemma AlongExisting<V>(levels: seq<map<string, Entry<V>>>, paths: seq<Path>, content: map<Path, V>,
                         i: nat, k: string)
    requires WellFormed(levels, paths) && i < |levels| && k in levels[i] && levels[i][k].Level?
    requires Find(levels, paths[i]) == Some(Level(i)) && Denotes(levels, content, paths[i])
    ensures Find(levels, paths[i] + [k]) == Some(levels[i][k]) && Denotes(levels, content, paths[i] + [k])
  {
    hide Find, Shows;
    MissingEntry(levels, paths[i], i, k);
    forall p ensures Shows(Find(levels, p), content, paths[i] + [k], p) {
      ShowsFurther(Find(levels, p), content, paths[i], k, p);
    }
  }

  lemma InsideMore<V>(content: map<Path, V>, here: Path, v: V, p: Path)
    requires here !in content
    ensures Inside(content[here := v], p) <==> Inside(content, p) || p < here
  {
    var more := content[here := v];
    if Inside(content, p) {
      var q :| q in content && p < q;
      assert q in more;
    }
    if p < here { assert here in more; }
  }

  /** The new value completes the levels that led to it. */
  lemma ShowsLeaf<V>(found: Option<Entry<V>>, content: map<Path, V>, q: Path, k: string, v: V, p: Path)
    requires Shows(None, content, q, q + [k]) && Shows(found, content, q, p)
    ensures Shows(if p == q + [k] then Some(Leaf(v)) else found, content[q + [k] := v], [], p)
  {
    hide Inside;
    OneMore(q, k, p);
    InsideMore(content, q + [k], v, p);
  }

  lemma AddLeaf<V>(levels: seq<map<string, Entry<V>>>, paths: seq<Path>, content: map<Path, V>,
                   i: nat, k: string, v: V)
    requires WellFormed(levels, paths) && i < |levels| && k !in levels[i]
    requires Find(levels, paths[i]) == Some(Level(i)) && Denotes(levels, content, paths[i])
    ensures var after := Added(levels, i, k, Leaf(v));
      WellFormed(after, paths) && Denotes(after, content[paths[i] + [k] := v], [])
  {
    hide Find, Shows;
    var after, here := Added(levels, i, k, Leaf(v)), paths[i] + [k];
    MissingEntry(levels, paths[i], i, k);
    assert Shows(Find(levels, here), content, paths[i], here);
    forall p ensures Shows(Find(after, p), content[here := v], [], p) {
      hide WellFormed, Added;
      FindAfterAdd(levels, paths, i, k, Leaf(v), p);
      ShowsLeaf(Find(levels, p), content, paths[i], k, v, p);
    }
  }

  // ---------------------------------------------------------------- the conversion

  /** No key's path is a proper prefix of another's. */
  ghost predicate PrefixFree<V>(flat: map<string, V>) {
    forall a, b :: a in flat && b in flat ==> !(Split(a) < Split(b))
  }

  /** The key is both a path and a terminal key. */
  ghost predicate Conflicting<V>(flat: map<string, V>, key: string) {
    key in flat && exists b :: b in flat && Split(key) < Split(b)
  }

  /** The keys of `flat` handled so far, by path. */
  ghost predicate Handled<V>(flat: map<string, V>, rest: set<string>, content: map<Path, V>) {
    && (forall k {:trigger Split(k)} :: k in flat && k !in rest ==> Split(k) in content && content[Split(k)] == flat[k])
    && (forall p :: p in content ==> |p| >= 1 && NoDots(p))
    && (forall p {:trigger Join(p)} :: p in content ==> Join(p) in flat && Join(p) !in rest)
  }

  lemma HandledOneMore<V>(flat: map<string, V>, rest: set<string>, content: map<Path, V>, key: string)
    requires Handled(flat, rest, content) && key in rest && key in flat
    ensures Handled(flat, rest - {key}, content[Split(key) := flat[key]])
  {
    hide Split, Join, NoDots;
    var more := content[Split(key) := flat[key]];
    JoinSplit(key);
    forall k | k in flat && k !in rest - {key} ensures Split(k) in more && more[Split(k)] == flat[k] {
      JoinSplit(k);
    }
  }

  lemma LeafConflicts<V>(flat: map<string, V>, rest: set<string>, content: map<Path, V>, p: Path, key: string)
    requires Handled(flat, rest, content) && p in content && key in flat && p < Split(key)
    ensures Conflicting(flat, Join(p)) && !PrefixFree(flat)
  {
    SplitJoin(p);
  }

  lemma LevelConflicts<V>(flat: map<string, V>, rest: set<string>, content: map<Path, V>, key: string)
    requires Handled(flat, rest, content) && key in flat && Inside(content, Split(key))
    ensures Conflicting(flat, key) && !PrefixFree(flat)
  {
    var q :| q in content && Split(key) < q;
    SplitJoin(q);
  }

  lemma NotHandledYet<V>(flat: map<string, V>, rest: set<string>, content: map<Path, V>, key: string)
    requires Handled(flat, rest, content) && key in rest
    ensures Split(key) !in content
  {
    JoinSplit(key);
  }

  lemma TakenConflicts<V>(levels: seq<map<string, Entry<V>>>, flat: map<string, V>, rest: set<string>,
                          content: map<Path, V>, q: Path, i: nat, k: string, key: string)
    requires i < |levels| && k in levels[i] && Find(levels, q) == Some(Level(i)) && Denotes(levels, content, q)
    requires Handled(flat, rest, content) && key in flat && key in rest && Split(key) == q + [k]
    ensures Conflicting(flat, key) && !PrefixFree(flat)
  {
    hide Find, Handled;
    MissingEntry(levels, q, i, k);
    assert Shows(Find(levels, q + [k]), content, q, q + [k]);
    if q + [k] in content {
      NotHandledYet(flat, rest, content, key);
    }
    LevelConflicts(flat, rest, content, key);
  }

  /** A value stands only at the path of a key, and a level only on the way to one. */
  ghost predicate HoldsOnly<V>(flat: map<string, V>, found: Option<Entry<V>>, p: Path) {
    match found
    case Some(Leaf(v)) => |p| >= 1 && Join(p) in flat && Split(Join(p)) == p && flat[Join(p)] == v
    case Some(Level(_)) => p == [] || exists k :: k in flat && p < Split(k)
    case None => true
  }

  lemma StartsEmpty<V>(flat: map<string, V>)
    ensures var levels: seq<map<string, Entry<V>>> := [map[]];
      WellFormed(levels, [[]]) && Denotes(levels, map[], []) && Handled(flat, flat.Keys, map[])
  {
    var levels: seq<map<string, Entry<V>>> := [map[]];
    forall p ensures Shows(Find(levels, p), map[], [], p) {
      if p != [] { FindIsPath(levels, [[]], p[..|p| - 1]); }
    }
  }

  lemma RootIsLevel<V>(levels: seq<map<string, Entry<V>>>, paths: seq<Path>)
    requires WellFormed(levels, paths)
    ensures |levels| == |paths| >= 1 && paths[0] == [] && Find(levels, []) == Some(Level(0))
  {
  }

  lemma LeafOnTheWay<V>(levels: seq<map<string, Entry<V>>>, content: map<Path, V>, q: Path, i: nat, k: string)
    requires i < |levels| && k in levels[i] && levels[i][k].Leaf?
    requires Find(levels, q) == Some(Level(i)) && Denotes(levels, content, q)
    ensures q + [k] in content
  {
    MissingEntry(levels, q, i, k);
    assert Shows(Find(levels, q + [k]), content, q, q + [k]);
  }

  lemma ChildPath<V>(levels: seq<map<string, Entry<V>>>, paths: seq<Path>, i: nat, k: string)
    requires WellFormed(levels, paths) && i < |levels| && k in levels[i] && levels[i][k].Level?
    ensures levels[i][k].id < |levels| == |paths| && paths[levels[i][k].id] == paths[i] + [k]
  {
  }

  lemma NothingElse<V>(flat: map<string, V>, content: map<Path, V>, found: Option<Entry<V>>, p: Path)
    requires Handled(flat, {}, content) && Shows(found, content, [], p)
    ensures HoldsOnly(flat, found, p)
  {
    hide Split, Join, NoDots;
    if p in content { SplitJoin(p); }
    if Inside(content, p) {
      var q :| q in content && p < q;
      SplitJoin(q);
    }
  }

  lemma AllHandled<V>(levels: seq<map<string, Entry<V>>>, flat: map<string, V>, content: map<Path, V>)
    requires Denotes(levels, content, []) && Handled(flat, {}, content)
    ensures PrefixFree(flat)
    ensures forall k :: k in flat ==> Find(levels, Split(k)) == Some(Leaf(flat[k]))
    ensures forall p :: HoldsOnly(flat, Find(levels, p), p)
  {
    hide Find, Split, Join, NoDots;
    forall a, b | a in flat && b in flat ensures !(Split(a) < Split(b)) {
      assert Split(b) in content && (Split(a) < Split(b) ==> Inside(content, Split(a)));
      assert Shows(Find(levels, Split(a)), content, [], Split(a));
    }
    forall k | k in flat ensures Find(levels, Split(k)) == Some(Leaf(flat[k])) {
      assert Shows(Find(levels, Split(k)), content, [], Split(k));
    }
    forall p ensures HoldsOnly(flat, Find(levels, p), p) {
      assert Shows(Find(levels, p), content, [], p);
      NothingElse(flat, content, Find(levels, p), p);
    }
  }

  /** Follows the path from the outermost level, adding levels, until it meets a value at `at`. */
  method Descend<V>(from: seq<map<string, Entry<V>>>, front: Path, ghost fromPaths: seq<Path>,
                    ghost content: map<Path, V>)
    returns (ok: bool, levels: seq<map<string, Entry<V>>>, current: nat, at: nat, ghost paths: seq<Path>)
    requires WellFormed(from, fromPaths) && Denotes(from, content, [])
    ensures WellFormed(levels, paths) && current < |levels| == |paths|
    ensures ok ==>
      paths[current] == front && Find(levels, front) == Some(Level(current)) && Denotes(levels, content, front)
    ensures !ok ==> at < |front| && front[..at + 1] in content
  {
    hide WellFormed, Denotes, Find;
    levels, paths, current, at := from, fromPaths, 0, 0;
    RootIsLevel(levels, paths);
    while at < |front|
      invariant at <= |front| && current < |levels| == |paths|
      invariant paths[current] == front[..at] && Find(levels, front[..at]) == Some(Level(current))
      invariant WellFormed(levels, paths) && Denotes(levels, content, front[..at])
    {
      var part := front[at];
      assert front[..at] + [part] == front[..at + 1];
      if part in levels[current] {
        if levels[current][part].Leaf? {
          LeafOnTheWay(levels, content, front[..at], current, part);
          ok := false;
          return;
        }
        AlongExisting(levels, paths, content, current, part);
        ChildPath(levels, paths, current, part);
        current := levels[current][part].id;
      } else {
        EnterLevel(levels, paths, content, current, part);
        paths := paths + [front[..at + 1]];
        levels, current := levels[current := levels[current][part := Level(|levels|)]] + [map[]], |levels|;
      }
      at := at + 1;
    }
    assert front[..at] == front;
    ok := true;
  }

  /**
   * Whatever order the keys are taken in: it succeeds exactly if no key's path is a proper
   * prefix of another's, and then the nested maps lead to each value by its own path and
   * hold nothing else.
   */
  method CreateHierarchicalOptimizedFlags<V>(flat: map<string, V>) returns (r: Outcome<V>)
    ensures r.Nested? <==> PrefixFree(flat)
    ensures r.Conflict? ==> Conflicting(flat, r.key)
    ensures r.Nested? ==> forall k :: k in flat ==> Find(r.levels, Split(k)) == Some(Leaf(flat[k]))
    ensures r.Nested? ==> forall p :: HoldsOnly(flat, Find(r.levels, p), p)
  {
    hide WellFormed, Denotes, Handled, Find, PrefixFree, Conflicting, HoldsOnly, Split, Join, NoDots;
    var levels: seq<map<string, Entry<V>>> := [map[]];
    ghost var paths: seq<Path>, content: map<Path, V> := [[]], map[];
    StartsEmpty(flat);
    var rest := flat.Keys;
    while rest != {}
      invariant rest <= flat.Keys
      invariant WellFormed(levels, paths) && Denotes(levels, content, []) && Handled(flat, rest, content)
    {
      var key :| key in rest;
      var parts := Split(key);
      var front, last := parts[..|parts| - 1], parts[|parts| - 1];
      assert front + [last] == parts;
      var ok, current, at;
      ok, levels, current, at, paths := Descend(levels, front, paths, content);
      if !ok {
        assert parts[..at + 1] == front[..at + 1];
        LeafConflicts(flat, rest, content, parts[..at + 1], key);
        return Conflict(Join(parts[..at + 1]));
      }
      if last in levels[current] {
        TakenConflicts(levels, flat, rest, content, front, current, last, key);
        return Conflict(key);
      }
      AddLeaf(levels, paths, content, current, last, flat[key]);
      HandledOneMore(flat, rest, content, key);
      ghost var added := Added(levels, current, last, Leaf(flat[key]));
      levels := levels[current := levels[current][last := Leaf(flat[key])]];
      assert levels == added;
      content := content[parts := flat[key]];
      rest := rest - {key};
    }
    AllHandled(levels, flat, content);
    return Nested(levels);
  }
}
