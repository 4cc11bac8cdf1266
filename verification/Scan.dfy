/**
 The filtered walk over the watched trees (scan in watcher/watcher.go, through filepath.WalkDir).
 A tree holds what the file system answers: names, and modification times where they can be read.
 Names are sequences of runes; the Unicode tables and path joining are parameters, so the results
 hold for every case folding that works rune by rune.
 */
module Scan {
  import opened Common

  /** `stat` is the modification time, `None` if it cannot be read. A directory lists the entries
      that ReadDir returned; `broken` says that it also returned an error, and perhaps not all. */
  datatype Node =
    | File(name: string, stat: Option<int>)
    | Dir(name: string, entries: seq<Node>, broken: bool)

  /** A configured root: its path and its tree, `None` if Lstat fails on it. */
  datatype Root = Root(path: string, tree: Option<Node>)

  /** `fold` and `lower` map runes as strings.EqualFold and strings.ToLower do. */
  datatype Tables = Tables(fold: char -> char, lower: char -> char, join: (string, string) -> string)

  datatype Filter = Filter(extensions: seq<string>, ignored: seq<string>)

  function Mapped(f: char -> char, s: string): string {
    seq(|s|, i requires 0 <= i < |s| => f(s[i]))
  }

  predicate EqualFold(t: Tables, a: string, b: string) {
    Mapped(t.fold, a) == Mapped(t.fold, b)
  }

  /** filepath.Ext: from the last dot of the last path element on. */
  function Ext(path: string): string {
    if path == [] || path[|path| - 1] == '/' then []
    else if path[|path| - 1] == '.' then "."
    else
      var before := Ext(path[..|path| - 1]);
      if before == [] then [] else before + [path[|path| - 1]]
  }

  predicate Ignored(t: Tables, filter: Filter, name: string) {
    exists i :: 0 <= i < |filter.ignored| && (name == filter.ignored[i] || EqualFold(t, name, filter.ignored[i]))
  }

  predicate Allowed(t: Tables, filter: Filter, path: string) {
    || filter.extensions == []
    || exists i :: 0 <= i < |filter.extensions| && EqualFold(t, Mapped(t.lower, Ext(path)), filter.extensions[i])
  }

  predicate SlashAfter(path: string, i: nat) {
    exists j :: i < j < |path| && path[j] == '/'
  }

  /** The extension is the tail of the path from its last dot on, unless a slash follows that dot;
      otherwise there is none. */
  lemma {:induction false} ExtIsTail(path: string)
    ensures var ext := Ext(path);
            && |ext| <= |path| && path[|path| - |ext|..] == ext
            && (ext != [] ==> ext[0] == '.' && forall i :: 0 < i < |ext| ==> ext[i] != '.' && ext[i] != '/')
            && (ext == [] ==> forall i :: 0 <= i < |path| && path[i] == '.' ==> SlashAfter(path, i))
  {
    if path != [] {
      var last, less := path[|path| - 1], path[..|path| - 1];
      ExtIsTail(less);
      if last == '/' {
        forall i | 0 <= i < |path| && path[i] == '.'
          ensures SlashAfter(path, i)
        {
          assert i < |less| < |path| && path[|less|] == '/';
        }
      } else if last != '.' && Ext(less) == [] {
        forall i | 0 <= i < |path| && path[i] == '.'
          ensures SlashAfter(path, i)
        {
          assert less[i] == '.';
          var j :| i < j < |less| && less[j] == '/';
          assert path[j] == '/';
        }
      }
    }
  }

  /** A name is ignored if it is listed, or listed up to case; two names agree up to case if they have
      the same length and their runes fold alike, one by one. */
  lemma IgnoredMeans(t: Tables, filter: Filter, name: string)
    ensures Ignored(t, filter, name) <==>
            exists i :: 0 <= i < |filter.ignored|
              && (name == filter.ignored[i]
                  || (|name| == |filter.ignored[i]|
                      && forall k :: 0 <= k < |name| ==> t.fold(name[k]) == t.fold(filter.ignored[i][k])))
  {
    forall i | 0 <= i < |filter.ignored|
      ensures EqualFold(t, name, filter.ignored[i]) <==>
              |name| == |filter.ignored[i]|
              && forall k :: 0 <= k < |name| ==> t.fold(name[k]) == t.fold(filter.ignored[i][k])
    {
      FoldsAlike(t, name, filter.ignored[i]);
    }
  }

  /** A path is allowed if no extension is configured, or if its lower-cased extension agrees with a
      configured one up to case. */
  lemma AllowedMeans(t: Tables, filter: Filter, path: string)
    ensures Allowed(t, filter, path) <==>
            || filter.extensions == []
            || exists i :: 0 <= i < |filter.extensions|
                 && |Ext(path)| == |filter.extensions[i]|
                 && forall k :: 0 <= k < |Ext(path)| ==>
                      t.fold(t.lower(Ext(path)[k])) == t.fold(filter.extensions[i][k])
  {
    var ext := Mapped(t.lower, Ext(path));
    forall i | 0 <= i < |filter.extensions|
      ensures EqualFold(t, ext, filter.extensions[i]) <==>
              |Ext(path)| == |filter.extensions[i]|
              && forall k :: 0 <= k < |Ext(path)| ==>
                   t.fold(t.lower(Ext(path)[k])) == t.fold(filter.extensions[i][k])
    {
      FoldsAlike(t, ext, filter.extensions[i]);
    }
  }

  lemma FoldsAlike(t: Tables, a: string, b: string)
    ensures EqualFold(t, a, b) <==> |a| == |b| && forall k :: 0 <= k < |a| ==> t.fold(a[k]) == t.fold(b[k])
  {
    if EqualFold(t, a, b) {
      forall k | 0 <= k < |a|
        ensures t.fold(a[k]) == t.fold(b[k])
      {
        assert Mapped(t.fold, a)[k] == Mapped(t.fold, b)[k];
      }
    }
  }

  // ------------------------------------------------------------------------------------------
  // What a scan is for, said without a walk
  // ------------------------------------------------------------------------------------------

  /** A trail leads from a root to a node: at each directory, the index of the entry to take. */
  ghost predicate Leads(node: Node, trail: seq<nat>)
    decreases |trail|
  {
    trail == [] || (node.Dir? && trail[0] < |node.entries| && Leads(node.entries[trail[0]], trail[1..]))
  }

  ghost function Target(node: Node, trail: seq<nat>): Node
    requires Leads(node, trail)
    decreases |trail|
  {
    if trail == [] then node else Target(node.entries[trail[0]], trail[1..])
  }

  ghost function PathTo(t: Tables, path: string, node: Node, trail: seq<nat>): string
    requires Leads(node, trail)
    decreases |trail|
  {
    if trail == [] then path
    else
      var entry := node.entries[trail[0]];
      PathTo(t, t.join(path, entry.name), entry, trail[1..])
  }

  lemma {:induction false} LeadsPrefix(node: Node, trail: seq<nat>, k: nat)
    requires Leads(node, trail) && k <= |trail|
    ensures Leads(node, trail[..k])
    decreases |trail|
  {
    if k > 0 {
      LeadsPrefix(node.entries[trail[0]], trail[1..], k - 1);
      assert trail[..k][1..] == trail[1..][..k - 1];
    }
  }

  /** No node on the trail, from the root to the target, has an ignored name. */
  ghost predicate Clear(t: Tables, filter: Filter, node: Node, trail: seq<nat>)
    requires Leads(node, trail)
  {
    forall k :: 0 <= k <= |trail| ==>
      LeadsAt(node, trail, k) && !Ignored(t, filter, Target(node, trail[..k]).name)
  }

  ghost predicate LeadsAt(node: Node, trail: seq<nat>, k: nat)
    requires k <= |trail|
    ensures LeadsAt(node, trail, k) ==> Leads(node, trail[..k])
  {
    Leads(node, trail[..k])
  }

  /** The readable file at the end of the trail is one to be watched, under the key `key`. */
  ghost predicate Watched(t: Tables, filter: Filter, path: string, node: Node, trail: seq<nat>,
                          key: string, time: int) {
    && Leads(node, trail)
    && Clear(t, filter, node, trail)
    && Target(node, trail).File? && Target(node, trail).stat == Some(time)
    && PathTo(t, path, node, trail) == key
    && Allowed(t, filter, key)
  }

  ghost predicate WatchedIn(t: Tables, filter: Filter, root: Root, trail: seq<nat>, key: string, time: int) {
    root.tree.Some? && Watched(t, filter, root.path, root.tree.value, trail, key, time)
  }

  // ------------------------------------------------------------------------------------------
  // The walk
  // ------------------------------------------------------------------------------------------

  /** What the walk function answers: nil, filepath.SkipDir, or any other error. */
  datatype Visit = Proceed | SkipDir | Failure

  method IsIgnored(t: Tables, filter: Filter, name: string) returns (ignored: bool)
    ensures ignored <==> Ignored(t, filter, name)
  {
    for i := 0 to |filter.ignored|
      invariant forall k :: 0 <= k < i ==> name != filter.ignored[k] && !EqualFold(t, name, filter.ignored[k])
    {
      if name == filter.ignored[i] || EqualFold(t, name, filter.ignored[i]) {
        return true;
      }
    }
    return false;
  }

  method IsAllowed(t: Tables, filter: Filter, path: string) returns (allowed: bool)
    ensures allowed <==> Allowed(t, filter, path)
  {
    if |filter.extensions| == 0 {
      return true;
    }
    var ext := Mapped(t.lower, Ext(path));
    for i := 0 to |filter.extensions|
      invariant forall k :: 0 <= k < i ==> !EqualFold(t, ext, filter.extensions[k])
    {
      if EqualFold(t, ext, filter.extensions[i]) {
        return true;
      }
    }
    return false;
  }

  /** The function passed to WalkDir; `entry` is `None` where it is called with an error. */
  method OnEntry(t: Tables, filter: Filter, path: string, entry: Option<Node>, found: map<string, int>)
    returns (visit: Visit, found': map<string, int>)
    ensures visit != Failure
    ensures entry == None ==> visit == Proceed && found' == found
    ensures entry.Some? ==>
              var node := entry.value;
              && (visit == SkipDir <==> node.Dir? && Ignored(t, filter, node.name))
              && found' ==
                 if node.File? && node.stat.Some? && !Ignored(t, filter, node.name) && Allowed(t, filter, path)
                 then found[path := node.stat.value] else found
  {
    found' := found;
    if entry == None {
      return Proceed, found';
    }
    var node := entry.value;
    var ignored := IsIgnored(t, filter, node.name);
    if ignored {
      return if node.Dir? then SkipDir else Proceed, found';
    }
    if node.Dir? {
      return Proceed, found';
    }
    var allowed := IsAllowed(t, filter, path);
    if !allowed {
      return Proceed, found';
    }
    if node.stat == None {
      return Proceed, found';
    }
    return Proceed, found[path := node.stat.value];
  }

  /** `after` adds to `before` exactly the watched files under `node`, or, if a bound is given, those
      whose trail starts below the bound. */
  ghost predicate Adds(t: Tables, filter: Filter, path: string, node: Node, bound: Option<nat>,
                       before: map<string, int>, after: map<string, int>) {
    && (forall key :: key in before ==> key in after)
    && (forall key :: key in after ==>
          || (key in before && after[key] == before[key])
          || exists trail :: Watched(t, filter, path, node, trail, key, after[key]) && Below(trail, bound))
    && (forall trail, key, time ::
          Watched(t, filter, path, node, trail, key, time) && Below(trail, bound) ==> key in after)
  }

  predicate Below(trail: seq<nat>, bound: Option<nat>) {
    match bound
    case None => true
    case Some(b) => trail != [] && trail[0] < b
  }

  lemma ClearAtRoot(t: Tables, filter: Filter, node: Node, trail: seq<nat>)
    requires Leads(node, trail) && Clear(t, filter, node, trail)
    ensures !Ignored(t, filter, node.name)
  {
    assert trail[..0] == [];
    assert LeadsAt(node, trail, 0);
  }

  /** A trail through a directory is clear if and only if the directory's name is not ignored and
      the rest of the trail is clear. */
  lemma ClearBelow(t: Tables, filter: Filter, node: Node, trail: seq<nat>)
    requires trail != [] && Leads(node, trail)
    ensures Clear(t, filter, node, trail) <==>
              !Ignored(t, filter, node.name) && Clear(t, filter, node.entries[trail[0]], trail[1..])
  {
    var entry, rest := node.entries[trail[0]], trail[1..];
    forall k | 0 <= k <= |rest|
      ensures LeadsAt(entry, rest, k) && LeadsAt(node, trail, k + 1)
      ensures Target(entry, rest[..k]) == Target(node, trail[..k + 1])
    {
      LeadsPrefix(entry, rest, k);
      assert trail[..k + 1][1..] == rest[..k];
      assert trail[..k + 1][0] == trail[0];
    }
    if Clear(t, filter, node, trail) {
      ClearAtRoot(t, filter, node, trail);
      forall k | 0 <= k <= |rest|
        ensures LeadsAt(entry, rest, k) && !Ignored(t, filter, Target(entry, rest[..k]).name)
      {
        assert LeadsAt(node, trail, k + 1);
      }
    }
    if !Ignored(t, filter, node.name) && Clear(t, filter, entry, rest) {
      forall k | 0 <= k <= |trail|
        ensures LeadsAt(node, trail, k) && !Ignored(t, filter, Target(node, trail[..k]).name)
      {
        if k == 0 {
          assert trail[..0] == [];
        } else {
          assert LeadsAt(entry, rest, k - 1);
          assert LeadsAt(node, trail, k - 1 + 1);
        }
      }
    }
  }

  /** Below a directory whose name is not ignored, the watched files are those of its entries. */
  lemma WatchedBelow(t: Tables, filter: Filter, path: string, node: Node, i: nat, rest: seq<nat>,
                     key: string, time: int)
    requires node.Dir? && i < |node.entries| && !Ignored(t, filter, node.name)
    ensures Watched(t, filter, path, node, [i] + rest, key, time) <==>
            Watched(t, filter, t.join(path, node.entries[i].name), node.entries[i], rest, key, time)
  {
    var trail := [i] + rest;
    assert trail[1..] == rest;
    if Leads(node, trail) {
      ClearBelow(t, filter, node, trail);
    }
  }

  lemma NextEntry(t: Tables, filter: Filter, path: string, node: Node, i: nat,
                  before: map<string, int>, mid: map<string, int>, after: map<string, int>)
    requires node.Dir? && i < |node.entries| && !Ignored(t, filter, node.name)
    requires Adds(t, filter, path, node, Some(i), before, mid)
    requires Adds(t, filter, t.join(path, node.entries[i].name), node.entries[i], None, mid, after)
    ensures Adds(t, filter, path, node, Some(i + 1), before, after)
  {
    var inner, entry := t.join(path, node.entries[i].name), node.entries[i];
    forall key | key in after && !(key in before && after[key] == before[key])
      ensures exists trail :: Watched(t, filter, path, node, trail, key, after[key]) && Below(trail, Some(i + 1))
    {
      if key in mid && after[key] == mid[key] {
        var trail :| Watched(t, filter, path, node, trail, key, mid[key]) && Below(trail, Some(i));
        assert Below(trail, Some(i + 1));
      } else {
        var rest :| Watched(t, filter, inner, entry, rest, key, after[key]) && Below(rest, None);
        WatchedBelow(t, filter, path, node, i, rest, key, after[key]);
        assert Below([i] + rest, Some(i + 1));
      }
    }
    forall trail, key, time | Watched(t, filter, path, node, trail, key, time) && Below(trail, Some(i + 1))
      ensures key in after
    {
      if trail[0] == i {
        assert trail == [i] + trail[1..];
        WatchedBelow(t, filter, path, node, i, trail[1..], key, time);
        assert Below(trail[1..], None);
      } else {
        assert Below(trail, Some(i));
      }
    }
  }

  lemma WholeDirectory(t: Tables, filter: Filter, path: string, node: Node,
                       before: map<string, int>, after: map<string, int>)
    requires node.Dir? && Adds(t, filter, path, node, Some(|node.entries|), before, after)
    ensures Adds(t, filter, path, node, None, before, after)
  {
    forall trail, key, time | Watched(t, filter, path, node, trail, key, time)
      ensures key in after
    {
      assert trail != [];
      assert Below(trail, Some(|node.entries|));
    }
  }

  lemma WholeFile(t: Tables, filter: Filter, path: string, node: Node, found: map<string, int>)
    requires node.File?
    ensures var after :=
              if node.stat.Some? && !Ignored(t, filter, node.name) && Allowed(t, filter, path)
              then found[path := node.stat.value] else found;
            Adds(t, filter, path, node, None, found, after)
  {
    assert Leads(node, []);
    var empty: seq<nat> := [];
    assert empty[..0] == [];
    assert Clear(t, filter, node, []) <==> !Ignored(t, filter, node.name) by {
      if !Ignored(t, filter, node.name) {
        forall k | 0 <= k <= |empty|
          ensures LeadsAt(node, empty, k) && !Ignored(t, filter, Target(node, empty[..k]).name)
        {}
      } else {
        if Clear(t, filter, node, []) {
          ClearAtRoot(t, filter, node, []);
        }
      }
    }
    if node.stat.Some? && !Ignored(t, filter, node.name) && Allowed(t, filter, path) {
      assert Watched(t, filter, path, node, [], path, node.stat.value) && Below([], None);
    }
    forall trail, key, time | Watched(t, filter, path, node, trail, key, time)
      ensures trail == []
    {}
  }

  lemma IgnoredDirectory(t: Tables, filter: Filter, path: string, node: Node, found: map<string, int>)
    requires Ignored(t, filter, node.name)
    ensures Adds(t, filter, path, node, None, found, found)
  {
    forall trail, key, time
      ensures !Watched(t, filter, path, node, trail, key, time)
    {
      if Watched(t, filter, path, node, trail, key, time) {
        ClearAtRoot(t, filter, node, trail);
      }
    }
  }

  /** filepath.WalkDir below its root: a pruning, depth-first walk. */
  method Walk(t: Tables, filter: Filter, path: string, node: Node, found: map<string, int>)
    returns (failed: bool, found': map<string, int>)
    ensures !failed && Adds(t, filter, path, node, None, found, found')
    decreases node
  {
    var visit;
    visit, found' := OnEntry(t, filter, path, Some(node), found);
    if visit == SkipDir && node.Dir? {
      IgnoredDirectory(t, filter, path, node, found);
      return false, found';
    }
    if visit == Failure || !node.Dir? {
      WholeFile(t, filter, path, node, found);
      return visit == Failure, found';
    }
    if node.broken {
      visit, found' := OnEntry(t, filter, path, None, found');
      if visit == Failure {
        return true, found';
      }
    }
    var i := 0;
    while i < |node.entries|
      invariant 0 <= i <= |node.entries|
      invariant Adds(t, filter, path, node, Some(i), found, found')
    {
      ghost var mid := found';
      failed, found' := Walk(t, filter, t.join(path, node.entries[i].name), node.entries[i], found');
      if failed {
        return;
      }
      NextEntry(t, filter, path, node, i, found, mid, found');
      i := i + 1;
    }
    WholeDirectory(t, filter, path, node, found, found');
    return false, found';
  }

  ghost predicate Complete(t: Tables, filter: Filter, roots: seq<Root>, result: map<string, int>) {
    && (forall key :: key in result ==>
          exists r, trail :: 0 <= r < |roots| && WatchedIn(t, filter, roots[r], trail, key, result[key]))
    && (forall r, trail, key, time ::
          0 <= r < |roots| && WatchedIn(t, filter, roots[r], trail, key, time) ==> key in result)
  }

  /** scan never fails; its keys are exactly the paths of the readable files with an allowed
      extension such that neither the file nor any directory above it, the root included, has an
      ignored name; and each key has the modification time of such a file. */
  method Scan(t: Tables, filter: Filter, roots: seq<Root>) returns (failed: bool, result: map<string, int>)
    ensures !failed && Complete(t, filter, roots, result)
  {
    result := map[];
    var i := 0;
    while i < |roots|
      invariant 0 <= i <= |roots| && Complete(t, filter, roots[..i], result)
    {
      ghost var before := result;
      if roots[i].tree == None {
        var visit;
        visit, result := OnEntry(t, filter, roots[i].path, None, result);
        failed := visit == Failure;
      } else {
        failed, result := Walk(t, filter, roots[i].path, roots[i].tree.value, result);
      }
      if failed {
        return;
      }
      NextRoot(t, filter, roots[..i], roots[i], before, result);
      assert roots[..i + 1] == roots[..i] + [roots[i]];
      i := i + 1;
    }
    assert roots[..|roots|] == roots;
    failed := false;
  }

  lemma NextRoot(t: Tables, filter: Filter, roots: seq<Root>, root: Root,
                 before: map<string, int>, after: map<string, int>)
    requires Complete(t, filter, roots, before)
    requires if root.tree == None then after == before
             else Adds(t, filter, root.path, root.tree.value, None, before, after)
    ensures Complete(t, filter, roots + [root], after)
  {
    var all := roots + [root];
    forall key | key in after
      ensures exists r, trail :: 0 <= r < |all| && WatchedIn(t, filter, all[r], trail, key, after[key])
    {
      if key in before && after[key] == before[key] {
        var r, trail :| 0 <= r < |roots| && WatchedIn(t, filter, roots[r], trail, key, before[key]);
        assert WatchedIn(t, filter, all[r], trail, key, after[key]);
      } else {
        var trail :| Watched(t, filter, root.path, root.tree.value, trail, key, after[key]) && Below(trail, None);
        assert WatchedIn(t, filter, all[|roots|], trail, key, after[key]);
      }
    }
    forall r, trail, key, time | 0 <= r < |all| && WatchedIn(t, filter, all[r], trail, key, time)
      ensures key in after
    {
      if r < |roots| {
        assert WatchedIn(t, filter, roots[r], trail, key, time);
      } else {
        assert Below(trail, None);
      }
    }
  }
}
