/** Comparing two scans (detectDiff in watcher/watcher.go). A scan maps paths to modification times. */
module Diff {
  import opened Common

  type Files = map<string, int>

  /** The path is present in one scan only, or with different times. */
  predicate Differs(before: Files, after: Files, path: string) {
    (path in before <==> path !in after) || (path in before && path in after && before[path] != after[path])
  }

  function Changed(a: Files, b: Files): set<string> {
    set path | path in a.Keys + b.Keys && Differs(a, b, path)
  }

  predicate NoDuplicates(paths: seq<string>) {
    forall i, j :: 0 <= i < j < |paths| ==> paths[i] != paths[j]
  }

  function Elements(paths: seq<string>): set<string> {
    set path | path in paths
  }

  /** `paths` lists each changed path once; the order of map iteration is unspecified. */
  predicate IsDiff(a: Files, b: Files, paths: seq<string>) {
    NoDuplicates(paths) && Elements(paths) == Changed(a, b)
  }

  method DetectDiff(oldState: Files, newState: Files) returns (diff: seq<string>)
    ensures IsDiff(oldState, newState, diff)
  {
    diff := [];
    var todo := newState.Keys;
    while todo != {}
      invariant todo <= newState.Keys
      invariant NoDuplicates(diff)
      invariant forall p :: p in diff <==> p in newState && p !in todo && Differs(oldState, newState, p)
      decreases |todo|
    {
      var path :| path in todo;
      if path !in oldState || oldState[path] != newState[path] {
        diff := diff + [path];
      }
      todo := todo - {path};
    }
    todo := oldState.Keys;
    while todo != {}
      invariant todo <= oldState.Keys
      invariant NoDuplicates(diff)
      invariant forall p :: p in diff <==>
                  Differs(oldState, newState, p) && (p in newState || (p in oldState && p !in todo))
      decreases |todo|
    {
      var path :| path in todo;
      if path !in newState {
        diff := diff + [path];
      }
      todo := todo - {path};
    }
  }

  // ------------------------------------------------------------------------------------------
  // The changed paths of two scans
  // ------------------------------------------------------------------------------------------

  lemma MemberIffDiffers(a: Files, b: Files, paths: seq<string>, path: string)
    requires IsDiff(a, b, paths)
    ensures path in paths <==> Differs(a, b, path)
  {
    assert path in Elements(paths) <==> path in Changed(a, b);
  }

  /** Nothing changed exactly when the scans are equal. */
  lemma EmptyIffEqual(a: Files, b: Files, paths: seq<string>)
    requires IsDiff(a, b, paths)
    ensures paths == [] <==> a == b
  {
    if paths == [] {
      forall path
        ensures (path in a <==> path in b) && (path in a ==> a[path] == b[path])
      {
        MemberIffDiffers(a, b, paths, path);
      }
      assert a.Keys == b.Keys;
    } else {
      MemberIffDiffers(a, b, paths, paths[0]);
    }
  }

  /** Comparing the other way round finds the same paths. */
  lemma Symmetric(a: Files, b: Files)
    ensures Changed(a, b) == Changed(b, a)
  {
    assert forall path :: Differs(a, b, path) <==> Differs(b, a, path);
  }

  /** A path that changed over two steps changed in one of them. */
  lemma Triangle(a: Files, b: Files, c: Files)
    ensures Changed(a, c) <= Changed(a, b) + Changed(b, c)
  {
    forall path | path in Changed(a, c)
      ensures path in Changed(a, b) + Changed(b, c)
    {
      if !Differs(a, b, path) {
        assert Differs(b, c, path);
      }
    }
  }

  /** Take the state of the listed paths from `now`. */
  function Refresh(mirror: Files, now: Files, paths: seq<string>): Files {
    (map path | path in mirror && path !in paths :: mirror[path])
    + (map path | path in now && path in paths :: now[path])
  }

  /** A mirror that is wrong at most on some paths is right after refreshing these. */
  lemma RefreshRepairs(mirror: Files, now: Files, paths: seq<string>)
    requires Changed(mirror, now) <= Elements(paths)
    ensures Refresh(mirror, now, paths) == now
  {
    var repaired := Refresh(mirror, now, paths);
    forall path
      ensures (path in repaired <==> path in now) && (path in now ==> repaired[path] == now[path])
    {
      if path !in paths {
        assert path !in Changed(mirror, now);
        assert !Differs(mirror, now, path) || (path !in mirror && path !in now);
      }
    }
    assert repaired.Keys == now.Keys;
  }
}
