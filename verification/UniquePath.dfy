/** Distinct archive paths for the torrents of one backup (internal/backups/service.go). */
module UniquePath {
  import opened Text
  import opened Ordering

  /** `filepath.Ext`: from the last dot of the last path element on. */
  function ExtStart(path: string, n: nat): nat
    requires n <= |path|
    ensures ExtStart(path, n) <= |path|
  {
    if n == 0 || path[n - 1] == '/' then |path|
    else if path[n - 1] == '.' then n - 1
    else ExtStart(path, n - 1)
  }

  function Ext(path: string): string {
    path[ExtStart(path, |path|)..]
  }

  function Base(path: string): string {
    path[..ExtStart(path, |path|)]
  }

  /** The extension has no further dot and no slash, and belongs to the path. */
  lemma {:induction false} ExtIsLast(path: string, n: nat)
    requires n <= |path| && forall i :: n <= i < |path| ==> path[i] != '.' && path[i] != '/'
    ensures var start := ExtStart(path, n);
            && (start < |path| ==> path[start] == '.')
            && (forall i :: start < i < |path| ==> path[i] != '.' && path[i] != '/')
  {
    if n > 0 && path[n - 1] != '/' && path[n - 1] != '.' {
      ExtIsLast(path, n - 1);
    }
  }

  /** Base and extension make up the path; the extension is what follows the last dot of the last element, with it. */
  lemma ExtExactly(path: string)
    ensures Base(path) + Ext(path) == path
    ensures Ext(path) != "" ==> Ext(path)[0] == '.' && '.' !in Ext(path)[1..] && '/' !in Ext(path)
    ensures Ext(path) == "" ==>
              forall i :: 0 <= i < |path| && path[i] == '.' ==> exists j :: i < j < |path| && path[j] == '/'
  {
    ExtIsLast(path, |path|);
    if Ext(path) == "" {
      NoExtension(path, |path|);
    }
  }

  lemma {:induction false} NoExtension(path: string, n: nat)
    requires n <= |path| && ExtStart(path, n) == |path|
    ensures forall i :: 0 <= i < n && path[i] == '.' ==> exists j :: i < j < |path| && path[j] == '/'
  {
    if n > 0 && path[n - 1] != '/' {
      NoExtension(path, n - 1);
    }
  }

  /** The idx-th alternative for a path. */
  function Candidate(path: string, idx: nat): string {
    Base(path) + "_" + Itoa(idx) + Ext(path)
  }

  lemma CandidateInjective(path: string, i: nat, j: nat)
    requires Candidate(path, i) == Candidate(path, j)
    ensures i == j
  {
    var b, e := Base(path) + "_", Ext(path);
    MiddleEqual(b, Itoa(i), Itoa(j), e);
    ItoaInjective(i, j);
  }

  lemma MiddleEqual(b: string, s: string, t: string, e: string)
    requires b + s + e == b + t + e
    ensures s == t
  {
    assert |s| == |t| by {
      assert |b + s + e| == |b| + |s| + |e|;
      assert |b + t + e| == |b| + |t| + |e|;
    }
    assert s == (b + s + e)[|b|..|b| + |s|];
    assert t == (b + t + e)[|b|..|b| + |t|];
  }

  ghost predicate IsCandidateFrom(path: string, idx: nat, p: string) {
    exists i: nat :: i >= idx && p == Candidate(path, i)
  }

  /** The occupied alternatives that are still ahead. */
  ghost function Occupied(used: map<string, nat>, path: string, idx: nat): set<string> {
    set p | p in used && IsCandidateFrom(path, idx, p)
  }

  lemma OccupiedShrinks(used: map<string, nat>, path: string, idx: nat)
    requires Candidate(path, idx) in used
    ensures |Occupied(used, path, idx + 1)| < |Occupied(used, path, idx)|
  {
    hide Candidate;
    var now, next := Occupied(used, path, idx), Occupied(used, path, idx + 1);
    assert IsCandidateFrom(path, idx, Candidate(path, idx));
    assert Candidate(path, idx) !in next by {
      if IsCandidateFrom(path, idx + 1, Candidate(path, idx)) {
        var i: nat :| i >= idx + 1 && Candidate(path, idx) == Candidate(path, i);
        CandidateInjective(path, idx, i);
        assert false;
      }
    }
    assert next <= now - {Candidate(path, idx)};
    SubsetSize(next, now - {Candidate(path, idx)});
  }

  class UsedPaths {
    var used: map<string, nat>

    constructor ()
      ensures used == map[]
    {
      used := map[];
    }

    /** A free path is taken as it is; otherwise its first free alternative, counting on from the last one given. */
    method EnsureUnique(path: string) returns (result: string)
      modifies this
      ensures result !in old(used)
      ensures path !in old(used) ==> result == path && used == old(used)[path := 1]
      ensures path in old(used) ==>
                exists idx: nat :: idx >= old(used)[path] && result == Candidate(path, idx)
                  && (forall i :: old(used)[path] <= i < idx ==> Candidate(path, i) in old(used))
                  && used == old(used)[path := idx + 1][result := 1]
    {
      if path !in used {
        used := used[path := 1];
        return path;
      }
      var ext, base := Ext(path), Base(path);
      var idx := used[path];
      while true
        invariant used == old(used) && idx >= used[path]
        invariant forall i :: used[path] <= i < idx ==> Candidate(path, i) in used
        decreases |Occupied(used, path, idx)|
      {
        var candidate := base + "_" + Itoa(idx) + ext;
        assert candidate == Candidate(path, idx);
        if candidate !in used {
          used := used[path := idx + 1];
          used := used[candidate := 1];
          return candidate;
        }
        OccupiedShrinks(used, path, idx);
        idx := idx + 1;
      }
    }
  }

  /** Over any sequence of paths the results are pairwise distinct, and a path is changed only if it was given
      before. */
  method UniquePaths(paths: seq<string>) returns (results: seq<string>)
    ensures |results| == |paths| && NoDuplicates(results)
    ensures forall i :: 0 <= i < |paths| ==> (results[i] == paths[i] <==> paths[i] !in results[..i])
    ensures forall i :: 0 <= i < |paths| && results[i] != paths[i] ==>
              exists n: nat :: results[i] == Base(paths[i]) + "_" + Itoa(n) + Ext(paths[i])
  {
    var taken := new UsedPaths();
    results := [];
    for i := 0 to |paths|
      invariant |results| == i && NoDuplicates(results)
      invariant forall p :: p in taken.used <==> p in results
      invariant forall k :: 0 <= k < i ==> (results[k] == paths[k] <==> paths[k] !in results[..k])
      invariant forall k :: 0 <= k < i && results[k] != paths[k] ==>
                  exists n: nat :: results[k] == Base(paths[k]) + "_" + Itoa(n) + Ext(paths[k])
    {
      var result := taken.EnsureUnique(paths[i]);
      if result != paths[i] {
        var idx: nat :| result == Candidate(paths[i], idx);
        hide Base, Ext, Itoa;
        assert Candidate(paths[i], idx) == Base(paths[i]) + "_" + Itoa(idx) + Ext(paths[i]);
      }
      ghost var before := results;
      results := results + [result];
      assert results[..i] == before;
      assert forall k :: 0 <= k < i ==> results[..k] == before[..k];
    }
  }
}
