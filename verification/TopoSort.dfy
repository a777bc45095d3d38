/** The order in which tables are imported (internal/database/sqlite_to_postgres.go). */
module TopoSort {
  import opened Text
  import opened Ordering

  /** A table and the tables its foreign keys name. */
  datatype TableMeta = TableMeta(name: string, deps: set<string>)

  function NamesOf(metas: seq<TableMeta>): (names: seq<string>)
    ensures |names| == |metas| && forall i :: 0 <= i < |metas| ==> names[i] == metas[i].name
  {
    seq(|metas|, i requires 0 <= i < |metas| => metas[i].name)
  }

  function NameSet(metas: seq<TableMeta>): set<string> {
    set i | 0 <= i < |metas| :: metas[i].name
  }

  /** The in-set dependencies of a table; entries of one name pool theirs. */
  function DepsOf(metas: seq<TableMeta>, n: string): set<string> {
    set i, d | 0 <= i < |metas| && metas[i].name == n && d in metas[i].deps && d in NameSet(metas) :: d
  }

  ghost predicate DistinctNames(metas: seq<TableMeta>) {
    NoDuplicates(NamesOf(metas))
  }

  // ----- the specification: paths, cycles and topological orders -----

  /** A dependency path, each table depending on the next. */
  ghost predicate IsPath(metas: seq<TableMeta>, p: seq<string>) {
    && p != []
    && (forall i :: 0 <= i < |p| ==> p[i] in NameSet(metas))
    && (forall i :: 0 <= i < |p| - 1 ==> p[i + 1] in DepsOf(metas, p[i]))
  }

  ghost predicate IsCycle(metas: seq<TableMeta>, p: seq<string>) {
    IsPath(metas, p) && |p| >= 2 && p[0] == p[|p| - 1]
  }

  ghost predicate Acyclic(metas: seq<TableMeta>) {
    forall p :: !IsCycle(metas, p)
  }

  /** Some dependency path from `n` ends on a table that lies on a cycle. */
  ghost predicate ReachesCycle(metas: seq<TableMeta>, n: string) {
    exists p, c :: IsPath(metas, p) && IsCycle(metas, c) && p[0] == n && p[|p| - 1] == c[0]
  }

  function Done(order: seq<string>): set<string> {
    set i | 0 <= i < |order| :: order[i]
  }

  /** Each table once, after all its in-set dependencies. */
  ghost predicate IsTopologicalOrder(metas: seq<TableMeta>, order: seq<string>) {
    && NoDuplicates(order)
    && Done(order) == NameSet(metas)
    && forall k :: 0 <= k < |order| ==> DepsOf(metas, order[k]) <= Done(order[..k])
  }

  /** Lexicographic order on sequences of names. */
  predicate LeqOrder(a: seq<string>, b: seq<string>) {
    a == [] || (b != [] && (Less(a[0], b[0]) || (a[0] == b[0] && LeqOrder(a[1..], b[1..]))))
  }

  /** Tables not yet placed whose dependencies all are. */
  function Ready(metas: seq<TableMeta>, done: set<string>): set<string> {
    set n | n in NameSet(metas) && n !in done && DepsOf(metas, n) <= done
  }

  /** An order that always continues with the least ready table. */
  ghost predicate Greedy(metas: seq<TableMeta>, order: seq<string>) {
    forall k :: 0 <= k < |order| ==>
      && order[k] in Ready(metas, Done(order[..k]))
      && forall n :: n in Ready(metas, Done(order[..k])) ==> Leq(order[k], n)
  }

  /** Entries of `metas` not placed, in input order. */
  function Unplaced(metas: seq<TableMeta>, done: set<string>): seq<string> {
    if metas == [] then []
    else
      var rest := Unplaced(metas[..|metas| - 1], done);
      var n := metas[|metas| - 1].name;
      if n in done then rest else rest + [n]
  }

  /** Every entry of a table that is not placed, and no other. */
  lemma {:induction false} UnplacedCounts(metas: seq<TableMeta>, done: set<string>, n: string)
    ensures multiset(Unplaced(metas, done))[n] == if n in done then 0 else multiset(NamesOf(metas))[n]
  {
    if metas != [] {
      var front, last := metas[..|metas| - 1], metas[|metas| - 1].name;
      UnplacedCounts(front, done, n);
      assert NamesOf(metas) == NamesOf(front) + [last];
    }
  }

  lemma RemainingReported(metas: seq<TableMeta>, done: set<string>, remaining: seq<string>)
    requires multiset(remaining) == multiset(Unplaced(metas, done))
    requires done == set n | n in NameSet(metas) && !ReachesCycle(metas, n)
    ensures forall n :: n in remaining <==> n in NameSet(metas) && ReachesCycle(metas, n)
    ensures forall n :: n in remaining ==> multiset(remaining)[n] == multiset(NamesOf(metas))[n]
  {
    hide ReachesCycle;
    forall n
      ensures n in remaining <==> n in NameSet(metas) && ReachesCycle(metas, n)
      ensures n in remaining ==> multiset(remaining)[n] == multiset(NamesOf(metas))[n]
    {
      UnplacedCounts(metas, done, n);
      assert n in NamesOf(metas) <==> multiset(NamesOf(metas))[n] > 0;
      assert n in remaining <==> multiset(remaining)[n] > 0;
      assert n in NamesOf(metas) <==> n in NameSet(metas) by {
        if n in NamesOf(metas) {
          var i :| 0 <= i < |metas| && NamesOf(metas)[i] == n;
          assert metas[i].name == n;
        }
        if n in NameSet(metas) {
          var i :| 0 <= i < |metas| && metas[i].name == n;
          assert NamesOf(metas)[i] == n;
        }
      }
    }
  }

  // ----- counting unmet dependencies -----

  /** How many dependencies, counted per entry, the table still waits for. */
  function Waiting(metas: seq<TableMeta>, names: set<string>, done: set<string>, n: string): nat {
    if metas == [] then 0
    else
      var m := metas[|metas| - 1];
      Waiting(metas[..|metas| - 1], names, done, n) + if m.name == n then |m.deps * names - done| else 0
  }

  /** How many entries of table `n` name `d`. */
  function Edges(metas: seq<TableMeta>, d: string, n: string): nat {
    if metas == [] then 0
    else
      var m := metas[|metas| - 1];
      Edges(metas[..|metas| - 1], d, n) + if m.name == n && d in m.deps then 1 else 0
  }

  lemma {:induction false} WaitingStep(metas: seq<TableMeta>, names: set<string>, done: set<string>, d: string,
                                       n: string)
    requires d in names && d !in done
    ensures Waiting(metas, names, done, n) == Waiting(metas, names, done + {d}, n) + Edges(metas, d, n)
  {
    if metas != [] {
      var m := metas[|metas| - 1];
      WaitingStep(metas[..|metas| - 1], names, done, d, n);
      assert m.deps * names - (done + {d}) == (m.deps * names - done) - {d};
    }
  }

  lemma {:induction false} WaitingZero(metas: seq<TableMeta>, names: set<string>, done: set<string>, n: string)
    ensures Waiting(metas, names, done, n) == 0
        <==> forall i :: 0 <= i < |metas| && metas[i].name == n ==> metas[i].deps * names <= done
  {
    if metas != [] {
      var m, front := metas[|metas| - 1], metas[..|metas| - 1];
      WaitingZero(front, names, done, n);
      assert (m.deps * names - done == {}) <==> m.deps * names <= done by {
        forall d | d in m.deps * names && m.deps * names - done == {} ensures d in done {
          assert d !in m.deps * names - done;
        }
      }
      assert forall i :: 0 <= i < |front| ==> front[i] == metas[i];
    }
  }

  lemma NothingWaiting(metas: seq<TableMeta>, done: set<string>, n: string)
    ensures Waiting(metas, NameSet(metas), done, n) == 0 <==> DepsOf(metas, n) <= done
  {
    WaitingZero(metas, NameSet(metas), done, n);
    if DepsOf(metas, n) <= done {
      forall i | 0 <= i < |metas| && metas[i].name == n ensures metas[i].deps * NameSet(metas) <= done {
        forall d | d in metas[i].deps * NameSet(metas) ensures d in done {
          assert d in DepsOf(metas, n);
        }
      }
    }
  }

  // ----- greedy orders are least -----

  lemma {:induction false} DonePrefix(order: seq<string>, k: nat)
    requires k < |order|
    ensures Done(order[..k + 1]) == Done(order[..k]) + {order[k]}
  {
    assert forall x :: x in Done(order[..k + 1]) ==> x in Done(order[..k]) || x == order[k];
    forall x | x in Done(order[..k]) + {order[k]} ensures x in Done(order[..k + 1]) {
      if x == order[k] {
        assert order[..k + 1][k] == x;
      } else {
        var i :| 0 <= i < k && order[..k][i] == x;
        assert order[..k + 1][i] == x;
      }
    }
  }

  lemma TopologicalIsReady(metas: seq<TableMeta>, order: seq<string>, k: nat)
    requires IsTopologicalOrder(metas, order) && k < |order|
    ensures order[k] in Ready(metas, Done(order[..k]))
  {
    assert order[k] in Done(order);
    assert order[k] !in Done(order[..k]);
  }

  /** A greedy order of all tables is topological. */
  lemma GreedyIsTopological(metas: seq<TableMeta>, order: seq<string>)
    requires Greedy(metas, order) && Done(order) == NameSet(metas)
    ensures IsTopologicalOrder(metas, order)
  {
    GreedyNoDuplicates(metas, order);
    forall k | 0 <= k < |order| ensures DepsOf(metas, order[k]) <= Done(order[..k]) {
      assert order[k] in Ready(metas, Done(order[..k]));
    }
  }

  lemma GreedyNoDuplicates(metas: seq<TableMeta>, order: seq<string>)
    requires Greedy(metas, order)
    ensures NoDuplicates(order)
  {
    forall i, j | 0 <= i < j < |order| ensures order[i] != order[j] {
      assert order[j] in Ready(metas, Done(order[..j]));
      assert order[..j][i] in Done(order[..j]);
    }
  }

  /** From a common prefix on, the greedy order is no greater than any topological one. */
  lemma {:induction false} LeastFrom(metas: seq<TableMeta>, order: seq<string>, other: seq<string>, k: nat)
    requires Greedy(metas, order) && IsTopologicalOrder(metas, other)
    requires k <= |order| && k <= |other| && order[..k] == other[..k] && |order| == |other|
    ensures LeqOrder(order[k..], other[k..])
    decreases |order| - k
  {
    if k < |order| {
      TopologicalIsReady(metas, other, k);
      assert Leq(order[k], other[k]);
      if order[k] == other[k] {
        assert order[..k + 1] == order[..k] + [order[k]] && other[..k + 1] == other[..k] + [other[k]];
        LeastFrom(metas, order, other, k + 1);
      }
      assert order[k..][1..] == order[k + 1..] && other[k..][1..] == other[k + 1..];
    }
  }

  lemma {:induction false} DoneSize(order: seq<string>)
    requires NoDuplicates(order)
    ensures |Done(order)| == |order|
    decreases |order|
  {
    if order != [] {
      var k := |order| - 1;
      DonePrefix(order, k);
      assert order[..k + 1] == order;
      DoneSize(order[..k]);
    }
  }

  /** The order of the sort precedes every other topological order. */
  lemma GreedyIsLeast(metas: seq<TableMeta>, order: seq<string>, other: seq<string>)
    requires Greedy(metas, order) && Done(order) == NameSet(metas) && IsTopologicalOrder(metas, other)
    ensures LeqOrder(order, other)
  {
    GreedyIsTopological(metas, order);
    DoneSize(order);
    DoneSize(other);
    LeastFrom(metas, order, other, 0);
    assert order[0..] == order && other[0..] == other;
  }

  lemma {:induction false} LeqOrderAntisymmetric(a: seq<string>, b: seq<string>)
    requires LeqOrder(a, b) && LeqOrder(b, a)
    ensures a == b
  {
    if a != [] && b != [] {
      if Less(a[0], b[0]) && Less(b[0], a[0]) {
        LeqAntisymmetric(a[0], b[0]);
      } else {
        LeqOrderAntisymmetric(a[1..], b[1..]);
        assert a == [a[0]] + a[1..] && b == [b[0]] + b[1..];
      }
    }
  }

  // ----- what stays behind -----

  /** A table placed by a greedy order reaches no cycle. */
  lemma PlacedReachesNoCycle(metas: seq<TableMeta>, order: seq<string>, n: string)
    requires Greedy(metas, order) && n in Done(order)
    ensures !ReachesCycle(metas, n)
  {
    forall p, c | IsPath(metas, p) && IsCycle(metas, c) && p[0] == n && p[|p| - 1] == c[0] ensures false {
      var k :| 0 <= k < |order| && order[k] == n;
      var j := PathDescends(metas, order, p, k);
      var i := PathDescends(metas, order, c, j);
      GreedyNoDuplicates(metas, order);
      assert false;
    }
  }

  lemma SubPath(metas: seq<TableMeta>, p: seq<string>, i: nat, j: nat)
    requires IsPath(metas, p) && i < j <= |p|
    ensures IsPath(metas, p[i..j])
  {
    hide DepsOf, NameSet;
    var c := p[i..j];
    forall t | 0 <= t < |c| - 1 ensures c[t + 1] in DepsOf(metas, c[t]) {
      assert c[t] == p[i + t] && c[t + 1] == p[i + t + 1];
      assert p[i + t + 1] in DepsOf(metas, p[i + t]);
    }
  }

  /** Along a path from a placed table, every table is placed, and not later. */
  lemma {:induction false} PathDescends(metas: seq<TableMeta>, order: seq<string>, p: seq<string>, k: nat)
    returns (j: nat)
    requires Greedy(metas, order) && IsPath(metas, p) && k < |order| && p[0] == order[k]
    ensures j <= k && order[j] == p[|p| - 1] && (|p| > 1 ==> j < k)
    decreases |p|
  {
    hide DepsOf, NameSet;
    if |p| == 1 {
      j := k;
    } else {
      assert order[k] in Ready(metas, Done(order[..k]));
      assert p[1] in Done(order[..k]);
      var i :| 0 <= i < k && order[..k][i] == p[1];
      SubPath(metas, p, 1, |p|);
      j := PathDescends(metas, order, p[1..], i);
    }
  }

  /** Among tables that each wait for another of them, a path of any length can be followed. */
  lemma {:induction false} PathWithin(metas: seq<TableMeta>, stuck: set<string>, n: string, len: nat)
    returns (p: seq<string>)
    requires stuck <= NameSet(metas) && n in stuck
    requires forall m :: m in stuck ==> DepsOf(metas, m) * stuck != {}
    ensures IsPath(metas, p) && |p| == len + 1 && p[0] == n
    ensures forall i :: 0 <= i < |p| ==> p[i] in stuck
    decreases len
  {
    hide DepsOf, NameSet;
    if len == 0 {
      p := [n];
    } else {
      var d :| d in DepsOf(metas, n) * stuck;
      var rest := PathWithin(metas, stuck, d, len - 1);
      p := [n] + rest;
      forall i | 0 <= i < |p| - 1 ensures p[i + 1] in DepsOf(metas, p[i]) {
        if i > 0 {
          assert rest[i - 1 + 1] in DepsOf(metas, rest[i - 1]);
        }
      }
    }
  }

  /** A path longer than the set it stays in meets a table twice. */
  lemma PathRepeats(p: seq<string>, stuck: set<string>) returns (i: nat, j: nat)
    requires |p| > |stuck| && forall k :: 0 <= k < |p| ==> p[k] in stuck
    ensures i < j < |p| && p[i] == p[j]
  {
    if NoDuplicates(p) {
      DoneSize(p);
      assert Done(p) <= stuck;
      SubsetSize(Done(p), stuck);
      assert false;
    }
    i, j :| 0 <= i < j < |p| && p[i] == p[j];
  }

  /** Tables that each wait for another of them all reach a cycle. */
  lemma StuckReachesCycle(metas: seq<TableMeta>, stuck: set<string>, n: string)
    requires stuck <= NameSet(metas) && n in stuck
    requires forall m :: m in stuck ==> DepsOf(metas, m) * stuck != {}
    ensures ReachesCycle(metas, n)
  {
    hide DepsOf, NameSet, IsPath;
    var p := PathWithin(metas, stuck, n, |stuck|);
    var i, j := PathRepeats(p, stuck);
    var c, q := p[i..j + 1], p[..i + 1];
    SubPath(metas, p, i, j + 1);
    SubPath(metas, p, 0, i + 1);
    assert c[0] == p[i] == c[|c| - 1] && q[0] == n && q[|q| - 1] == c[0];
  }

  /** When nothing is ready, what is not placed is exactly what reaches a cycle. */
  lemma UnplacedExactlyReachCycle(metas: seq<TableMeta>, order: seq<string>)
    requires Greedy(metas, order) && Ready(metas, Done(order)) == {}
    ensures forall n :: n in NameSet(metas) ==> (n !in Done(order) <==> ReachesCycle(metas, n))
  {
    var stuck := NameSet(metas) - Done(order);
    forall m | m in stuck ensures DepsOf(metas, m) * stuck != {} {
      assert m !in Ready(metas, Done(order));
      var d :| d in DepsOf(metas, m) && d !in Done(order);
      assert d in DepsOf(metas, m) * stuck;
    }
    forall n | n in NameSet(metas) ensures n !in Done(order) <==> ReachesCycle(metas, n) {
      if n in Done(order) {
        PlacedReachesNoCycle(metas, order, n);
      } else {
        StuckReachesCycle(metas, stuck, n);
      }
    }
  }

  lemma AcyclicIffNoneReaches(metas: seq<TableMeta>)
    ensures Acyclic(metas) <==> forall n :: n in NameSet(metas) ==> !ReachesCycle(metas, n)
  {
    if !Acyclic(metas) {
      var c :| IsCycle(metas, c);
      assert IsPath(metas, [c[0]]) && [c[0]][|[c[0]]| - 1] == c[0];
      assert ReachesCycle(metas, c[0]);
    }
  }

  // ----- the sort -----

  datatype SortResult = Sorted(tables: seq<TableMeta>) | CycleDetected(remaining: seq<string>)

  /** How often `children` lists `n` under `d`. */
  function Listed(children: map<string, seq<string>>, d: string, n: string): nat {
    if d in children then multiset(children[d])[n] else 0
  }

  lemma NameSetIsDone(metas: seq<TableMeta>)
    ensures NameSet(metas) == Done(NamesOf(metas))
  {
    forall n | n in NameSet(metas) ensures n in Done(NamesOf(metas)) {
      var i :| 0 <= i < |metas| && metas[i].name == n;
      assert NamesOf(metas)[i] == n;
    }
  }

  /** A sequence repeats nothing exactly when it has as many elements as its set. */
  lemma {:induction false} DistinctIffSize(order: seq<string>)
    ensures |Done(order)| <= |order|
    ensures NoDuplicates(order) <==> |Done(order)| == |order|
    decreases |order|
  {
    if order != [] {
      var k := |order| - 1;
      var front := order[..k];
      DonePrefix(order, k);
      assert order[..k + 1] == order;
      DistinctIffSize(front);
      assert order[k] in Done(front) <==> exists i :: 0 <= i < k && order[i] == order[k] by {
        forall i | 0 <= i < k && order[i] == order[k] ensures order[k] in Done(front) {
          assert front[i] == order[k];
        }
      }
      if !NoDuplicates(front) {
        var i, j :| 0 <= i < j < |front| && front[i] == front[j];
        assert order[i] == order[j];
      }
      assert NoDuplicates(order) <==> NoDuplicates(front) && order[k] !in Done(front);
    }
  }

  method IndexTables(metas: seq<TableMeta>)
    returns (metaByName: map<string, TableMeta>, indegree: map<string, nat>)
    ensures metaByName.Keys == indegree.Keys == NameSet(metas)
    ensures forall n :: n in metaByName ==> metaByName[n] in metas && metaByName[n].name == n
    ensures forall n :: n in indegree ==> indegree[n] == 0
  {
    metaByName, indegree := map[], map[];
    var i := 0;
    while i < |metas|
      invariant 0 <= i <= |metas|
      invariant metaByName.Keys == indegree.Keys == NameSet(metas[..i])
      invariant forall n :: n in metaByName ==> metaByName[n] in metas && metaByName[n].name == n
      invariant forall n :: n in indegree ==> indegree[n] == 0
    {
      NameSetStep(metas, i);
      metaByName := metaByName[metas[i].name := metas[i]];
      indegree := indegree[metas[i].name := 0];
      i := i + 1;
    }
    assert metas[..i] == metas;
  }

  /** `indegree` and `children` count the edges of `metas` between tables of `names`. */
  ghost predicate CountsEdges(metas: seq<TableMeta>, names: set<string>,
                              indegree: map<string, nat>, children: map<string, seq<string>>)
  {
    && indegree.Keys == names
    && (forall n :: n in names ==> indegree[n] == Waiting(metas, names, {}, n))
    && (forall d, n :: d in names ==> Listed(children, d, n) == Edges(metas, d, n))
  }

  method BuildIndegrees(metas: seq<TableMeta>, ghost names: set<string>, indegree0: map<string, nat>)
    returns (indegree: map<string, nat>, children: map<string, seq<string>>)
    requires names == NameSet(metas) && indegree0.Keys == names && forall n :: n in names ==> indegree0[n] == 0
    ensures CountsEdges(metas, names, indegree, children)
  {
    indegree, children := indegree0, map[];
    var i := 0;
    while i < |metas|
      invariant 0 <= i <= |metas|
      invariant CountsEdges(metas[..i], names, indegree, children)
    {
      CountsStep(metas, names, i);
      indegree, children := AddEdges(metas[i], indegree, children);
      i := i + 1;
    }
    assert metas[..i] == metas;
  }

  lemma NameSetStep(metas: seq<TableMeta>, i: nat)
    requires i < |metas|
    ensures NameSet(metas[..i + 1]) == NameSet(metas[..i]) + {metas[i].name}
  {
    forall n | n in NameSet(metas[..i]) + {metas[i].name} ensures n in NameSet(metas[..i + 1]) {
      if n in NameSet(metas[..i]) {
        var j :| 0 <= j < i && metas[..i][j].name == n;
        assert metas[..i + 1][j].name == n;
      } else {
        assert metas[..i + 1][i].name == n;
      }
    }
  }

  lemma CountsStep(metas: seq<TableMeta>, names: set<string>, i: nat)
    requires i < |metas|
    ensures var m := metas[i];
            && (forall n :: Waiting(metas[..i + 1], names, {}, n)
                         == Waiting(metas[..i], names, {}, n) + if n == m.name then |m.deps * names| else 0)
            && (forall d, n :: Edges(metas[..i + 1], d, n)
                            == Edges(metas[..i], d, n) + if n == m.name && d in m.deps then 1 else 0)
  {
    var all := metas[..i + 1];
    assert all[..|all| - 1] == metas[..i] && all[|all| - 1] == metas[i];
    assert metas[i].deps * names - {} == metas[i].deps * names;
  }

  /** One count and one child more for each of `hits`. */
  ghost predicate CountsAdded(name: string, hits: set<string>,
                              indegree0: map<string, nat>, children0: map<string, seq<string>>,
                              indegree: map<string, nat>, children: map<string, seq<string>>)
  {
    && indegree0.Keys == indegree.Keys
    && (forall n :: n in indegree ==> indegree[n] == indegree0[n] + if n == name then |hits| else 0)
    && (forall d, n ::
          Listed(children, d, n) == Listed(children0, d, n) + if n == name && d in hits then 1 else 0)
  }

  function WithChild(children: map<string, seq<string>>, dep: string, name: string): map<string, seq<string>> {
    children[dep := (if dep in children then children[dep] else []) + [name]]
  }

  lemma ListedWithChild(children: map<string, seq<string>>, dep: string, name: string, d: string, n: string)
    ensures Listed(WithChild(children, dep, name), d, n)
         == Listed(children, d, n) + if d == dep && n == name then 1 else 0
  {}

  lemma CountsNone(name: string, indegree: map<string, nat>, children: map<string, seq<string>>)
    ensures CountsAdded(name, {}, indegree, children, indegree, children)
  {}

  lemma CountOne(name: string, hits: set<string>, dep: string,
                 indegree0: map<string, nat>, children0: map<string, seq<string>>,
                 indegree: map<string, nat>, children: map<string, seq<string>>)
    requires CountsAdded(name, hits, indegree0, children0, indegree, children)
    requires name in indegree && dep !in hits
    ensures CountsAdded(name, hits + {dep}, indegree0, children0,
                        indegree[name := indegree[name] + 1], WithChild(children, dep, name))
  {
    hide Listed, WithChild;
    assert |hits + {dep}| == |hits| + 1;
    var after := WithChild(children, dep, name);
    forall d, n ensures Listed(after, d, n)
                     == Listed(children0, d, n) + if n == name && d in hits + {dep} then 1 else 0
    {
      ListedWithChild(children, dep, name, d, n);
    }
  }

  /** The body of the second loop, over the dependencies of one entry in any order. */
  method AddEdges(meta: TableMeta, indegree0: map<string, nat>, children0: map<string, seq<string>>)
    returns (indegree: map<string, nat>, children: map<string, seq<string>>)
    requires meta.name in indegree0
    ensures CountsAdded(meta.name, meta.deps * indegree0.Keys, indegree0, children0, indegree, children)
  {
    hide CountsAdded;
    indegree, children := indegree0, children0;
    var todo := meta.deps;
    ghost var hits := {};
    CountsNone(meta.name, indegree, children);
    while todo != {}
      invariant indegree.Keys == indegree0.Keys
      invariant todo <= meta.deps && hits == (meta.deps - todo) * indegree0.Keys
      invariant CountsAdded(meta.name, hits, indegree0, children0, indegree, children)
      decreases todo
    {
      var dep :| dep in todo;
      todo := todo - {dep};
      if dep in indegree {
        CountOne(meta.name, hits, dep, indegree0, children0, indegree, children);
        hits := hits + {dep};
        indegree := indegree[meta.name := indegree[meta.name] + 1];
        children := WithChild(children, dep, meta.name);
      }
    }
    assert hits == meta.deps * indegree0.Keys;
  }

  /** The tables that wait for nothing, sorted. */
  method InitialQueue(indegree: map<string, nat>) returns (queue: seq<string>)
    ensures SortedBy(Leq, queue) && NoDuplicates(queue)
    ensures forall n :: n in queue <==> n in indegree && indegree[n] == 0
  {
    queue := [];
    var todo := indegree.Keys;
    while todo != {}
      invariant todo <= indegree.Keys && NoDuplicates(queue)
      invariant forall n :: n in queue <==> n in indegree.Keys - todo && indegree[n] == 0
      decreases todo
    {
      var name :| name in todo;
      todo := todo - {name};
      if indegree[name] == 0 {
        queue := queue + [name];
      }
    }
    SamePermutationDuplicates(queue, SortStrings(queue));
    queue := SortStrings(queue);
  }

  lemma PrefixCount(s: seq<string>, j: nat)
    requires j < |s|
    ensures multiset(s[..j + 1]) == multiset(s[..j]) + multiset{s[j]}
    ensures multiset(s[..j + 1])[s[j]] <= multiset(s)[s[j]]
    ensures s[j] in s
  {
    assert s[..j + 1] == s[..j] + [s[j]];
    assert s == s[..j + 1] + s[j + 1..];
  }

  function PushSorted(queue: seq<string>, name: string): (r: seq<string>)
    requires NoDuplicates(queue) && name !in queue
    ensures SortedBy(Leq, r) && NoDuplicates(r)
    ensures forall n :: n in r <==> n in queue || n == name
  {
    SamePermutationDuplicates(queue + [name], SortStrings(queue + [name]));
    SortStrings(queue + [name])
  }

  /** The inner loop: releasing the children of the table just placed, which re-sorts after every push. */
  method Release(names: seq<string>, indegree0: map<string, nat>, queue0: seq<string>, ghost done: set<string>)
    returns (indegree: map<string, nat>, queue: seq<string>)
    requires forall n :: n in names ==> n in indegree0 && n !in done && multiset(names)[n] <= indegree0[n]
    requires SortedBy(Leq, queue0) && NoDuplicates(queue0)
    requires forall n :: n in queue0 <==> n in indegree0 && n !in done && indegree0[n] == 0
    ensures indegree.Keys == indegree0.Keys
    ensures forall n :: n in indegree0 ==> indegree0[n] == indegree[n] + multiset(names)[n]
    ensures SortedBy(Leq, queue) && NoDuplicates(queue)
    ensures forall n :: n in queue <==> n in indegree && n !in done && indegree[n] == 0
  {
    hide SortedBy, NoDuplicates;
    indegree, queue := indegree0, queue0;
    var j := 0;
    while j < |names|
      invariant 0 <= j <= |names|
      invariant indegree.Keys == indegree0.Keys
      invariant forall n :: n in indegree0 ==> indegree0[n] == indegree[n] + multiset(names[..j])[n]
      invariant SortedBy(Leq, queue) && NoDuplicates(queue)
      invariant forall n :: n in queue <==> n in indegree && n !in done && indegree[n] == 0
    {
      var child := names[j];
      PrefixCount(names, j);
      assert child in names;
      indegree := indegree[child := indegree[child] - 1];
      if indegree[child] == 0 {
        queue := PushSorted(queue, child);
      }
      j := j + 1;
    }
    assert names[..j] == names;
  }

  /** The state at the head of the main loop, after placing `order`. */
  ghost predicate SortState(metas: seq<TableMeta>, order: seq<string>, indegree: map<string, nat>, queue: seq<string>) {
    && Greedy(metas, order)
    && Done(order) <= indegree.Keys == NameSet(metas)
    && (forall n :: n in indegree ==> indegree[n] == Waiting(metas, NameSet(metas), Done(order), n))
    && SortedBy(Leq, queue) && NoDuplicates(queue)
    && (forall n :: n in queue <==> n in indegree && n !in Done(order) && indegree[n] == 0)
  }

  lemma QueueIsReady(metas: seq<TableMeta>, order: seq<string>, indegree: map<string, nat>, queue: seq<string>,
                     n: string)
    requires SortState(metas, order, indegree, queue)
    ensures n in queue <==> n in Ready(metas, Done(order))
  {
    NothingWaiting(metas, Done(order), n);
  }

  lemma DoneAppend(order: seq<string>, n: string)
    ensures Done(order + [n]) == Done(order) + {n}
  {
    DonePrefix(order + [n], |order|);
    assert (order + [n])[..|order|] == order && (order + [n])[..|order| + 1] == order + [n];
  }

  /** Placing the head of the queue continues the greedy order. */
  lemma PlaceHead(metas: seq<TableMeta>, order: seq<string>, indegree: map<string, nat>, queue: seq<string>)
    requires SortState(metas, order, indegree, queue) && queue != []
    ensures Greedy(metas, order + [queue[0]])
  {
    hide Ready;
    var longer := order + [queue[0]];
    forall k | 0 <= k < |longer|
      ensures longer[k] in Ready(metas, Done(longer[..k]))
      ensures forall n :: n in Ready(metas, Done(longer[..k])) ==> Leq(longer[k], n)
    {
      if k < |order| {
        assert longer[..k] == order[..k] && longer[k] == order[k];
      } else {
        assert longer[..k] == order;
        QueueIsReady(metas, order, indegree, queue, queue[0]);
        forall n | n in Ready(metas, Done(order)) ensures Leq(queue[0], n) {
          QueueIsReady(metas, order, indegree, queue, n);
          LeqTotal(n, n);
        }
      }
    }
  }

  /** The children of the placed table are not placed, and wait for it as often as they are listed. */
  lemma ChildrenWait(metas: seq<TableMeta>, order: seq<string>, indegree: map<string, nat>, queue: seq<string>,
                     children: map<string, seq<string>>, n: string)
    requires SortState(metas, order, indegree, queue) && queue != []
    requires forall d, m :: d in NameSet(metas) ==> Listed(children, d, m) == Edges(metas, d, m)
    requires n in indegree || Listed(children, queue[0], n) > 0
    ensures n in indegree
    ensures indegree[n] == Waiting(metas, NameSet(metas), Done(order) + {queue[0]}, n) + Listed(children, queue[0], n)
    ensures Listed(children, queue[0], n) > 0 ==> n !in Done(order) + {queue[0]}
  {
    var name, names := queue[0], NameSet(metas);
    assert name in queue;
    if n !in indegree {
      EdgesToTables(metas, name, n);
    }
    WaitingStep(metas, names, Done(order), name, n);
    if n in Done(order) {
      PlacedWaitsForNothing(metas, order, n);
    }
  }

  lemma {:induction false} EdgesToTables(metas: seq<TableMeta>, d: string, n: string)
    requires Edges(metas, d, n) > 0
    ensures n in NameSet(metas)
  {
    var k := |metas| - 1;
    if metas[k].name != n {
      EdgesToTables(metas[..k], d, n);
      var i :| 0 <= i < k && metas[..k][i].name == n;
      assert metas[i].name == n;
    }
  }

  lemma PlacedWaitsForNothing(metas: seq<TableMeta>, order: seq<string>, n: string)
    requires Greedy(metas, order) && n in Done(order)
    ensures Waiting(metas, NameSet(metas), Done(order), n) == 0
  {
    var k :| 0 <= k < |order| && order[k] == n;
    assert n in Ready(metas, Done(order[..k]));
    forall d | d in Done(order[..k]) ensures d in Done(order) {
      var i :| 0 <= i < k && order[..k][i] == d;
      assert order[i] == d;
    }
    NothingWaiting(metas, Done(order), n);
  }

  lemma NothingPlaced(metas: seq<TableMeta>)
    ensures Done(NamesOf([])) == {} && Greedy(metas, NamesOf([]))
  {}

  /** What one turn of the main loop does to the counts and the queue. */
  method PlaceNext(ghost metas: seq<TableMeta>, ghost order: seq<string>, indegree0: map<string, nat>,
                   queue0: seq<string>, children: map<string, seq<string>>)
    returns (indegree: map<string, nat>, queue: seq<string>)
    requires SortState(metas, order, indegree0, queue0) && queue0 != []
    requires forall d, m :: d in NameSet(metas) ==> Listed(children, d, m) == Edges(metas, d, m)
    ensures SortState(metas, order + [queue0[0]], indegree, queue)
  {
    hide Greedy, Edges, Waiting, NameSet, Done;
    var name := queue0[0];
    assert name in queue0;
    PlaceHead(metas, order, indegree0, queue0);
    DoneAppend(order, name);
    var released := if name in children then children[name] else [];
    forall n | n in indegree0 || n in released
      ensures n in indegree0
      ensures indegree0[n] == Waiting(metas, NameSet(metas), Done(order) + {name}, n) + multiset(released)[n]
      ensures n in released ==> n !in Done(order) + {name}
    {
      ChildrenWait(metas, order, indegree0, queue0, children, n);
    }
    assert forall n :: n in queue0[1..] <==> n in queue0 && n != name;
    indegree, queue := Release(released, indegree0, queue0[1..], Done(order) + {name});
  }

  lemma EmptyIsSorted()
    ensures DistinctNames([]) && Acyclic([]) && IsTopologicalOrder([], NamesOf([]))
  {
    assert NameSet([]) == {};
  }

  lemma SubsetOfSameSize<T>(a: set<T>, b: set<T>)
    requires a <= b && |a| == |b|
    ensures a == b
  {
    assert |b - a| == |b| - |a|;
  }

  /** Every entry is placed exactly when names are distinct and there is no cycle. */
  lemma AllPlacedIff(metas: seq<TableMeta>, order: seq<string>)
    requires Greedy(metas, order) && Done(order) <= NameSet(metas)
    requires forall n :: n in NameSet(metas) ==> (n !in Done(order) <==> ReachesCycle(metas, n))
    ensures |order| == |metas| <==> DistinctNames(metas) && Acyclic(metas)
    ensures |order| == |metas| ==> Done(order) == NameSet(metas)
  {
    hide ReachesCycle, NameSet;
    GreedyNoDuplicates(metas, order);
    DoneSize(order);
    NameSetIsDone(metas);
    DistinctIffSize(NamesOf(metas));
    SubsetSize(Done(order), NameSet(metas));
    AcyclicIffNoneReaches(metas);
    if |order| == |metas| {
      SubsetOfSameSize(Done(order), NameSet(metas));
    }
    if DistinctNames(metas) && Acyclic(metas) {
      assert Done(order) == NameSet(metas);
    }
  }

  /** With distinct names, placing every name places every entry. */
  lemma AllTablesPlaced(metas: seq<TableMeta>, result: seq<TableMeta>)
    requires DistinctNames(metas) && Greedy(metas, NamesOf(result)) && Done(NamesOf(result)) == NameSet(metas)
    requires forall i :: 0 <= i < |result| ==> result[i] in metas
    ensures IsTopologicalOrder(metas, NamesOf(result))
    ensures forall other :: IsTopologicalOrder(metas, other) ==> LeqOrder(NamesOf(result), other)
    ensures forall m :: m in result <==> m in metas
  {
    hide Greedy, IsTopologicalOrder;
    var order := NamesOf(result);
    GreedyIsTopological(metas, order);
    forall other | IsTopologicalOrder(metas, other) ensures LeqOrder(order, other) {
      GreedyIsLeast(metas, order, other);
    }
    forall m | m in metas ensures m in result {
      var i :| 0 <= i < |metas| && metas[i] == m;
      assert m.name in Done(order);
      var k :| 0 <= k < |order| && order[k] == m.name;
      var j :| 0 <= j < |metas| && metas[j] == result[k];
      assert NamesOf(metas)[i] == NamesOf(metas)[j];
    }
  }

  /** What an empty queue says. */
  lemma NothingLeft(metas: seq<TableMeta>, order: seq<string>, indegree: map<string, nat>)
    requires SortState(metas, order, indegree, [])
    ensures |order| == |metas| <==> DistinctNames(metas) && Acyclic(metas)
    ensures |order| == |metas| ==> Done(order) == NameSet(metas)
    ensures Done(order) == set n | n in NameSet(metas) && !ReachesCycle(metas, n)
  {
    hide NameSet, ReachesCycle, Done;
    forall n ensures n !in Ready(metas, Done(order)) {
      QueueIsReady(metas, order, indegree, [], n);
    }
    UnplacedExactlyReachCycle(metas, order);
    AllPlacedIff(metas, order);
  }

  method CollectRemaining(metas: seq<TableMeta>, seen: set<string>) returns (remaining: seq<string>)
    ensures remaining == Unplaced(metas, seen)
  {
    remaining := [];
    var i := 0;
    while i < |metas|
      invariant 0 <= i <= |metas|
      invariant remaining == Unplaced(metas[..i], seen)
    {
      assert metas[..i + 1][..i] == metas[..i];
      if metas[i].name !in seen {
        remaining := remaining + [metas[i].name];
      }
      i := i + 1;
    }
    assert metas[..i] == metas;
  }

  method TopoSortSQLiteTables(metas: seq<TableMeta>) returns (r: SortResult)
    ensures r.Sorted? <==> DistinctNames(metas) && Acyclic(metas)
    ensures r.Sorted? ==>
              && IsTopologicalOrder(metas, NamesOf(r.tables))
              && (forall other :: IsTopologicalOrder(metas, other) ==> LeqOrder(NamesOf(r.tables), other))
              && (forall m :: m in r.tables <==> m in metas)
    ensures r.CycleDetected? ==>
              && SortedBy(Leq, r.remaining)
              && (forall n :: n in r.remaining <==> n in NameSet(metas) && ReachesCycle(metas, n))
              && (forall n :: n in r.remaining ==> multiset(r.remaining)[n] == multiset(NamesOf(metas))[n])
  {
    hide Greedy, IsTopologicalOrder, ReachesCycle, Acyclic, DistinctNames, Done, Waiting, Edges, NameSet;
    if metas == [] {
      EmptyIsSorted();
      return Sorted([]);
    }
    var metaByName, indegree := IndexTables(metas);
    var children;
    indegree, children := BuildIndegrees(metas, NameSet(metas), indegree);
    var queue := InitialQueue(indegree);
    var result: seq<TableMeta> := [];
    NothingPlaced(metas);
    while queue != []
      invariant SortState(metas, NamesOf(result), indegree, queue)
      invariant forall i :: 0 <= i < |result| ==> result[i] in metas
      decreases NameSet(metas) - Done(NamesOf(result))
    {
      var name := queue[0];
      assert name in queue;
      DoneAppend(NamesOf(result), name);
      result := result + [metaByName[name]];
      assert NamesOf(result) == NamesOf(result[..|result| - 1]) + [name];
      indegree, queue := PlaceNext(metas, NamesOf(result[..|result| - 1]), indegree, queue, children);
    }
    NothingLeft(metas, NamesOf(result), indegree);
    if |result| == |metas| {
      AllTablesPlaced(metas, result);
      return Sorted(result);
    }
    var remaining := CollectRemaining(metas, NameSet(result));
    NameSetIsDone(result);
    r := CycleDetected(SortStrings(remaining));
    RemainingReported(metas, NameSet(result), r.remaining);
  }

  /** The sorted order depends on the dependency graph alone, not on how its entries were listed or in
      which order maps were walked: `ra` and `rb` are least topological orders of two listings of it. */
  lemma SortDependsOnGraphAlone(a: seq<TableMeta>, b: seq<TableMeta>, ra: seq<string>, rb: seq<string>)
    requires NameSet(a) == NameSet(b) && forall n :: n in NameSet(a) ==> DepsOf(a, n) == DepsOf(b, n)
    requires IsTopologicalOrder(a, ra) && forall other :: IsTopologicalOrder(a, other) ==> LeqOrder(ra, other)
    requires IsTopologicalOrder(b, rb) && forall other :: IsTopologicalOrder(b, other) ==> LeqOrder(rb, other)
    ensures ra == rb
  {
    SameGraphSameOrders(a, b, rb);
    SameGraphSameOrders(b, a, ra);
    LeqOrderAntisymmetric(ra, rb);
  }

  lemma SameGraphSameOrders(a: seq<TableMeta>, b: seq<TableMeta>, order: seq<string>)
    requires NameSet(a) == NameSet(b) && forall n :: n in NameSet(a) ==> DepsOf(a, n) == DepsOf(b, n)
    requires IsTopologicalOrder(b, order)
    ensures IsTopologicalOrder(a, order)
  {
    hide NameSet, DepsOf;
    forall k | 0 <= k < |order| ensures DepsOf(a, order[k]) <= Done(order[..k]) {
      assert order[k] in Done(order);
    }
  }
}
