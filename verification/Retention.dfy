/** Retention (internal/backups/service.go): each scheduled kind keeps its newest runs, and every enabled kind keeps at
    least one. */
module Retention {
  import opened Text
  import opened Ordering
  import opened Scheduler
  import opened BackupArchive
  import opened BackupStore

  // ----- settings -----

  function Floor(enabled: bool): int {
    if enabled then 1 else 0
  }

  function Raised(keep: int, enabled: bool): int {
    if keep >= Floor(enabled) then keep else Floor(enabled)
  }

  /** A positive count stays, any other becomes 1 for an enabled kind and 0 for another. */
  lemma RaisedJustEnough(keep: int, enabled: bool)
    ensures Raised(keep, enabled) == if keep > 0 then keep else if enabled then 1 else 0
  {}

  class BackupSettings {
    var customPath: Option<string>
    var hourlyEnabled: bool
    var dailyEnabled: bool
    var weeklyEnabled: bool
    var monthlyEnabled: bool
    var keepHourly: int
    var keepDaily: int
    var keepWeekly: int
    var keepMonthly: int

    predicate Enables(kind: Kind)
      reads this
    {
      match kind
      case Hourly => hourlyEnabled
      case Daily => dailyEnabled
      case Weekly => weeklyEnabled
      case Monthly => monthlyEnabled
      case Manual => false
    }

    function Keep(kind: Kind): int
      reads this
    {
      match kind
      case Hourly => keepHourly
      case Daily => keepDaily
      case Weekly => keepWeekly
      case Monthly => keepMonthly
      case Manual => 0
    }

    /** What retention relies on: no negative count, and at least one run of every enabled kind. */
    ghost predicate Normalized()
      reads this
    {
      forall kind :: Keep(kind) >= Floor(Enables(kind))
    }

    /** Raises the counts just as far as needed and reports whether anything changed. */
    method Normalize() returns (changed: bool)
      modifies this`customPath, this`keepHourly, this`keepDaily, this`keepWeekly, this`keepMonthly
      ensures Normalized() && customPath == None
      ensures keepHourly == Raised(old(keepHourly), hourlyEnabled) && keepDaily == Raised(old(keepDaily), dailyEnabled)
      ensures keepWeekly == Raised(old(keepWeekly), weeklyEnabled)
              && keepMonthly == Raised(old(keepMonthly), monthlyEnabled)
      ensures !changed <==> old(customPath) == None && keepHourly == old(keepHourly) && keepDaily == old(keepDaily)
                            && keepWeekly == old(keepWeekly) && keepMonthly == old(keepMonthly)
    {
      hide Normalized;
      changed := false;
      if customPath != None {
        customPath := None;
        changed := true;
      }
      var negative := ClampNegative();
      var raised := RaiseEnabled();
      changed := changed || negative || raised;
      RaisedIsNormalized();
    }

    method ClampNegative() returns (changed: bool)
      modifies this`keepHourly, this`keepDaily, this`keepWeekly, this`keepMonthly
      ensures keepHourly == Raised(old(keepHourly), false) && keepDaily == Raised(old(keepDaily), false)
      ensures keepWeekly == Raised(old(keepWeekly), false) && keepMonthly == Raised(old(keepMonthly), false)
      ensures !changed <==> keepHourly == old(keepHourly) && keepDaily == old(keepDaily)
                            && keepWeekly == old(keepWeekly) && keepMonthly == old(keepMonthly)
    {
      changed := false;
      if keepHourly < 0 {
        keepHourly := 0;
        changed := true;
      }
      if keepDaily < 0 {
        keepDaily := 0;
        changed := true;
      }
      if keepWeekly < 0 {
        keepWeekly := 0;
        changed := true;
      }
      if keepMonthly < 0 {
        keepMonthly := 0;
        changed := true;
      }
    }

    method RaiseEnabled() returns (changed: bool)
      requires keepHourly >= 0 && keepDaily >= 0 && keepWeekly >= 0 && keepMonthly >= 0
      modifies this`keepHourly, this`keepDaily, this`keepWeekly, this`keepMonthly
      ensures keepHourly == Raised(old(keepHourly), hourlyEnabled) && keepDaily == Raised(old(keepDaily), dailyEnabled)
      ensures keepWeekly == Raised(old(keepWeekly), weeklyEnabled)
              && keepMonthly == Raised(old(keepMonthly), monthlyEnabled)
      ensures !changed <==> keepHourly == old(keepHourly) && keepDaily == old(keepDaily)
                            && keepWeekly == old(keepWeekly) && keepMonthly == old(keepMonthly)
    {
      changed := false;
      if hourlyEnabled && keepHourly < 1 {
        keepHourly := 1;
        changed := true;
      }
      if dailyEnabled && keepDaily < 1 {
        keepDaily := 1;
        changed := true;
      }
      if weeklyEnabled && keepWeekly < 1 {
        keepWeekly := 1;
        changed := true;
      }
      if monthlyEnabled && keepMonthly < 1 {
        keepMonthly := 1;
        changed := true;
      }
    }

    lemma RaisedIsNormalized()
      requires keepHourly >= Floor(hourlyEnabled) && keepDaily >= Floor(dailyEnabled)
      requires keepWeekly >= Floor(weeklyEnabled) && keepMonthly >= Floor(monthlyEnabled)
      ensures Normalized()
    {}
  }

  // ----- outdated runs -----

  function Matching(runs: map<int, RunRow>, instanceID: int, kind: Kind): set<int> {
    set id | id in runs && runs[id].instanceID == instanceID && runs[id].kind == kind
  }

  /** `removed` leaves the newest `keep` runs of a kind, or none if `keep` is not positive. */
  ghost predicate Outdated(runs: map<int, RunRow>, instanceID: int, kind: Kind, keep: int, removed: set<int>) {
    var all := Matching(runs, instanceID, kind);
    && removed <= all
    && |all - removed| == (if keep <= 0 then 0 else if keep < |all| then keep else |all|)
    && forall k, r :: k in all - removed && r in removed ==> runs[k].requestedAt >= runs[r].requestedAt
  }

  function At(runs: map<int, RunRow>, id: int): int {
    if id in runs then runs[id].requestedAt else 0
  }

  function NewestFirst(runs: map<int, RunRow>): (int, int) -> bool {
    (a, b) => At(runs, a) >= At(runs, b)
  }

  /** The runs of a kind, in any order. */
  method MatchingIDs(runs: map<int, RunRow>, instanceID: int, kind: Kind) returns (all: seq<int>)
    ensures NoDuplicates(all) && Listing(all) == Matching(runs, instanceID, kind)
  {
    all := [];
    var left := runs.Keys;
    while left != {}
      invariant left <= runs.Keys
      invariant NoDuplicates(all)
      invariant Listing(all) == Matching(runs, instanceID, kind) - left
    {
      NonEmpty(left);
      var id :| id in left;
      left := left - {id};
      if runs[id].instanceID == instanceID && runs[id].kind == kind {
        assert id !in Listing(all);
        assert Listing(all + [id]) == Listing(all) + {id};
        all := all + [id];
      }
    }
  }

  /** The ids after the first `keep`, newest first, of the runs of a kind. */
  method DeleteRunsOlderThan(store: Store, instanceID: int, kind: Kind, keep: int) returns (ids: seq<int>)
    ensures NoDuplicates(ids)
    ensures Outdated(store.runs, instanceID, kind, keep, Listing(ids))
  {
    hide SortedBy, NoDuplicates;
    var all := MatchingIDs(store.runs, instanceID, kind);
    if keep <= 0 {
      assert Matching(store.runs, instanceID, kind) - Listing(all) == {};
      return all;
    }
    var sorted := SortBy(NewestFirst(store.runs), all);
    SortedPermutation(NewestFirst(store.runs), all);
    SamePermutationDuplicates(sorted, all);
    assert Listing(sorted) == Listing(all);
    var offset := if keep <= |sorted| then keep else |sorted|;
    ids := sorted[offset..];
    TailIsOutdated(store.runs, instanceID, kind, keep, sorted, offset);
    TailNoDuplicates(sorted, offset);
  }

  lemma TailNoDuplicates(s: seq<int>, n: nat)
    requires NoDuplicates(s) && n <= |s|
    ensures NoDuplicates(s[n..])
  {}

  lemma {:induction false} ListingSize(s: seq<int>)
    requires NoDuplicates(s)
    ensures |Listing(s)| == |s|
  {
    if s != [] {
      ListingSize(s[1..]);
      assert s == [s[0]] + s[1..];
      assert Listing(s) == {s[0]} + Listing(s[1..]);
      assert s[0] !in Listing(s[1..]);
    } else {
      assert Listing(s) == {};
    }
  }

  lemma HeadApartFromTail(s: seq<int>, n: nat)
    requires NoDuplicates(s) && n <= |s|
    ensures Listing(s) - Listing(s[n..]) == Listing(s[..n])
    ensures |Listing(s)| == |s| && |Listing(s[..n])| == n
  {
    assert s == s[..n] + s[n..];
    ListingSize(s[..n]);
    ListingSize(s);
    forall x | x in Listing(s[..n]) ensures x !in Listing(s[n..]) {
      var i :| 0 <= i < n && s[i] == x;
      assert forall j :: n <= j < |s| ==> s[i] != s[j];
    }
  }

  lemma HeadIsNewer(runs: map<int, RunRow>, sorted: seq<int>, n: nat, k: int, r: int)
    requires SortedBy(NewestFirst(runs), sorted) && n <= |sorted|
    requires k in sorted[..n] && r in sorted[n..]
    ensures At(runs, k) >= At(runs, r)
  {
    var i :| 0 <= i < n && sorted[i] == k;
    var j :| n <= j < |sorted| && sorted[j] == r;
    assert NewestFirst(runs)(sorted[i], sorted[j]);
  }

  lemma TailIsOutdated(runs: map<int, RunRow>, instanceID: int, kind: Kind, keep: int, sorted: seq<int>, n: nat)
    requires keep > 0 && NoDuplicates(sorted) && SortedBy(NewestFirst(runs), sorted)
    requires Listing(sorted) == Matching(runs, instanceID, kind)
    requires n == if keep <= |sorted| then keep else |sorted|
    ensures Outdated(runs, instanceID, kind, keep, Listing(sorted[n..]))
  {
    hide SortedBy, NoDuplicates, NewestFirst, Outdated, Matching, Listing;
    HeadApartFromTail(sorted, n);
    var all, kept, tail := Listing(sorted), Listing(sorted[..n]), Listing(sorted[n..]);
    assert tail <= all && kept <= all by { PartsListed(sorted, n); }
    forall k, r | k in kept && r in tail ensures At(runs, k) >= At(runs, r) {
      PartsListed(sorted, n);
      HeadIsNewer(runs, sorted, n, k, r);
    }
    OutdatedApart(runs, instanceID, kind, keep, kept, tail);
  }

  lemma PartsListed(s: seq<int>, n: nat)
    requires n <= |s|
    ensures Listing(s[..n]) <= Listing(s) && Listing(s[n..]) <= Listing(s)
    ensures forall x :: x in Listing(s[..n]) <==> x in s[..n]
    ensures forall x :: x in Listing(s[n..]) <==> x in s[n..]
  {}

  lemma OutdatedApart(runs: map<int, RunRow>, instanceID: int, kind: Kind, keep: int, kept: set<int>, tail: set<int>)
    requires var all := Matching(runs, instanceID, kind);
             && kept == all - tail && tail <= all
             && |kept| == (if keep <= 0 then 0 else if keep < |all| then keep else |all|)
    requires forall k, r :: k in kept && r in tail ==> At(runs, k) >= At(runs, r)
    ensures Outdated(runs, instanceID, kind, keep, tail)
  {
    var all := Matching(runs, instanceID, kind);
    forall k, r | k in all - tail && r in tail ensures runs[k].requestedAt >= runs[r].requestedAt {
      assert At(runs, k) >= At(runs, r);
    }
  }

  // ----- retention -----

  /** `removed` are runs of the instance and of the given kinds, and of each kind exactly the outdated ones. */
  ghost predicate Retained(runs: map<int, RunRow>, instanceID: int, settings: BackupSettings, kinds: set<Kind>,
                           removed: set<int>)
    reads settings
  {
    && (forall id :: id in removed ==> id in runs && runs[id].instanceID == instanceID && runs[id].kind in kinds)
    && forall kind :: kind in kinds ==>
         Outdated(runs, instanceID, kind, settings.Keep(kind), removed * Matching(runs, instanceID, kind))
  }

  /** Removing runs of other kinds does not change which runs of a kind are outdated. */
  lemma OtherKindsDoNotMatter(runs: map<int, RunRow>, gone: set<int>, instanceID: int, kind: Kind, keep: int,
                              removed: set<int>)
    requires gone * Matching(runs, instanceID, kind) == {}
    requires Outdated(runs - gone, instanceID, kind, keep, removed)
    ensures Outdated(runs, instanceID, kind, keep, removed)
  {
    assert Matching(runs - gone, instanceID, kind) == Matching(runs, instanceID, kind) by {
      forall id | id in Matching(runs, instanceID, kind) ensures id in Matching(runs - gone, instanceID, kind) {
        assert id !in gone * Matching(runs, instanceID, kind);
      }
    }
  }

  method RetainKind(store: Store, instanceID: int, kind: Kind, keep: int, ghost gone: set<int>, ghost before: Archive)
    returns (ghost removed: set<int>)
    requires store.Valid() && store.State() == RemoveRuns(before, gone) && Sound(before, store.digest)
    requires gone * Matching(before.runs, instanceID, kind) == {}
    modifies store`runs, store`items, store`blobs
    ensures store.Valid() && store.State() == RemoveRuns(before, gone + removed)
    ensures Outdated(before.runs, instanceID, kind, keep, removed)
  {
    hide Outdated, Matching;
    var ids := DeleteRunsOlderThan(store, instanceID, kind, keep);
    removed := Listing(ids);
    OtherKindsDoNotMatter(before.runs, gone, instanceID, kind, keep, removed);
    store.CleanupRunFiles(ids);
    RemovalsCompose(before, gone, removed);
    RemovalIsExact(before, gone + removed, store.digest);
  }

  lemma RetainedStep(runs: map<int, RunRow>, instanceID: int, settings: BackupSettings, done: set<Kind>,
                     removed: set<int>, kind: Kind, more: set<int>)
    requires Retained(runs, instanceID, settings, done, removed) && kind !in done
    requires Outdated(runs, instanceID, kind, settings.Keep(kind), more)
    ensures Retained(runs, instanceID, settings, done + {kind}, removed + more)
  {
    hide Outdated;
    NoneOfKind(runs, instanceID, settings, done, removed, kind);
    OutdatedMatch(runs, instanceID, kind, settings.Keep(kind), more);
    forall other | other in done
      ensures (removed + more) * Matching(runs, instanceID, other) == removed * Matching(runs, instanceID, other)
    {}
    assert (removed + more) * Matching(runs, instanceID, kind)
        == removed * Matching(runs, instanceID, kind) + more * Matching(runs, instanceID, kind);
    assert more * Matching(runs, instanceID, kind) == more;
    assert removed * Matching(runs, instanceID, kind) == {};
    assert (removed + more) * Matching(runs, instanceID, kind) == more;
    forall id | id in more ensures id in runs && runs[id].instanceID == instanceID && runs[id].kind == kind {
      assert id in Matching(runs, instanceID, kind);
    }
  }

  lemma OutdatedMatch(runs: map<int, RunRow>, instanceID: int, kind: Kind, keep: int, removed: set<int>)
    requires Outdated(runs, instanceID, kind, keep, removed)
    ensures removed <= Matching(runs, instanceID, kind)
  {}

  function Scheduled(): set<Kind> {
    {Hourly, Daily, Weekly, Monthly}
  }

  /** After a successful backup: the scheduled kinds in turn. */
  method ApplyRetention(store: Store, instanceID: int, settings: BackupSettings) returns (ghost removed: set<int>)
    requires store.Valid()
    modifies store`runs, store`items, store`blobs
    ensures store.Valid() && store.State() == RemoveRuns(old(store.State()), removed)
    ensures Retained(old(store.runs), instanceID, settings, Scheduled(), removed)
  {
    hide Outdated, RemoveRuns, Matching;
    ghost var before := store.State();
    NothingRemovedFrom(before);
    removed := {};
    var kinds := [(Hourly, settings.keepHourly), (Daily, settings.keepDaily), (Weekly, settings.keepWeekly),
                  (Monthly, settings.keepMonthly)];
    ghost var done: set<Kind> := {};
    for i := 0 to |kinds|
      invariant store.Valid() && store.State() == RemoveRuns(before, removed)
      invariant done == set j | 0 <= j < i :: kinds[j].0
      invariant Retained(before.runs, instanceID, settings, done, removed)
    {
      var kind, keep := kinds[i].0, kinds[i].1;
      NoneOfKind(before.runs, instanceID, settings, done, removed, kind);
      ghost var more := RetainKind(store, instanceID, kind, keep, removed, before);
      RetainedStep(before.runs, instanceID, settings, done, removed, kind, more);
      removed, done := removed + more, done + {kind};
    }
    assert kinds[0].0 in done && kinds[1].0 in done && kinds[2].0 in done && kinds[3].0 in done;
    assert done == Scheduled();
  }

  lemma NoneOfKind(runs: map<int, RunRow>, instanceID: int, settings: BackupSettings, done: set<Kind>,
                   removed: set<int>, kind: Kind)
    requires Retained(runs, instanceID, settings, done, removed) && kind !in done
    ensures removed * Matching(runs, instanceID, kind) == {}
  {
    hide Outdated;
    forall id | id in removed ensures id !in Matching(runs, instanceID, kind) {
      assert runs[id].kind in done;
    }
  }

  // ----- what retention means -----

  /** Manual runs and other instances' runs are never removed. */
  lemma OthersUntouched(runs: map<int, RunRow>, instanceID: int, settings: BackupSettings, removed: set<int>, id: int)
    requires Retained(runs, instanceID, settings, Scheduled(), removed)
    requires id in runs && (runs[id].instanceID != instanceID || runs[id].kind == Manual)
    ensures id !in removed
  {}

  /** The newest run of every enabled kind survives. */
  lemma NewestSurvives(runs: map<int, RunRow>, instanceID: int, settings: BackupSettings, removed: set<int>, id: int)
    requires Retained(runs, instanceID, settings, Scheduled(), removed) && settings.Normalized()
    requires id in runs && runs[id].instanceID == instanceID && settings.Enables(runs[id].kind)
    requires forall k :: k in Matching(runs, instanceID, runs[id].kind) && k != id ==>
             runs[k].requestedAt < runs[id].requestedAt
    ensures id !in removed
  {
    var kind := runs[id].kind;
    var all := Matching(runs, instanceID, kind);
    var gone := removed * all;
    var kept := all - gone;
    assert settings.Keep(kind) >= 1;
    assert id in all;
    assert |kept| > 0;
    NonEmpty(kept);
    var k :| k in kept;
    assert id in removed <==> id in gone;
  }

  /** The runs of a kind requested after a run. */
  function Newer(runs: map<int, RunRow>, instanceID: int, kind: Kind, id: int): set<int>
    requires id in runs
  {
    set k | k in Matching(runs, instanceID, kind) && runs[k].requestedAt > runs[id].requestedAt
  }

  /** With distinct request times a run of a scheduled kind is removed exactly when `keep` newer ones exist. */
  lemma RemovedExactly(runs: map<int, RunRow>, instanceID: int, settings: BackupSettings, removed: set<int>, kind: Kind,
                       id: int)
    requires Retained(runs, instanceID, settings, Scheduled(), removed)
    requires kind != Manual && id in Matching(runs, instanceID, kind)
    requires forall a, b :: a in Matching(runs, instanceID, kind) && b in Matching(runs, instanceID, kind) ==>
               runs[a].requestedAt == runs[b].requestedAt ==> a == b
    ensures id in removed <==> |Newer(runs, instanceID, kind, id)| >= settings.Keep(kind)
  {
    var all, keep := Matching(runs, instanceID, kind), settings.Keep(kind);
    var gone := removed * all;
    var kept, newer := all - gone, Newer(runs, instanceID, kind, id);
    assert Outdated(runs, instanceID, kind, keep, gone);
    if id in removed {
      forall k | k in kept ensures k in newer {
        assert id in gone;
        assert runs[k].requestedAt >= runs[id].requestedAt;
      }
      SubsetSize(kept, newer);
      SubsetSize(newer + {id}, all);
    } else {
      forall k | k in newer ensures k in kept - {id} {
        assert id in kept;
      }
      SubsetSize(newer, kept - {id});
    }
  }
}
