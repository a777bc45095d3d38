/** Planning a restore: the difference between a snapshot and the live instance
    (internal/backups/restore_plan.go). */
module RestorePlan {
  import opened Text
  import opened Ordering

  datatype RestoreMode = Incremental | Overwrite | Complete

  // ----- snapshot and live state -----

  datatype CategorySnapshot = CategorySnapshot(savePath: string)

  datatype SnapshotTorrent = SnapshotTorrent(
    hash: string, name: string, category: Option<string>, tags: seq<string>, archivePath: string,
    blobPath: string, sizeBytes: int, infoHashV1: Option<string>, infoHashV2: Option<string>)

  datatype SnapshotState = SnapshotState(
    runID: int, instanceID: int, categories: map<string, CategorySnapshot>, tags: set<string>,
    torrents: map<string, SnapshotTorrent>)

  datatype LiveCategory = LiveCategory(name: string, savePath: string)

  datatype LiveTorrent = LiveTorrent(
    hash: string, name: string, category: string, tags: seq<string>, trackerURLs: seq<string>,
    infoHashV1: string, infoHashV2: string, sizeBytes: int)

  datatype LiveState = LiveState(
    instanceID: int, categories: map<string, LiveCategory>, tags: set<string>, torrents: map<string, LiveTorrent>)

  // ----- plans -----

  datatype CategorySpec = CategorySpec(name: string, savePath: string)
  datatype CategoryUpdate = CategoryUpdate(name: string, currentPath: string, desiredPath: string)
  datatype CategoryPlan = CategoryPlan(create: seq<CategorySpec>, update: seq<CategoryUpdate>, delete: seq<string>)

  datatype TagSpec = TagSpec(name: string)
  datatype TagPlan = TagPlan(create: seq<TagSpec>, delete: seq<string>)

  datatype ManifestItem = ManifestItem(
    hash: string, name: string, category: Option<string>, sizeBytes: int, archivePath: string,
    infoHashV1: Option<string>, infoHashV2: Option<string>, tags: seq<string>, torrentBlob: string)

  datatype TorrentSpec = TorrentSpec(manifest: ManifestItem)

  datatype DiffField = CategoryField | TagsField | InfoHashV1Field | InfoHashV2Field | SizeBytesField
  datatype DiffValue = TextValue(text: string) | TagsValue(tags: seq<string>) | SizeValue(size: int)
  datatype DiffChange = DiffChange(field: DiffField, supported: bool, current: DiffValue, desired: DiffValue)

  datatype TorrentUpdate = TorrentUpdate(
    hash: string, current: LiveTorrent, desired: SnapshotTorrent, changes: seq<DiffChange>)
  datatype TorrentPlan = TorrentPlan(add: seq<TorrentSpec>, update: seq<TorrentUpdate>, delete: seq<string>)

  datatype RestorePlan = RestorePlan(
    mode: RestoreMode, runID: int, instanceID: int, categories: CategoryPlan, tags: TagPlan, torrents: TorrentPlan)

  // ----- normalized keys, as the loaders of both states make them -----

  predicate NormalName(s: string) {
    s != "" && Trimmed(s)
  }

  predicate NormalHash(s: string) {
    s != "" && Normalize(s) == s
  }

  ghost predicate NormalNames(names: set<string>) {
    forall n :: n in names ==> NormalName(n)
  }

  ghost predicate NormalHashes(hashes: set<string>) {
    forall h :: h in hashes ==> NormalHash(h)
  }

  ghost predicate NormalSnapshot(s: SnapshotState) {
    && NormalNames(s.categories.Keys) && NormalNames(s.tags) && NormalHashes(s.torrents.Keys)
    && (forall n :: n in s.categories ==> Trimmed(s.categories[n].savePath))
    && (forall h :: h in s.torrents ==>
          && s.torrents[h].hash == h
          && forall t :: t in s.torrents[h].tags ==> CleanEntry(t))
  }

  ghost predicate NormalKeys(s: LiveState) {
    NormalNames(s.categories.Keys) && NormalNames(s.tags) && NormalHashes(s.torrents.Keys)
  }

  ghost predicate NormalLive(s: LiveState) {
    && NormalKeys(s)
    && (forall n :: n in s.categories ==> s.categories[n].name == n && Trimmed(s.categories[n].savePath))
    && (forall h :: h in s.torrents ==>
          && s.torrents[h].hash == h
          && Trimmed(s.torrents[h].category)
          && forall t :: t in s.torrents[h].tags ==> CleanEntry(t))
  }

  // ----- comparing torrents -----

  /** `normalizeCategory`. */
  function NormalizeCategory(category: Option<string>): string {
    if category.Some? then Trim(category.value) else ""
  }

  function ToStringSet(items: seq<string>): set<string> {
    set t | t in items && Trim(t) != "" :: Trim(t)
  }

  predicate StringSetsEqual(a: seq<string>, b: seq<string>) {
    ToStringSet(a) == ToStringSet(b)
  }

  /** The change of a read-only identity field, reported but never applied. */
  function InfoHashChange(field: DiffField, desired: Option<string>, live: string): seq<DiffChange> {
    if desired.Some? && Trim(desired.value) != "" && Trim(desired.value) != Trim(live)
    then [DiffChange(field, false, TextValue(Trim(live)), TextValue(Trim(desired.value)))]
    else []
  }

  function ComputeTorrentChanges(snapshot: SnapshotTorrent, live: LiveTorrent): seq<DiffChange> {
    var snapshotCategory, liveCategory := NormalizeCategory(snapshot.category), Trim(live.category);
    (if snapshotCategory != liveCategory
     then [DiffChange(CategoryField, true, TextValue(liveCategory), TextValue(snapshotCategory))] else [])
    + (if !StringSetsEqual(snapshot.tags, live.tags)
       then [DiffChange(TagsField, true, TagsValue(live.tags), TagsValue(snapshot.tags))] else [])
    + InfoHashChange(InfoHashV1Field, snapshot.infoHashV1, live.infoHashV1)
    + InfoHashChange(InfoHashV2Field, snapshot.infoHashV2, live.infoHashV2)
    + (if snapshot.sizeBytes > 0 && snapshot.sizeBytes != live.sizeBytes
       then [DiffChange(SizeBytesField, false, SizeValue(live.sizeBytes), SizeValue(snapshot.sizeBytes))] else [])
  }

  function TrimInfoHash(v: Option<string>): Option<string> {
    if v.Some? && Trim(v.value) != "" then Some(Trim(v.value)) else None
  }

  function SnapshotTorrentToManifestItem(t: SnapshotTorrent): ManifestItem {
    ManifestItem(Normalize(t.hash), t.name,
                 if t.category.Some? then Some(Trim(t.category.value)) else None,
                 t.sizeBytes, t.archivePath, TrimInfoHash(t.infoHashV1), TrimInfoHash(t.infoHashV2),
                 t.tags, t.blobPath)
  }

  // ----- what each key of a state puts into the plan -----

  predicate AllowUpdates(mode: RestoreMode) {
    mode == Overwrite || mode == Complete
  }

  predicate IncludeDeletes(mode: RestoreMode) {
    mode == Complete
  }

  function CategoryCreated(snapshot: map<string, CategorySnapshot>, live: map<string, LiveCategory>, k: string)
    : Option<CategorySpec>
  {
    if k in snapshot && Trim(k) != "" && Trim(k) !in live
    then Some(CategorySpec(Trim(k), Trim(snapshot[k].savePath)))
    else None
  }

  function CategoryUpdated(snapshot: map<string, CategorySnapshot>, live: map<string, LiveCategory>,
                           mode: RestoreMode, k: string): Option<CategoryUpdate>
  {
    if k !in snapshot then None else
    var desired := Trim(snapshot[k].savePath);
    if Trim(k) != "" && Trim(k) in live && AllowUpdates(mode) && desired != live[Trim(k)].savePath
    then Some(CategoryUpdate(Trim(k), live[Trim(k)].savePath, desired)) else None
  }

  /** A live name the snapshot lacks. */
  function NameDeleted(snapshot: set<string>, mode: RestoreMode, k: string): Option<string> {
    if IncludeDeletes(mode) && Trim(k) != "" && Trim(k) !in snapshot then Some(Trim(k)) else None
  }

  function TagCreated(live: set<string>, k: string): Option<TagSpec> {
    if Trim(k) != "" && Trim(k) !in live then Some(TagSpec(Trim(k))) else None
  }

  function TorrentAdded(snapshot: map<string, SnapshotTorrent>, live: map<string, LiveTorrent>, k: string)
    : Option<TorrentSpec>
  {
    if k in snapshot && Normalize(k) != "" && Normalize(k) !in live
    then Some(TorrentSpec(SnapshotTorrentToManifestItem(snapshot[k]))) else None
  }

  function TorrentUpdated(snapshot: map<string, SnapshotTorrent>, live: map<string, LiveTorrent>,
                          mode: RestoreMode, k: string): Option<TorrentUpdate>
  {
    var h := Normalize(k);
    if k in snapshot && h != "" && h in live && AllowUpdates(mode) && ComputeTorrentChanges(snapshot[k], live[h]) != []
    then Some(TorrentUpdate(h, live[h], snapshot[k], ComputeTorrentChanges(snapshot[k], live[h]))) else None
  }

  function TorrentDeleted(snapshot: set<string>, mode: RestoreMode, k: string): Option<string> {
    if IncludeDeletes(mode) && Normalize(k) != "" && Normalize(k) !in snapshot then Some(Normalize(k)) else None
  }

  // ----- the orders the plan is sorted by -----

  predicate CategorySpecLeq(a: CategorySpec, b: CategorySpec) { Leq(a.name, b.name) }
  predicate CategoryUpdateLeq(a: CategoryUpdate, b: CategoryUpdate) { Leq(a.name, b.name) }
  predicate TagSpecLeq(a: TagSpec, b: TagSpec) { Leq(a.name, b.name) }
  predicate TorrentSpecLeq(a: TorrentSpec, b: TorrentSpec) {
    Leq(Normalize(a.manifest.hash), Normalize(b.manifest.hash))
  }
  predicate TorrentUpdateLeq(a: TorrentUpdate, b: TorrentUpdate) { Leq(Normalize(a.hash), Normalize(b.hash)) }

  // ----- what a plan is -----

  /** The list holds the entries picked for the given keys, in order, and none of them twice when the keys
      are normalized. */
  ghost predicate Lists<T(!new)>(s: seq<T>, le: (T, T) -> bool, keys: set<string>, pick: string -> Option<T>,
                                 normalKeys: bool)
  {
    && (forall x :: x in s <==> exists k :: k in keys && pick(k) == Some(x))
    && SortedBy(le, s)
    && (normalKeys ==> NoDuplicates(s))
  }

  function CategoryCreates(snapshot: map<string, CategorySnapshot>, live: map<string, LiveCategory>)
    : string -> Option<CategorySpec>
  {
    k => CategoryCreated(snapshot, live, k)
  }

  function CategoryUpdates(snapshot: map<string, CategorySnapshot>, live: map<string, LiveCategory>, mode: RestoreMode)
    : string -> Option<CategoryUpdate>
  {
    k => CategoryUpdated(snapshot, live, mode, k)
  }

  function NameDeletes(snapshot: set<string>, mode: RestoreMode): string -> Option<string> {
    k => NameDeleted(snapshot, mode, k)
  }

  function TagCreates(live: set<string>): string -> Option<TagSpec> {
    k => TagCreated(live, k)
  }

  function TorrentAdds(snapshot: map<string, SnapshotTorrent>, live: map<string, LiveTorrent>)
    : string -> Option<TorrentSpec>
  {
    k => TorrentAdded(snapshot, live, k)
  }

  function TorrentUpdates(snapshot: map<string, SnapshotTorrent>, live: map<string, LiveTorrent>, mode: RestoreMode)
    : string -> Option<TorrentUpdate>
  {
    k => TorrentUpdated(snapshot, live, mode, k)
  }

  function TorrentDeletes(snapshot: set<string>, mode: RestoreMode): string -> Option<string> {
    k => TorrentDeleted(snapshot, mode, k)
  }

  ghost predicate IsCategoryPlan(plan: CategoryPlan, snapshot: map<string, CategorySnapshot>,
                                 live: map<string, LiveCategory>, mode: RestoreMode)
  {
    && Lists(plan.create, CategorySpecLeq, snapshot.Keys, CategoryCreates(snapshot, live), NormalNames(snapshot.Keys))
    && Lists(plan.update, CategoryUpdateLeq, snapshot.Keys, CategoryUpdates(snapshot, live, mode),
             NormalNames(snapshot.Keys))
    && Lists(plan.delete, Leq, live.Keys, NameDeletes(snapshot.Keys, mode), NormalNames(live.Keys))
  }

  ghost predicate IsTagPlan(plan: TagPlan, snapshot: set<string>, live: set<string>, mode: RestoreMode) {
    && Lists(plan.create, TagSpecLeq, snapshot, TagCreates(live), NormalNames(snapshot))
    && Lists(plan.delete, Leq, live, NameDeletes(snapshot, mode), NormalNames(live))
  }

  /** Keys under which the hash stored in the entry is the key, so that entries differ when keys do. */
  ghost predicate NormalTorrentKeys(snapshot: map<string, SnapshotTorrent>) {
    forall h :: h in snapshot ==> NormalHash(h) && snapshot[h].hash == h
  }

  ghost predicate IsTorrentPlan(plan: TorrentPlan, snapshot: map<string, SnapshotTorrent>,
                                live: map<string, LiveTorrent>, mode: RestoreMode)
  {
    && Lists(plan.add, TorrentSpecLeq, snapshot.Keys, TorrentAdds(snapshot, live), NormalTorrentKeys(snapshot))
    && Lists(plan.update, TorrentUpdateLeq, snapshot.Keys, TorrentUpdates(snapshot, live, mode),
             NormalTorrentKeys(snapshot))
    && Lists(plan.delete, Leq, live.Keys, TorrentDeletes(snapshot.Keys, mode), NormalHashes(live.Keys))
  }

  ghost predicate IsRestorePlan(plan: RestorePlan, snapshot: SnapshotState, live: LiveState, mode: RestoreMode) {
    && plan.mode == mode && plan.runID == snapshot.runID && plan.instanceID == snapshot.instanceID
    && IsCategoryPlan(plan.categories, snapshot.categories, live.categories, mode)
    && IsTagPlan(plan.tags, snapshot.tags, live.tags, mode)
    && IsTorrentPlan(plan.torrents, snapshot.torrents, live.torrents, mode)
  }

  // ----- the builders -----

  /** What walking the keys seen so far, in any order, has collected: an entry for every key that has one,
      and no entry twice if no two keys have the same. */
  ghost predicate Collected<T(!new)>(items: seq<T>, seen: set<string>, all: set<string>, pick: string -> Option<T>) {
    && seen <= all
    && (forall x :: x in items <==> exists k :: k in seen && pick(k) == Some(x))
    && (InjectiveOn(pick, all) ==> NoDuplicates(items))
  }

  ghost predicate InjectiveOn<T(!new)>(pick: string -> Option<T>, all: set<string>) {
    forall a, b :: a in all && b in all && a != b && pick(a).Some? ==> pick(a) != pick(b)
  }

  lemma CollectStep<T(!new)>(items: seq<T>, seen: set<string>, all: set<string>, pick: string -> Option<T>, k: string)
    requires Collected(items, seen, all, pick) && k in all - seen
    ensures Collected(items + if pick(k).Some? then [pick(k).value] else [], seen + {k}, all, pick)
  {
    var longer := items + if pick(k).Some? then [pick(k).value] else [];
    forall x ensures x in longer <==> exists j :: j in seen + {k} && pick(j) == Some(x) {
      if x in items {
        var j :| j in seen && pick(j) == Some(x);
        assert j in seen + {k};
      } else if x in longer {
        assert k in seen + {k} && pick(k) == Some(x);
      }
    }
  }

  /** Sorting what was collected. */
  lemma SortCollected<T(!new)>(le: (T, T) -> bool, items: seq<T>, all: set<string>, pick: string -> Option<T>,
                               normalKeys: bool)
    requires TotalPreorder(le) && Collected(items, all, all, pick) && (normalKeys ==> InjectiveOn(pick, all))
    ensures Lists(SortBy(le, items), le, all, pick, normalKeys)
  {
    SortedPermutation(le, items);
    SamePermutationDuplicates(items, SortBy(le, items));
  }

  lemma PlanOrdersAreTotal()
    ensures TotalPreorder(CategorySpecLeq) && TotalPreorder(CategoryUpdateLeq) && TotalPreorder(TagSpecLeq)
    ensures TotalPreorder(TorrentSpecLeq) && TotalPreorder(TorrentUpdateLeq) && TotalPreorder(Leq)
  {
    LeqIsTotalPreorder();
  }

  lemma CollectNothing<T(!new)>(all: set<string>, pick: string -> Option<T>)
    ensures Collected([], {}, all, pick)
  {}

  lemma NamesPickOnce(snapshot: map<string, CategorySnapshot>, live: map<string, LiveCategory>, mode: RestoreMode)
    requires NormalNames(snapshot.Keys)
    ensures InjectiveOn(CategoryCreates(snapshot, live), snapshot.Keys)
    ensures InjectiveOn(CategoryUpdates(snapshot, live, mode), snapshot.Keys)
  {}

  lemma DeletesPickOnce(snapshot: set<string>, live: set<string>, mode: RestoreMode)
    requires NormalNames(live)
    ensures InjectiveOn(NameDeletes(snapshot, mode), live)
  {}

  /** The categories' loops collect per-key entries; sorted, they are the plan. */
  lemma CategoryPlanSorted(snapshot: map<string, CategorySnapshot>, live: map<string, LiveCategory>, mode: RestoreMode,
                           create: seq<CategorySpec>, update: seq<CategoryUpdate>, delete: seq<string>)
    requires Collected(create, snapshot.Keys, snapshot.Keys, CategoryCreates(snapshot, live))
    requires Collected(update, snapshot.Keys, snapshot.Keys, CategoryUpdates(snapshot, live, mode))
    requires Collected(delete, live.Keys, live.Keys, NameDeletes(snapshot.Keys, mode))
    ensures IsCategoryPlan(CategoryPlan(SortBy(CategorySpecLeq, create), SortBy(CategoryUpdateLeq, update),
                                        SortStrings(delete)), snapshot, live, mode)
  {
    hide Collected, Lists, SortBy, TotalPreorder, InjectiveOn, NormalNames, NormalHashes;
    PlanOrdersAreTotal();
    if NormalNames(snapshot.Keys) { NamesPickOnce(snapshot, live, mode); }
    if NormalNames(live.Keys) { DeletesPickOnce(snapshot.Keys, live.Keys, mode); }
    SortCollected(CategorySpecLeq, create, snapshot.Keys, CategoryCreates(snapshot, live), NormalNames(snapshot.Keys));
    SortCollected(CategoryUpdateLeq, update, snapshot.Keys, CategoryUpdates(snapshot, live, mode),
                  NormalNames(snapshot.Keys));
    SortCollected(Leq, delete, live.Keys, NameDeletes(snapshot.Keys, mode), NormalNames(live.Keys));
    assert SortStrings(delete) == SortBy(Leq, delete);
  }

  method BuildCategoryPlan(snapshot: map<string, CategorySnapshot>, live: map<string, LiveCategory>, mode: RestoreMode)
    returns (plan: CategoryPlan)
    ensures IsCategoryPlan(plan, snapshot, live, mode)
  {
    hide Collected, IsCategoryPlan, SortBy;
    var allowUpdates := mode == Overwrite || mode == Complete;
    var create: seq<CategorySpec>, update: seq<CategoryUpdate> := [], [];
    var todo := snapshot.Keys;
    ghost var seen := {};
    CollectNothing(snapshot.Keys, CategoryCreates(snapshot, live));
    CollectNothing(snapshot.Keys, CategoryUpdates(snapshot, live, mode));
    while todo != {}
      invariant todo <= snapshot.Keys && seen == snapshot.Keys - todo
      invariant Collected(create, seen, snapshot.Keys, CategoryCreates(snapshot, live))
      invariant Collected(update, seen, snapshot.Keys, CategoryUpdates(snapshot, live, mode))
      decreases todo
    {
      var name :| name in todo;
      CollectStep(create, seen, snapshot.Keys, CategoryCreates(snapshot, live), name);
      CollectStep(update, seen, snapshot.Keys, CategoryUpdates(snapshot, live, mode), name);
      assert create + [] == create && update + [] == update;
      todo, seen := todo - {name}, seen + {name};
      var trimmedName := Trim(name);
      if trimmedName == "" {
        continue;
      }
      var desiredPath := Trim(snapshot[name].savePath);
      if trimmedName !in live {
        create := create + [CategorySpec(trimmedName, desiredPath)];
        continue;
      }
      if allowUpdates && desiredPath != live[trimmedName].savePath {
        update := update + [CategoryUpdate(trimmedName, live[trimmedName].savePath, desiredPath)];
      }
    }
    assert seen == snapshot.Keys;
    var delete := BuildNameDeletes(snapshot.Keys, live.Keys, mode);
    CategoryPlanSorted(snapshot, live, mode, create, update, delete);
    plan := CategoryPlan(SortBy(CategorySpecLeq, create), SortBy(CategoryUpdateLeq, update), SortStrings(delete));
  }

  /** The second loop of the category and of the tag plan. */
  method BuildNameDeletes(snapshot: set<string>, live: set<string>, mode: RestoreMode) returns (delete: seq<string>)
    ensures Collected(delete, live, live, NameDeletes(snapshot, mode))
  {
    var includeDeletes := mode == Complete;
    delete := [];
    if !includeDeletes {
      return;
    }
    hide Collected;
    var todo := live;
    ghost var seen := {};
    CollectNothing(live, NameDeletes(snapshot, mode));
    while todo != {}
      invariant todo <= live && seen == live - todo
      invariant Collected(delete, seen, live, NameDeletes(snapshot, mode))
      decreases todo
    {
      var name :| name in todo;
      CollectStep(delete, seen, live, NameDeletes(snapshot, mode), name);
      todo, seen := todo - {name}, seen + {name};
      var trimmedName := Trim(name);
      if trimmedName == "" {
        continue;
      }
      if trimmedName !in snapshot {
        delete := delete + [trimmedName];
      }
    }
    assert seen == live;
  }

  // ----- tags -----

  lemma TagPlanSorted(snapshot: set<string>, live: set<string>, mode: RestoreMode,
                      create: seq<TagSpec>, delete: seq<string>)
    requires Collected(create, snapshot, snapshot, TagCreates(live))
    requires Collected(delete, live, live, NameDeletes(snapshot, mode))
    ensures IsTagPlan(TagPlan(SortBy(TagSpecLeq, create), SortStrings(delete)), snapshot, live, mode)
  {
    hide Collected, Lists, SortBy, TotalPreorder, InjectiveOn, NormalNames, NormalHashes;
    PlanOrdersAreTotal();
    if NormalNames(snapshot) { TagsPickOnce(snapshot, live); }
    if NormalNames(live) { DeletesPickOnce(snapshot, live, mode); }
    SortCollected(TagSpecLeq, create, snapshot, TagCreates(live), NormalNames(snapshot));
    SortCollected(Leq, delete, live, NameDeletes(snapshot, mode), NormalNames(live));
    assert SortStrings(delete) == SortBy(Leq, delete);
  }

  lemma TagsPickOnce(snapshot: set<string>, live: set<string>)
    requires NormalNames(snapshot)
    ensures InjectiveOn(TagCreates(live), snapshot)
  {}

  method BuildTagPlan(snapshot: set<string>, live: set<string>, mode: RestoreMode) returns (plan: TagPlan)
    ensures IsTagPlan(plan, snapshot, live, mode)
  {
    hide Collected, IsTagPlan, SortBy;
    var create: seq<TagSpec> := [];
    var todo := snapshot;
    ghost var seen := {};
    CollectNothing(snapshot, TagCreates(live));
    while todo != {}
      invariant todo <= snapshot && seen == snapshot - todo
      invariant Collected(create, seen, snapshot, TagCreates(live))
      decreases todo
    {
      var tag :| tag in todo;
      CollectStep(create, seen, snapshot, TagCreates(live), tag);
      assert create + [] == create;
      todo, seen := todo - {tag}, seen + {tag};
      var trimmed := Trim(tag);
      if trimmed == "" {
        continue;
      }
      if trimmed !in live {
        create := create + [TagSpec(trimmed)];
      }
    }
    assert seen == snapshot;
    var delete := BuildNameDeletes(snapshot, live, mode);
    TagPlanSorted(snapshot, live, mode, create, delete);
    plan := TagPlan(SortBy(TagSpecLeq, create), SortStrings(delete));
  }

  // ----- torrents -----

  lemma TorrentsPickOnce(snapshot: map<string, SnapshotTorrent>, live: map<string, LiveTorrent>, mode: RestoreMode)
    requires NormalTorrentKeys(snapshot)
    ensures InjectiveOn(TorrentAdds(snapshot, live), snapshot.Keys)
    ensures InjectiveOn(TorrentUpdates(snapshot, live, mode), snapshot.Keys)
  {
    hide ComputeTorrentChanges;
    forall a, b | a in snapshot && b in snapshot && a != b && TorrentAdded(snapshot, live, a).Some?
      ensures TorrentAdded(snapshot, live, a) != TorrentAdded(snapshot, live, b)
    {
      assert Normalize(snapshot[a].hash) == a && Normalize(snapshot[b].hash) == b;
    }
  }

  lemma HashesPickOnce(snapshot: set<string>, live: set<string>, mode: RestoreMode)
    requires NormalHashes(live)
    ensures InjectiveOn(TorrentDeletes(snapshot, mode), live)
  {}

  lemma TorrentPlanSorted(snapshot: map<string, SnapshotTorrent>, live: map<string, LiveTorrent>, mode: RestoreMode,
                          add: seq<TorrentSpec>, update: seq<TorrentUpdate>, delete: seq<string>)
    requires Collected(add, snapshot.Keys, snapshot.Keys, TorrentAdds(snapshot, live))
    requires Collected(update, snapshot.Keys, snapshot.Keys, TorrentUpdates(snapshot, live, mode))
    requires Collected(delete, live.Keys, live.Keys, TorrentDeletes(snapshot.Keys, mode))
    ensures IsTorrentPlan(TorrentPlan(SortBy(TorrentSpecLeq, add), SortBy(TorrentUpdateLeq, update),
                                      SortStrings(delete)), snapshot, live, mode)
  {
    hide Collected, Lists, SortBy, TotalPreorder, InjectiveOn, NormalNames, NormalHashes;
    PlanOrdersAreTotal();
    if NormalTorrentKeys(snapshot) { TorrentsPickOnce(snapshot, live, mode); }
    if NormalHashes(live.Keys) { HashesPickOnce(snapshot.Keys, live.Keys, mode); }
    SortCollected(TorrentSpecLeq, add, snapshot.Keys, TorrentAdds(snapshot, live), NormalTorrentKeys(snapshot));
    SortCollected(TorrentUpdateLeq, update, snapshot.Keys, TorrentUpdates(snapshot, live, mode),
                  NormalTorrentKeys(snapshot));
    SortCollected(Leq, delete, live.Keys, TorrentDeletes(snapshot.Keys, mode), NormalHashes(live.Keys));
    assert SortStrings(delete) == SortBy(Leq, delete);
  }

  method BuildTorrentPlan(snapshot: map<string, SnapshotTorrent>, live: map<string, LiveTorrent>, mode: RestoreMode)
    returns (plan: TorrentPlan)
    ensures IsTorrentPlan(plan, snapshot, live, mode)
  {
    hide Collected, IsTorrentPlan, SortBy, ComputeTorrentChanges;
    var allowUpdates := mode == Overwrite || mode == Complete;
    var add: seq<TorrentSpec>, update: seq<TorrentUpdate> := [], [];
    var todo := snapshot.Keys;
    ghost var seen := {};
    CollectNothing(snapshot.Keys, TorrentAdds(snapshot, live));
    CollectNothing(snapshot.Keys, TorrentUpdates(snapshot, live, mode));
    while todo != {}
      invariant todo <= snapshot.Keys && seen == snapshot.Keys - todo
      invariant Collected(add, seen, snapshot.Keys, TorrentAdds(snapshot, live))
      invariant Collected(update, seen, snapshot.Keys, TorrentUpdates(snapshot, live, mode))
      decreases todo
    {
      var hash :| hash in todo;
      CollectStep(add, seen, snapshot.Keys, TorrentAdds(snapshot, live), hash);
      CollectStep(update, seen, snapshot.Keys, TorrentUpdates(snapshot, live, mode), hash);
      assert add + [] == add && update + [] == update;
      todo, seen := todo - {hash}, seen + {hash};
      var normalizedHash, snap := Normalize(hash), snapshot[hash];
      if normalizedHash == "" {
        continue;
      }
      if normalizedHash !in live {
        add := add + [TorrentSpec(SnapshotTorrentToManifestItem(snap))];
        continue;
      }
      if !allowUpdates {
        continue;
      }
      var changes := ComputeTorrentChanges(snap, live[normalizedHash]);
      if |changes| == 0 {
        continue;
      }
      update := update + [TorrentUpdate(normalizedHash, live[normalizedHash], snap, changes)];
    }
    assert seen == snapshot.Keys;
    var delete := BuildTorrentDeletes(snapshot, live, mode);
    TorrentPlanSorted(snapshot, live, mode, add, update, delete);
    plan := TorrentPlan(SortBy(TorrentSpecLeq, add), SortBy(TorrentUpdateLeq, update), SortStrings(delete));
  }

  method BuildTorrentDeletes(snapshot: map<string, SnapshotTorrent>, live: map<string, LiveTorrent>, mode: RestoreMode)
    returns (delete: seq<string>)
    ensures Collected(delete, live.Keys, live.Keys, TorrentDeletes(snapshot.Keys, mode))
  {
    var includeDeletes := mode == Complete;
    delete := [];
    if !includeDeletes {
      return;
    }
    hide Collected;
    var todo := live.Keys;
    ghost var seen := {};
    CollectNothing(live.Keys, TorrentDeletes(snapshot.Keys, mode));
    while todo != {}
      invariant todo <= live.Keys && seen == live.Keys - todo
      invariant Collected(delete, seen, live.Keys, TorrentDeletes(snapshot.Keys, mode))
      decreases todo
    {
      var hash :| hash in todo;
      CollectStep(delete, seen, live.Keys, TorrentDeletes(snapshot.Keys, mode), hash);
      assert delete + [] == delete;
      todo, seen := todo - {hash}, seen + {hash};
      var normalizedHash := Normalize(hash);
      if normalizedHash == "" {
        continue;
      }
      if normalizedHash !in snapshot {
        delete := delete + [normalizedHash];
      }
    }
    assert seen == live.Keys;
  }

  method BuildRestorePlan(snapshot: SnapshotState, live: LiveState, mode: RestoreMode) returns (plan: RestorePlan)
    ensures IsRestorePlan(plan, snapshot, live, mode)
  {
    var categories := BuildCategoryPlan(snapshot.categories, live.categories, mode);
    var tags := BuildTagPlan(snapshot.tags, live.tags, mode);
    var torrents := BuildTorrentPlan(snapshot.torrents, live.torrents, mode);
    plan := RestorePlan(mode, snapshot.runID, snapshot.instanceID, categories, tags, torrents);
  }

  // ----- exclusions -----

  /** `buildHashSet`: the excluded hashes, normalized. */
  function BuildHashSet(items: seq<string>): set<string> {
    set h | h in items && Normalize(h) != "" :: Normalize(h)
  }

  predicate ShouldSkipTorrent(hash: string, exclude: set<string>) {
    Normalize(hash) in exclude
  }

  function Filter<T>(s: seq<T>, keep: T -> bool): seq<T> {
    if s == [] then []
    else
      var front, x := Filter(s[..|s| - 1], keep), s[|s| - 1];
      if keep(x) then front + [x] else front
  }

  /** The filters that reuse their input's storage: the result grows in the part already read. */
  method FilterInPlace<T>(items: array<T>, keep: T -> bool) returns (n: nat)
    modifies items
    ensures n <= items.Length && items[..n] == Filter(old(items[..]), keep)
  {
    n := 0;
    var i := 0;
    while i < items.Length
      invariant 0 <= n <= i <= items.Length
      invariant items[i..] == old(items[..])[i..]
      invariant items[..n] == Filter(old(items[..])[..i], keep)
    {
      var item := items[i];
      assert old(items[..])[..i + 1][..i] == old(items[..])[..i];
      assert item == items[i..][0] == old(items[..])[i];
      if keep(item) {
        items[n] := item;
        n := n + 1;
      }
      i := i + 1;
    }
    assert old(items[..])[..i] == old(items[..]);
  }

  method FilterItems<T>(items: seq<T>, keep: T -> bool) returns (kept: seq<T>)
    ensures kept == Filter(items, keep)
  {
    if items == [] {
      return items;
    }
    var storage := new T[|items|](i requires 0 <= i < |items| => items[i]);
    assert storage[..] == items;
    var n := FilterInPlace(storage, keep);
    kept := storage[..n];
  }

  function KeepSpec(exclude: set<string>): TorrentSpec -> bool {
    (spec: TorrentSpec) => !ShouldSkipTorrent(spec.manifest.hash, exclude)
  }

  function KeepUpdate(exclude: set<string>): TorrentUpdate -> bool {
    (update: TorrentUpdate) => !ShouldSkipTorrent(update.hash, exclude)
  }

  function KeepHash(exclude: set<string>): string -> bool {
    (hash: string) => !ShouldSkipTorrent(hash, exclude)
  }

  /** The plan without the torrent entries of excluded hashes. */
  function WithoutExcluded(plan: RestorePlan, exclude: set<string>): RestorePlan {
    plan.(torrents := TorrentPlan(Filter(plan.torrents.add, KeepSpec(exclude)),
                                  Filter(plan.torrents.update, KeepUpdate(exclude)),
                                  Filter(plan.torrents.delete, KeepHash(exclude))))
  }

  method ApplyRestorePlanOptions(plan: RestorePlan, excludeHashes: seq<string>) returns (result: RestorePlan)
    ensures result == WithoutExcluded(plan, BuildHashSet(excludeHashes))
  {
    var exclude := BuildHashSet(excludeHashes);
    if exclude == {} {
      FilterKeepsAll(plan.torrents.add, KeepSpec(exclude));
      FilterKeepsAll(plan.torrents.update, KeepUpdate(exclude));
      FilterKeepsAll(plan.torrents.delete, KeepHash(exclude));
      return plan;
    }
    var add := FilterItems(plan.torrents.add, KeepSpec(exclude));
    var update := FilterItems(plan.torrents.update, KeepUpdate(exclude));
    var delete := FilterItems(plan.torrents.delete, KeepHash(exclude));
    result := plan.(torrents := TorrentPlan(add, update, delete));
  }

  lemma {:induction false} FilterKeepsAll<T>(s: seq<T>, keep: T -> bool)
    requires forall x :: x in s ==> keep(x)
    ensures Filter(s, keep) == s
  {
    if s != [] {
      FilterKeepsAll(s[..|s| - 1], keep);
    }
  }

  /** Filtering keeps exactly the wanted elements. */
  lemma {:induction false} FilterContents<T(!new)>(s: seq<T>, keep: T -> bool)
    ensures forall x :: x in Filter(s, keep) <==> x in s && keep(x)
  {
    if s != [] {
      FilterContents(s[..|s| - 1], keep);
      assert s == s[..|s| - 1] + [s[|s| - 1]];
    }
  }

  /** Filtering keeps the order. */
  lemma {:induction false} FilterOrder<T(!new)>(s: seq<T>, keep: T -> bool, le: (T, T) -> bool)
    requires SortedBy(le, s)
    ensures SortedBy(le, Filter(s, keep))
  {
    if s != [] {
      var front, x := s[..|s| - 1], s[|s| - 1];
      FilterOrder(front, keep, le);
      FilterContents(front, keep);
      forall i | 0 <= i < |Filter(front, keep)| ensures le(Filter(front, keep)[i], x) {
        var y := Filter(front, keep)[i];
        assert y in Filter(front, keep);
        assert y in front;
        var j :| 0 <= j < |front| && front[j] == y;
        assert s[j] == front[j];
      }
    }
  }

  /** No entry of the filtered plan names an excluded hash, and every other entry is still there. */
  lemma ExcludedAreGone(plan: RestorePlan, exclude: set<string>)
    ensures var r := WithoutExcluded(plan, exclude);
            && (forall a :: a in r.torrents.add <==> a in plan.torrents.add && Normalize(a.manifest.hash) !in exclude)
            && (forall u :: u in r.torrents.update <==> u in plan.torrents.update && Normalize(u.hash) !in exclude)
            && (forall d :: d in r.torrents.delete <==> d in plan.torrents.delete && Normalize(d) !in exclude)
            && (SortedBy(Leq, plan.torrents.delete) ==> SortedBy(Leq, r.torrents.delete))
  {
    if SortedBy(Leq, plan.torrents.delete) {
      FilterOrder(plan.torrents.delete, KeepHash(exclude), Leq);
    }
    FilterContents(plan.torrents.add, KeepSpec(exclude));
    FilterContents(plan.torrents.update, KeepUpdate(exclude));
    FilterContents(plan.torrents.delete, KeepHash(exclude));
  }

  /** In terms of the hashes as they are given: an entry goes exactly if some given hash that is not blank is the same
      but for surrounding white space and letter case. */
  lemma ExcludedByHash(plan: RestorePlan, excludeHashes: seq<string>)
    ensures var r := WithoutExcluded(plan, BuildHashSet(excludeHashes)).torrents;
            && (forall a :: a in r.add <==> a in plan.torrents.add && !Named(a.manifest.hash, excludeHashes))
            && (forall u :: u in r.update <==> u in plan.torrents.update && !Named(u.hash, excludeHashes))
            && (forall d :: d in r.delete <==> d in plan.torrents.delete && !Named(d, excludeHashes))
  {
    hide Normalize;
    ExcludedAreGone(plan, BuildHashSet(excludeHashes));
    forall h ensures Normalize(h) in BuildHashSet(excludeHashes) <==> Named(h, excludeHashes) {
      if Normalize(h) in BuildHashSet(excludeHashes) {
        var x :| x in excludeHashes && Normalize(x) != "" && Normalize(x) == Normalize(h);
        BlankHash(x);
        assert Lower(Trim(x)) == Lower(Trim(h)) by { BlankHash(h); }
      }
      if Named(h, excludeHashes) {
        var x :| x in excludeHashes && Trim(x) != "" && Lower(Trim(x)) == Lower(Trim(h));
        BlankHash(x);
        BlankHash(h);
      }
    }
  }

  predicate Named(hash: string, hashes: seq<string>) {
    exists x :: x in hashes && Trim(x) != "" && Lower(Trim(x)) == Lower(Trim(hash))
  }

  lemma BlankHash(h: string)
    ensures Normalize(h) == Lower(Trim(h)) && (Normalize(h) == "" <==> Trim(h) == "")
  {
    assert |Normalize(h)| == |Trim(h)|;
  }

  // ----- the entries of a plan, for any states -----

  /** The categories to create, sorted: those named in the snapshot, after trimming, that are not live. */
  lemma CreatesPlanned(p: CategoryPlan, snapshot: map<string, CategorySnapshot>, live: map<string, LiveCategory>,
                       mode: RestoreMode, n: string)
    requires IsCategoryPlan(p, snapshot, live, mode)
    ensures (exists c :: c in p.create && c.name == n)
       <==> n != "" && n !in live && exists k :: k in snapshot && Trim(k) == n
    ensures forall c :: c in p.create ==>
              exists k :: k in snapshot && Trim(k) == c.name && c.savePath == Trim(snapshot[k].savePath)
    ensures forall i, j :: 0 <= i < j < |p.create| ==> Leq(p.create[i].name, p.create[j].name)
  {
    hide Trim, Leq, NoDuplicates, CategoryUpdates, NameDeletes, NormalNames;
    if k :| k in snapshot && Trim(k) == n && n != "" && n !in live {
      assert CategoryCreates(snapshot, live)(k) == Some(CategorySpec(n, Trim(snapshot[k].savePath)));
    }
  }

  /** Those to update: live ones with another path, unless the restore is incremental. */
  lemma UpdatesPlanned(p: CategoryPlan, snapshot: map<string, CategorySnapshot>, live: map<string, LiveCategory>,
                       mode: RestoreMode, n: string)
    requires IsCategoryPlan(p, snapshot, live, mode)
    ensures (exists u :: u in p.update && u.name == n)
       <==> mode != Incremental && n != "" && n in live
            && exists k :: k in snapshot && Trim(k) == n && Trim(snapshot[k].savePath) != live[n].savePath
    ensures forall u :: u in p.update ==>
              && u.name in live && u.currentPath == live[u.name].savePath
              && exists k :: k in snapshot && Trim(k) == u.name && u.desiredPath == Trim(snapshot[k].savePath)
    ensures forall i, j :: 0 <= i < j < |p.update| ==> Leq(p.update[i].name, p.update[j].name)
  {
    hide Trim, Leq, NoDuplicates, CategoryCreates, NameDeletes, NormalNames;
    if k :| k in snapshot && Trim(k) == n && n != "" && n in live && mode != Incremental
            && Trim(snapshot[k].savePath) != live[n].savePath {
      assert CategoryUpdates(snapshot, live, mode)(k)
          == Some(CategoryUpdate(n, live[n].savePath, Trim(snapshot[k].savePath)));
    }
  }

  /** Names to delete, of categories and of tags: those the snapshot lacks, if the restore is complete. */
  lemma DeletesPlanned(delete: seq<string>, snapshot: set<string>, live: set<string>, mode: RestoreMode, n: string)
    requires Lists(delete, Leq, live, NameDeletes(snapshot, mode), NormalNames(live))
    ensures n in delete <==> mode == Complete && n != "" && n !in snapshot && exists k :: k in live && Trim(k) == n
    ensures forall i, j :: 0 <= i < j < |delete| ==> Leq(delete[i], delete[j])
  {
    hide Trim, Leq, NoDuplicates, NormalNames;
    if k :| k in live && Trim(k) == n && n != "" && n !in snapshot && mode == Complete {
      assert NameDeletes(snapshot, mode)(k) == Some(n);
    }
  }

  lemma TagsPlanned(p: TagPlan, snapshot: set<string>, live: set<string>, mode: RestoreMode, n: string)
    requires IsTagPlan(p, snapshot, live, mode)
    ensures TagSpec(n) in p.create <==> n != "" && n !in live && exists k :: k in snapshot && Trim(k) == n
    ensures forall i, j :: 0 <= i < j < |p.create| ==> Leq(p.create[i].name, p.create[j].name)
  {
    hide Trim, Leq, NoDuplicates, NormalNames, NameDeletes;
    if k :| k in snapshot && Trim(k) == n && n != "" && n !in live {
      assert TagCreates(live)(k) == Some(TagSpec(n));
    }
  }

  /** The torrents to add: those of the snapshot whose normalized hash is not live, with the snapshot's data. */
  lemma AddsPlanned(p: TorrentPlan, snapshot: map<string, SnapshotTorrent>, live: map<string, LiveTorrent>,
                    mode: RestoreMode)
    requires IsTorrentPlan(p, snapshot, live, mode)
    ensures forall k :: k in snapshot && Normalize(k) != "" && Normalize(k) !in live ==>
              exists a :: a in p.add && Carries(a.manifest, snapshot[k])
    ensures forall a :: a in p.add ==>
              exists k :: k in snapshot && Normalize(k) != "" && Normalize(k) !in live
                          && Carries(a.manifest, snapshot[k])
  {
    hide Normalize, Leq, NoDuplicates, ComputeTorrentChanges, Carries, TorrentUpdates, TorrentDeletes,
         SnapshotTorrentToManifestItem, NormalTorrentKeys, SortedBy;
    forall k | k in snapshot && Normalize(k) != "" && Normalize(k) !in live
      ensures exists a :: a in p.add && Carries(a.manifest, snapshot[k])
    {
      var a := TorrentSpec(SnapshotTorrentToManifestItem(snapshot[k]));
      assert TorrentAdds(snapshot, live)(k) == Some(a);
      ManifestCarries(snapshot[k]);
      assert a in p.add;
    }
    forall a | a in p.add
      ensures exists k :: k in snapshot && Normalize(k) != "" && Normalize(k) !in live
                          && Carries(a.manifest, snapshot[k])
    {
      var k :| k in snapshot && TorrentAdds(snapshot, live)(k) == Some(a);
      ManifestCarries(snapshot[k]);
    }
  }

  lemma ManifestCarries(t: SnapshotTorrent)
    ensures Carries(SnapshotTorrentToManifestItem(t), t)
  {
    if t.category.Some? {
      TrimResult(t.category.value);
      TrimFixed(Trim(t.category.value));
    }
  }

  /** Those to update, by normalized hash: live ones with any change listed, unless the restore is incremental; and
      those to delete: live ones the snapshot lacks, if it is complete. */
  lemma TorrentChangesPlanned(p: TorrentPlan, snapshot: map<string, SnapshotTorrent>, live: map<string, LiveTorrent>,
                              mode: RestoreMode, h: string)
    requires IsTorrentPlan(p, snapshot, live, mode)
    ensures (exists u :: u in p.update && u.hash == h)
       <==> mode != Incremental && h != "" && h in live
            && exists k :: k in snapshot && Normalize(k) == h && ComputeTorrentChanges(snapshot[k], live[h]) != []
    ensures h in p.delete
       <==> mode == Complete && h != "" && h !in snapshot && exists k :: k in live && Normalize(k) == h
    ensures forall i, j :: 0 <= i < j < |p.delete| ==> Leq(p.delete[i], p.delete[j])
  {
    hide Normalize, Leq, NoDuplicates, ComputeTorrentChanges, Trim, TorrentAdds, NormalTorrentKeys, NormalHashes;
    if k :| k in snapshot && Normalize(k) == h && h != "" && h in live && mode != Incremental
            && ComputeTorrentChanges(snapshot[k], live[h]) != [] {
      assert TorrentUpdates(snapshot, live, mode)(k)
          == Some(TorrentUpdate(h, live[h], snapshot[k], ComputeTorrentChanges(snapshot[k], live[h])));
    }
    if k :| k in live && Normalize(k) == h && h != "" && h !in snapshot && mode == Complete {
      assert TorrentDeletes(snapshot.Keys, mode)(k) == Some(h);
    }
  }

  predicate Carries(m: ManifestItem, t: SnapshotTorrent) {
    && m.hash == Normalize(t.hash) && m.name == t.name && m.sizeBytes == t.sizeBytes && m.tags == t.tags
    && m.torrentBlob == t.blobPath && m.archivePath == t.archivePath
    && NormalizeCategory(m.category) == NormalizeCategory(t.category)
  }

  /** What is listed as changed: category and tags as supported changes, and the identity of the torrent, where the
      snapshot has it, as changes that are reported only. */
  lemma ChangesListed(snapshot: SnapshotTorrent, live: LiveTorrent, c: DiffChange)
    ensures c in ComputeTorrentChanges(snapshot, live)
       <==> match c.field
            case CategoryField =>
              && NormalizeCategory(snapshot.category) != Trim(live.category)
              && c == DiffChange(CategoryField, true, TextValue(Trim(live.category)),
                                 TextValue(NormalizeCategory(snapshot.category)))
            case TagsField =>
              && ToStringSet(snapshot.tags) != ToStringSet(live.tags)
              && c == DiffChange(TagsField, true, TagsValue(live.tags), TagsValue(snapshot.tags))
            case InfoHashV1Field => ReadOnly(c, snapshot.infoHashV1, live.infoHashV1)
            case InfoHashV2Field => ReadOnly(c, snapshot.infoHashV2, live.infoHashV2)
            case SizeBytesField =>
              && snapshot.sizeBytes > 0 && snapshot.sizeBytes != live.sizeBytes
              && c == DiffChange(SizeBytesField, false, SizeValue(live.sizeBytes), SizeValue(snapshot.sizeBytes))
  {
    hide Trim, ToStringSet, NormalizeCategory;
  }

  predicate ReadOnly(c: DiffChange, desired: Option<string>, live: string) {
    && !c.supported && desired.Some? && Trim(desired.value) != "" && Trim(desired.value) != Trim(live)
    && c.current == TextValue(Trim(live)) && c.desired == TextValue(Trim(desired.value))
  }

  // ----- the plan is determined, and its parts are nested by mode -----

  /** Whatever order the maps are walked in, normalized states have one plan. */
  lemma PlanIsDetermined(p: RestorePlan, q: RestorePlan, snapshot: SnapshotState, live: LiveState, mode: RestoreMode)
    requires NormalSnapshot(snapshot) && NormalLive(live)
    requires IsRestorePlan(p, snapshot, live, mode) && IsRestorePlan(q, snapshot, live, mode)
    ensures p == q
  {
    CategoryPlanIsDetermined(p.categories, q.categories, snapshot, live, mode);
    TagPlanIsDetermined(p.tags, q.tags, snapshot, live, mode);
    TorrentPlanIsDetermined(p.torrents, q.torrents, snapshot, live, mode);
  }

  /** Two lists of the same entries, one entry for each name, are equal. */
  lemma SameList<T(!new)>(s: seq<T>, t: seq<T>, le: (T, T) -> bool, keys: set<string>, pick: string -> Option<T>,
                          name: T -> string)
    requires Lists(s, le, keys, pick, true) && Lists(t, le, keys, pick, true)
    requires forall x, y :: le(x, y) ==> Leq(name(x), name(y))
    requires forall k :: k in keys && pick(k).Some? ==> name(pick(k).value) == k
    ensures s == t
  {
    forall x, y | x in s && y in s && le(x, y) && le(y, x) ensures x == y {
      LeqAntisymmetric(name(x), name(y));
    }
    SortedUnique(le, s, t);
  }

  lemma CategoryPlanIsDetermined(p: CategoryPlan, q: CategoryPlan, snapshot: SnapshotState, live: LiveState,
                                 mode: RestoreMode)
    requires NormalSnapshot(snapshot) && NormalLive(live)
    requires IsCategoryPlan(p, snapshot.categories, live.categories, mode)
    requires IsCategoryPlan(q, snapshot.categories, live.categories, mode)
    ensures p == q
  {
    hide Lists;
    var sk, lk := snapshot.categories.Keys, live.categories.Keys;
    SameList(p.create, q.create, CategorySpecLeq, sk, CategoryCreates(snapshot.categories, live.categories),
             (c: CategorySpec) => c.name);
    SameList(p.update, q.update, CategoryUpdateLeq, sk, CategoryUpdates(snapshot.categories, live.categories, mode),
             (u: CategoryUpdate) => u.name);
    SameList(p.delete, q.delete, Leq, lk, NameDeletes(sk, mode), (d: string) => d);
  }

  lemma TagPlanIsDetermined(p: TagPlan, q: TagPlan, snapshot: SnapshotState, live: LiveState, mode: RestoreMode)
    requires NormalSnapshot(snapshot) && NormalLive(live)
    requires IsTagPlan(p, snapshot.tags, live.tags, mode)
    requires IsTagPlan(q, snapshot.tags, live.tags, mode)
    ensures p == q
  {
    hide Lists;
    SameList(p.create, q.create, TagSpecLeq, snapshot.tags, TagCreates(live.tags), (c: TagSpec) => c.name);
    SameList(p.delete, q.delete, Leq, live.tags, NameDeletes(snapshot.tags, mode), (d: string) => d);
  }

  lemma TorrentPlanIsDetermined(p: TorrentPlan, q: TorrentPlan, snapshot: SnapshotState, live: LiveState,
                                mode: RestoreMode)
    requires NormalSnapshot(snapshot) && NormalLive(live)
    requires IsTorrentPlan(p, snapshot.torrents, live.torrents, mode)
    requires IsTorrentPlan(q, snapshot.torrents, live.torrents, mode)
    ensures p == q
  {
    hide Lists, ComputeTorrentChanges;
    assert NormalTorrentKeys(snapshot.torrents);
    var sk, lk := snapshot.torrents.Keys, live.torrents.Keys;
    SameList(p.add, q.add, TorrentSpecLeq, sk, TorrentAdds(snapshot.torrents, live.torrents),
             (a: TorrentSpec) => Normalize(a.manifest.hash));
    SameList(p.update, q.update, TorrentUpdateLeq, sk, TorrentUpdates(snapshot.torrents, live.torrents, mode),
             (u: TorrentUpdate) => Normalize(u.hash));
    SameList(p.delete, q.delete, Leq, lk, TorrentDeletes(sk, mode), (d: string) => d);
  }

  /** A mode that may do more plans everything the lesser one plans: what is created and added never
      depends on the mode, updates start with overwrite, deletions with complete. */
  lemma PlansAreNested(inc: RestorePlan, over: RestorePlan, comp: RestorePlan, snapshot: SnapshotState, live: LiveState)
    requires IsRestorePlan(inc, snapshot, live, Incremental)
    requires IsRestorePlan(over, snapshot, live, Overwrite)
    requires IsRestorePlan(comp, snapshot, live, Complete)
    ensures forall c :: c in inc.categories.create <==> c in over.categories.create
    ensures forall c :: c in over.categories.create <==> c in comp.categories.create
    ensures forall c :: c in inc.tags.create <==> c in over.tags.create
    ensures forall c :: c in over.tags.create <==> c in comp.tags.create
    ensures forall a :: a in inc.torrents.add <==> a in over.torrents.add
    ensures forall a :: a in over.torrents.add <==> a in comp.torrents.add
    ensures inc.categories.update == [] && forall u :: u in over.categories.update <==> u in comp.categories.update
    ensures inc.torrents.update == [] && forall u :: u in over.torrents.update <==> u in comp.torrents.update
    ensures inc.categories.delete == over.categories.delete == []
    ensures inc.tags.delete == over.tags.delete == []
    ensures inc.torrents.delete == over.torrents.delete == []
  {
    CategoryPlansAreNested(inc, over, comp, snapshot, live);
    TorrentPlansAreNested(inc, over, comp, snapshot, live);
    HeadListed(inc.tags.delete);
    HeadListed(over.tags.delete);
  }

  lemma CategoryPlansAreNested(inc: RestorePlan, over: RestorePlan, comp: RestorePlan, snapshot: SnapshotState,
                               live: LiveState)
    requires IsCategoryPlan(inc.categories, snapshot.categories, live.categories, Incremental)
    requires IsCategoryPlan(over.categories, snapshot.categories, live.categories, Overwrite)
    requires IsCategoryPlan(comp.categories, snapshot.categories, live.categories, Complete)
    ensures inc.categories.update == [] && forall u :: u in over.categories.update <==> u in comp.categories.update
    ensures inc.categories.delete == over.categories.delete == []
  {
    hide SortedBy, NoDuplicates;
    forall k: string ensures CategoryUpdated(snapshot.categories, live.categories, Overwrite, k)
                          == CategoryUpdated(snapshot.categories, live.categories, Complete, k) {}
    HeadListed(inc.categories.update);
    HeadListed(inc.categories.delete);
    HeadListed(over.categories.delete);
  }

  lemma TorrentPlansAreNested(inc: RestorePlan, over: RestorePlan, comp: RestorePlan, snapshot: SnapshotState,
                              live: LiveState)
    requires IsTorrentPlan(inc.torrents, snapshot.torrents, live.torrents, Incremental)
    requires IsTorrentPlan(over.torrents, snapshot.torrents, live.torrents, Overwrite)
    requires IsTorrentPlan(comp.torrents, snapshot.torrents, live.torrents, Complete)
    ensures inc.torrents.update == [] && forall u :: u in over.torrents.update <==> u in comp.torrents.update
    ensures inc.torrents.delete == over.torrents.delete == []
  {
    hide SortedBy, NoDuplicates, ComputeTorrentChanges;
    forall k: string ensures TorrentUpdated(snapshot.torrents, live.torrents, Overwrite, k)
                          == TorrentUpdated(snapshot.torrents, live.torrents, Complete, k) {}
    HeadListed(inc.torrents.update);
    HeadListed(inc.torrents.delete);
    HeadListed(over.torrents.delete);
  }
}
