/** What a restore that reports no failure has made of the instance, in each mode. */
module RestoreConvergence {
  import opened Text
  import opened Ordering
  import opened RestorePlan
  import opened RestoreExecute

  // ----- what is asked for -----

  /** Every category and tag a snapshot torrent uses is listed in the snapshot. */
  ghost predicate ClosedSnapshot(s: SnapshotState) {
    forall h :: h in s.torrents ==>
      && (NormalizeCategory(s.torrents[h].category) == "" || NormalizeCategory(s.torrents[h].category) in s.categories)
      && Elements(s.torrents[h].tags) <= s.tags
  }

  ghost predicate SameLabels(t: LiveTorrent, snap: SnapshotTorrent) {
    Trim(t.category) == NormalizeCategory(snap.category) && ToStringSet(t.tags) == ToStringSet(snap.tags)
  }

  /** The live state is the snapshot's: categories with their paths, tags, torrents and their labels. */
  ghost predicate Agrees(live: LiveState, snapshot: SnapshotState) {
    && live.categories.Keys == snapshot.categories.Keys
    && (forall n :: n in live.categories ==> live.categories[n].savePath == snapshot.categories[n].savePath)
    && live.tags == snapshot.tags
    && live.torrents.Keys == snapshot.torrents.Keys
    && (forall h :: h in live.torrents ==> SameLabels(live.torrents[h], snapshot.torrents[h]))
  }

  /** The snapshot's entry for a key decides, and not the live one's. */
  predicate SnapshotWins(mode: RestoreMode, inLive: bool) {
    mode != Incremental || !inLive
  }

  function WantedPath(snapshot: SnapshotState, live: LiveState, mode: RestoreMode, n: string): string {
    if n in snapshot.categories && SnapshotWins(mode, n in live.categories) then snapshot.categories[n].savePath
    else if n in live.categories then live.categories[n].savePath
    else ""
  }

  /** What each mode makes of the live state: an incremental restore adds what is missing, overwriting also
      aligns what both sides have, and a complete one also removes the rest. */
  ghost predicate Restored(mode: RestoreMode, snapshot: SnapshotState, live: LiveState, after: LiveState) {
    && after.categories.Keys == snapshot.categories.Keys + (if mode == Complete then {} else live.categories.Keys)
    && (forall n :: n in after.categories ==>
          after.categories[n].savePath == WantedPath(snapshot, live, mode, n))
    && after.tags == snapshot.tags + (if mode == Complete then {} else live.tags)
    && after.torrents.Keys == snapshot.torrents.Keys + (if mode == Complete then {} else live.torrents.Keys)
    && (forall h :: h in after.torrents ==>
          if h in snapshot.torrents && SnapshotWins(mode, h in live.torrents)
          then SameLabels(after.torrents[h], snapshot.torrents[h])
          else h in live.torrents && after.torrents[h] == live.torrents[h])
  }

  /** Every torrent the snapshot decides uses only labels that the mode leaves known: listed ones or, unless the
      restore is complete, live ones. */
  ghost predicate LabelsListed(mode: RestoreMode, snapshot: SnapshotState, live: LiveState) {
    forall h :: h in snapshot.torrents && SnapshotWins(mode, h in live.torrents) ==>
      var category := NormalizeCategory(snapshot.torrents[h].category);
      && (category == "" || category in snapshot.categories || (mode != Complete && category in live.categories))
      && Elements(snapshot.torrents[h].tags) <= snapshot.tags + (if mode == Complete then {} else live.tags)
  }

  // ----- facts about normalized plans -----

  lemma TagsAreClean(tags: seq<string>)
    requires forall t :: t in tags ==> CleanEntry(t)
    ensures ToStringSet(tags) == Elements(tags) && SplitList(JoinComma(tags)) == tags
  {
    forall t | t in tags ensures Trim(t) == t { TrimFixed(t); }
    SplitJoined(tags);
    forall t | t in Elements(tags) ensures t in ToStringSet(tags) {
      assert t in tags && Trim(t) != "";
    }
  }

  lemma CategoryIsTrimmed(category: Option<string>)
    ensures Trim(NormalizeCategory(category)) == NormalizeCategory(category)
  {
    if category.Some? {
      TrimResult(category.value);
      TrimFixed(Trim(category.value));
    }
  }

  /** What the category plan's entries are when names are normalized. */
  lemma CategoryEntries(p: CategoryPlan, snapshot: SnapshotState, live: LiveState, mode: RestoreMode)
    requires NormalSnapshot(snapshot) && NormalKeys(live)
    requires IsCategoryPlan(p, snapshot.categories, live.categories, mode)
    ensures forall c :: c in p.create <==>
              c.name in snapshot.categories && c.name !in live.categories
              && c.savePath == snapshot.categories[c.name].savePath
    ensures forall u :: u in p.update ==>
              u.name in snapshot.categories && u.name in live.categories && mode != Incremental
              && u.desiredPath == snapshot.categories[u.name].savePath
    ensures forall n :: n in snapshot.categories && n in live.categories && mode != Incremental
                        && live.categories[n].savePath != snapshot.categories[n].savePath ==>
              CategoryUpdate(n, live.categories[n].savePath, snapshot.categories[n].savePath) in p.update
    ensures Elements(p.delete) == if mode == Complete then live.categories.Keys - snapshot.categories.Keys else {}
  {
    hide SortedBy, NoDuplicates, Trimmed, Trim;
    forall n: string | n in snapshot.categories
      ensures Trim(n) == n && n != "" && Trim(snapshot.categories[n].savePath) == snapshot.categories[n].savePath
    {
      TrimFixed(n);
      TrimFixed(snapshot.categories[n].savePath);
    }
    CreateEntries(p.create, snapshot.categories, live.categories);
    UpdateEntries(p.update, snapshot.categories, live.categories, mode);
    NameDeleteEntries(p.delete, snapshot.categories.Keys, live.categories.Keys, mode);
  }

  lemma CreateEntries(create: seq<CategorySpec>, snapshot: map<string, CategorySnapshot>,
                      live: map<string, LiveCategory>)
    requires forall c :: c in create <==>
               exists k :: k in snapshot.Keys && CategoryCreates(snapshot, live)(k) == Some(c)
    requires forall n :: n in snapshot ==> Trim(n) == n && n != "" && Trim(snapshot[n].savePath) == snapshot[n].savePath
    ensures forall c :: c in create <==>
              c.name in snapshot && c.name !in live && c.savePath == snapshot[c.name].savePath
  {
    hide Trim;
    forall c: CategorySpec | c.name in snapshot && c.name !in live && c.savePath == snapshot[c.name].savePath
      ensures c in create
    {
      assert CategoryCreates(snapshot, live)(c.name) == Some(c);
    }
  }

  lemma UpdateEntries(update: seq<CategoryUpdate>, snapshot: map<string, CategorySnapshot>,
                      live: map<string, LiveCategory>, mode: RestoreMode)
    requires forall u :: u in update <==>
               exists k :: k in snapshot.Keys && CategoryUpdates(snapshot, live, mode)(k) == Some(u)
    requires forall n :: n in snapshot ==> Trim(n) == n && n != "" && Trim(snapshot[n].savePath) == snapshot[n].savePath
    ensures forall u :: u in update ==>
              u.name in snapshot && u.name in live && mode != Incremental && u.desiredPath == snapshot[u.name].savePath
    ensures forall n :: n in snapshot && n in live && mode != Incremental ==>
              live[n].savePath != snapshot[n].savePath ==>
              CategoryUpdate(n, live[n].savePath, snapshot[n].savePath) in update
  {
    hide Trim;
    forall n | n in snapshot && n in live && mode != Incremental && live[n].savePath != snapshot[n].savePath
      ensures CategoryUpdate(n, live[n].savePath, snapshot[n].savePath) in update
    {
      assert CategoryUpdates(snapshot, live, mode)(n)
             == Some(CategoryUpdate(n, live[n].savePath, snapshot[n].savePath));
    }
  }

  lemma NameDeleteEntries(delete: seq<string>, snapshot: set<string>, live: set<string>, mode: RestoreMode)
    requires NormalNames(live) && Lists(delete, Leq, live, NameDeletes(snapshot, mode), true)
    ensures Elements(delete) == if mode == Complete then live - snapshot else {}
  {
    hide SortedBy, NoDuplicates;
    forall n | n in live - snapshot && mode == Complete ensures n in delete {
      assert NameDeletes(snapshot, mode)(n) == Some(n);
    }
  }

  // ----- categories -----

  lemma {:induction false} CreateAllEffect(s: LiveState, specs: seq<CategorySpec>)
    requires forall a, b :: a in specs && b in specs && a.name == b.name ==> a == b
    ensures var r := CreateAll(s, specs);
            && r.tags == s.tags && r.torrents == s.torrents
            && (forall n :: n in r.categories <==> n in s.categories || exists c :: c in specs && c.name == n)
            && (forall c :: c in specs ==> r.categories[c.name].savePath == c.savePath)
            && (forall n :: n in s.categories && (forall c :: c in specs ==> c.name != n) ==>
                  r.categories[n] == s.categories[n])
  {
    if specs != [] {
      var front, last := specs[..|specs| - 1], specs[|specs| - 1];
      assert specs == front + [last];
      CreateAllEffect(s, front);
      var r := CreateAll(s, specs);
      forall n ensures n in r.categories <==> n in s.categories || exists c :: c in specs && c.name == n {
        if n == last.name { assert last in specs; }
      }
    }
  }

  lemma {:induction false} EditAllEffect(s: LiveState, updates: seq<CategoryUpdate>)
    requires forall a, b :: a in updates && b in updates && a.name == b.name ==> a.desiredPath == b.desiredPath
    requires forall u :: u in updates ==> u.name in s.categories
    ensures var r := EditAll(s, updates);
            && r.tags == s.tags && r.torrents == s.torrents && r.categories.Keys == s.categories.Keys
            && (forall u :: u in updates ==> r.categories[u.name].savePath == u.desiredPath)
            && (forall n :: n in s.categories && (forall u :: u in updates ==> u.name != n) ==>
                  r.categories[n] == s.categories[n])
  {
    if updates != [] {
      var front, last := updates[..|updates| - 1], updates[|updates| - 1];
      assert updates == front + [last];
      EditAllEffect(s, front);
    }
  }

  /** The category a live torrent has once the removed categories are gone. */
  function CategoryLeft(snapshot: SnapshotState, mode: RestoreMode, category: string): string {
    if mode == Complete && category !in snapshot.categories then "" else category
  }

  function TagsLeft(snapshot: SnapshotState, live: LiveState, mode: RestoreMode, tags: seq<string>): seq<string> {
    if mode == Complete then WithoutTags(tags, live.tags - snapshot.tags) else tags
  }

  /** The state once the category plan is applied. */
  lemma CategoriesPhase(p: CategoryPlan, snapshot: SnapshotState, live: LiveState, mode: RestoreMode)
    requires NormalSnapshot(snapshot) && NormalLive(live) && ClosedLive(live)
    requires IsCategoryPlan(p, snapshot.categories, live.categories, mode)
    ensures var r := CategoriesApplied(live, p);
            && r.tags == live.tags
            && r.categories.Keys == snapshot.categories.Keys + (if mode == Complete then {} else live.categories.Keys)
            && (forall n :: n in r.categories ==>
                  r.categories[n].savePath == WantedPath(snapshot, live, mode, n))
            && r.torrents == map h | h in live.torrents ::
                 live.torrents[h].(category := CategoryLeft(snapshot, mode, live.torrents[h].category))
  {
    hide IsCategoryPlan, NormalSnapshot, NormalLive, NormalNames, NormalHashes, WantedPath, BatchIn, CreateAll, EditAll,
         CategoryLeft, ClosedLive;
    LiveKeys(live);
    CategoryEntries(p, snapshot, live, mode);
    CreateAllEffect(live, p.create);
    var created := CreateAll(live, p.create);
    EditAllEffect(created, p.update);
    var edited := EditAll(created, p.update);
    assert edited.categories.Keys == snapshot.categories.Keys + live.categories.Keys by {
      forall n | n in snapshot.categories && n !in live.categories ensures n in created.categories {
        assert CategorySpec(n, snapshot.categories[n].savePath) in p.create;
      }
    }
    forall n | n in edited.categories
      ensures edited.categories[n].savePath == WantedPath(snapshot, live, mode, n)
    {
      EditedPath(p, snapshot, live, mode, created, edited, n);
    }
    RemovedCategories(edited, Elements(p.delete), snapshot, live, mode);
  }

  lemma EditedPath(p: CategoryPlan, snapshot: SnapshotState, live: LiveState, mode: RestoreMode,
                   created: LiveState, edited: LiveState, n: string)
    requires NormalSnapshot(snapshot) && NormalLive(live)
    requires IsCategoryPlan(p, snapshot.categories, live.categories, mode)
    requires created == CreateAll(live, p.create) && edited == EditAll(created, p.update) && n in edited.categories
    requires n in snapshot.categories || n in live.categories
    ensures edited.categories[n].savePath == WantedPath(snapshot, live, mode, n)
  {
    hide IsCategoryPlan, NormalSnapshot, NormalLive, NormalKeys, CreateAll, EditAll;
    LiveKeys(live);
    CategoryEntries(p, snapshot, live, mode);
    CreateAllEffect(live, p.create);
    EditAllEffect(created, p.update);
    if n !in live.categories {
      var c := CategorySpec(n, snapshot.categories[n].savePath);
      assert c in p.create;
      assert created.categories[c.name].savePath == c.savePath;
    } else if n in snapshot.categories && mode != Incremental
              && live.categories[n].savePath != snapshot.categories[n].savePath {
      var u := CategoryUpdate(n, live.categories[n].savePath, snapshot.categories[n].savePath);
      assert u in p.update;
      assert edited.categories[u.name].savePath == u.desiredPath;
    }
  }

  lemma RemovedCategories(edited: LiveState, delete: set<string>, snapshot: SnapshotState, live: LiveState,
                          mode: RestoreMode)
    requires ClosedLive(live) && edited.torrents == live.torrents
    requires edited.categories.Keys == snapshot.categories.Keys + live.categories.Keys
    requires delete == if mode == Complete then live.categories.Keys - snapshot.categories.Keys else {}
    requires NormalNames(live.categories.Keys)
    ensures var r := BatchIn(DeleteCategory, edited, delete);
            && r.tags == edited.tags
            && r.categories.Keys == snapshot.categories.Keys + (if mode == Complete then {} else live.categories.Keys)
            && (forall n :: n in r.categories ==> r.categories[n] == edited.categories[n])
            && r.torrents == map h | h in live.torrents ::
                 live.torrents[h].(category := CategoryLeft(snapshot, mode, live.torrents[h].category))
  {}

  // ----- tags -----

  lemma TagEntries(p: TagPlan, snapshot: set<string>, live: set<string>, mode: RestoreMode)
    requires NormalNames(snapshot) && NormalNames(live) && IsTagPlan(p, snapshot, live, mode)
    ensures Elements(TagNames(p.create)) == snapshot - live
    ensures Elements(p.delete) == if mode == Complete then live - snapshot else {}
  {
    hide SortedBy, NoDuplicates;
    NameDeleteEntries(p.delete, snapshot, live, mode);
    forall n | n in snapshot - live ensures n in Elements(TagNames(p.create)) {
      TrimFixed(n);
      assert TagCreates(live)(n) == Some(TagSpec(n));
      var i :| 0 <= i < |p.create| && p.create[i] == TagSpec(n);
      assert TagNames(p.create)[i] == n;
    }
    forall n | n in Elements(TagNames(p.create)) ensures n in snapshot - live {
      var i :| 0 <= i < |p.create| && p.create[i].name == n;
      assert p.create[i] in p.create;
    }
  }

  /** The state once the tag plan is applied. */
  lemma TagsPhase(p: TagPlan, snapshot: SnapshotState, live: LiveState, mode: RestoreMode, s: LiveState)
    requires NormalSnapshot(snapshot) && NormalLive(live) && s.tags == live.tags
    requires IsTagPlan(p, snapshot.tags, live.tags, mode)
    ensures var r := TagsApplied(s, p);
            && r.categories == s.categories
            && r.tags == snapshot.tags + (if mode == Complete then {} else live.tags)
            && r.torrents == map h | h in s.torrents ::
                 s.torrents[h].(tags := TagsLeft(snapshot, live, mode, s.torrents[h].tags))
  {
    hide IsTagPlan, NormalSnapshot;
    assert NormalNames(snapshot.tags) by { UnfoldNormal(snapshot, live); }
    TagEntries(p, snapshot.tags, live.tags, mode);
    if mode != Complete {
      forall h | h in s.torrents { WithoutNoTags(s.torrents[h].tags); }
    }
  }

  lemma LiveKeys(live: LiveState)
    requires NormalLive(live)
    ensures NormalKeys(live)
  {}

  lemma UnfoldNormal(snapshot: SnapshotState, live: LiveState)
    requires NormalSnapshot(snapshot) && NormalKeys(live)
    ensures NormalNames(snapshot.tags) && NormalNames(live.tags)
    ensures NormalTorrentKeys(snapshot.torrents) && NormalHashes(live.torrents.Keys)
  {}

  // ----- added torrents -----

  function SpecOf(snapshot: SnapshotState, h: string): TorrentSpec
    requires h in snapshot.torrents
  {
    TorrentSpec(SnapshotTorrentToManifestItem(snapshot.torrents[h]))
  }

  lemma AddEntries(p: TorrentPlan, snapshot: SnapshotState, live: LiveState, mode: RestoreMode)
    requires NormalTorrentKeys(snapshot.torrents) && IsTorrentPlan(p, snapshot.torrents, live.torrents, mode)
    ensures forall a :: a in p.add ==>
              a.manifest.hash in snapshot.torrents && a.manifest.hash !in live.torrents
              && a == SpecOf(snapshot, a.manifest.hash)
    ensures forall h :: h in snapshot.torrents && h !in live.torrents ==> SpecOf(snapshot, h) in p.add
  {
    hide SortedBy, NoDuplicates, ComputeTorrentChanges, Normalize;
    forall h | h in snapshot.torrents && h !in live.torrents ensures SpecOf(snapshot, h) in p.add {
      assert TorrentAdds(snapshot.torrents, live.torrents)(h) == Some(SpecOf(snapshot, h));
    }
  }

  /** The state knows the labels of a snapshot torrent. */
  ghost predicate KnowsLabels(s: LiveState, snap: SnapshotTorrent) {
    && (NormalizeCategory(snap.category) == "" || NormalizeCategory(snap.category) in s.categories)
    && Elements(snap.tags) <= s.tags
  }

  /** The state knows the labels of every torrent the snapshot decides. */
  ghost predicate KnowsWinners(s: LiveState, snapshot: SnapshotState, live: LiveState, mode: RestoreMode) {
    forall h :: h in snapshot.torrents && SnapshotWins(mode, h in live.torrents) ==>
      KnowsLabels(s, snapshot.torrents[h])
  }

  lemma RegisteredKnown(s: LiveState, category: string, tags: seq<string>)
    requires (category == "" || category in s.categories) && Elements(tags) <= s.tags
    ensures Registered(s, category, tags) == s
  {
    assert Elements(tags) == set t | t in tags;
  }

  /** Adding a torrent whose labels are known changes nothing but the torrent. */
  lemma AddEffect(s: LiveState, snapshot: SnapshotState, h: string, blobs: Blobs)
    requires NormalSnapshot(snapshot) && h in snapshot.torrents && KnowsLabels(s, snapshot.torrents[h])
    requires Trim(snapshot.torrents[h].blobPath) in blobs && blobs[Trim(snapshot.torrents[h].blobPath)].hash == h
    ensures var r := AddSpecIn(s, SpecOf(snapshot, h), blobs);
            && r.categories == s.categories && r.tags == s.tags
            && r.torrents.Keys == s.torrents.Keys + {h}
            && r.torrents[h].category == NormalizeCategory(snapshot.torrents[h].category)
            && r.torrents[h].tags == snapshot.torrents[h].tags
            && (forall k :: k in s.torrents && k != h ==> r.torrents[k] == s.torrents[k])
  {
    var snap := snapshot.torrents[h];
    var m := SpecOf(snapshot, h).manifest;
    var category := NormalizeCategory(snap.category);
    CategoryIsTrimmed(snap.category);
    TagsAreClean(snap.tags);
    assert m.hash == h && NormalizeCategory(m.category) == category;
    RegisteredKnown(s, category, snap.tags);
    var added := AddTorrentIn(s, blobs[Trim(snap.blobPath)], category, snap.tags);
    RegisteredKnown(added, category, []);
    RegisteredKnown(added, "", snap.tags);
  }

  lemma {:induction false} AddAllEffect(s: LiveState, snapshot: SnapshotState, specs: seq<TorrentSpec>, blobs: Blobs)
    requires NormalSnapshot(snapshot)
    requires forall a :: a in specs ==> a.manifest.hash in snapshot.torrents && a == SpecOf(snapshot, a.manifest.hash)
    requires forall a :: a in specs ==> KnowsLabels(s, snapshot.torrents[a.manifest.hash])
    requires BlobsMatch(specs, blobs) && BlobsPresent(specs, blobs)
    ensures var r := AddAll(s, specs, blobs);
            && r.categories == s.categories && r.tags == s.tags
            && (forall h :: h in r.torrents <==> h in s.torrents || exists a :: a in specs && a.manifest.hash == h)
            && (forall a :: a in specs ==>
                  var snap := snapshot.torrents[a.manifest.hash];
                  && r.torrents[a.manifest.hash].category == NormalizeCategory(snap.category)
                  && r.torrents[a.manifest.hash].tags == snap.tags)
            && (forall h :: h in s.torrents && (forall a :: a in specs ==> a.manifest.hash != h) ==>
                  r.torrents[h] == s.torrents[h])
  {
    hide AddSpecIn, NormalSnapshot, SpecOf, NormalizeCategory, KnowsLabels, BlobsMatch, BlobsPresent, Trim;
    if specs != [] {
      var front, last := specs[..|specs| - 1], specs[|specs| - 1];
      assert specs == front + [last] && last in specs;
      FrontBlobs(specs, blobs);
      BlobOfSpec(snapshot, last);
      AddAllEffect(s, snapshot, front, blobs);
      StillKnows(s, AddAll(s, front, blobs), snapshot.torrents[last.manifest.hash]);
      AddEffect(AddAll(s, front, blobs), snapshot, last.manifest.hash, blobs);
    }
  }

  lemma FrontBlobs(specs: seq<TorrentSpec>, blobs: Blobs)
    requires specs != [] && BlobsMatch(specs, blobs) && BlobsPresent(specs, blobs)
    ensures BlobsMatch(specs[..|specs| - 1], blobs) && BlobsPresent(specs[..|specs| - 1], blobs)
    ensures var last := specs[|specs| - 1].manifest;
            Trim(last.torrentBlob) in blobs && blobs[Trim(last.torrentBlob)].hash == last.hash
  {
    assert specs[|specs| - 1] in specs;
  }

  lemma BlobOfSpec(snapshot: SnapshotState, a: TorrentSpec)
    requires a.manifest.hash in snapshot.torrents && a == SpecOf(snapshot, a.manifest.hash)
    ensures a.manifest.torrentBlob == snapshot.torrents[a.manifest.hash].blobPath
  {}

  // ----- updated torrents -----

  lemma {:induction false} ChangesConcat(s: LiveState, hash: string, a: seq<DiffChange>, b: seq<DiffChange>)
    ensures ChangesIn(s, hash, a + b) == ChangesIn(ChangesIn(s, hash, a), hash, b)
    decreases |b|
  {
    if b == [] {
      assert a + b == a;
    } else {
      ChangesConcat(s, hash, a, b[..|b| - 1]);
      assert (a + b)[..|a + b| - 1] == a + b[..|b| - 1];
    }
  }

  lemma {:induction false} UnsupportedIgnored(s: LiveState, hash: string, changes: seq<DiffChange>)
    requires forall c :: c in changes ==> !c.supported
    ensures ChangesIn(s, hash, changes) == s
  {
    if changes != [] {
      UnsupportedIgnored(s, hash, changes[..|changes| - 1]);
    }
  }

  predicate CategoryDiffers(snap: SnapshotTorrent, t: LiveTorrent) {
    NormalizeCategory(snap.category) != Trim(t.category)
  }

  /** What the changes planned from the live torrent make of a torrent. */
  function Relabelled(t: LiveTorrent, snap: SnapshotTorrent, planned: LiveTorrent): LiveTorrent {
    t.(category := if CategoryDiffers(snap, planned) then NormalizeCategory(snap.category) else t.category,
       tags := if !StringSetsEqual(snap.tags, planned.tags) then snap.tags else t.tags)
  }

  lemma ChangesEffect(s: LiveState, snapshot: SnapshotState, h: string, planned: LiveTorrent)
    requires NormalSnapshot(snapshot) && h in snapshot.torrents && h in s.torrents
    requires KnowsLabels(s, snapshot.torrents[h])
    ensures ChangesIn(s, h, ComputeTorrentChanges(snapshot.torrents[h], planned))
         == s.(torrents := s.torrents[h := Relabelled(s.torrents[h], snapshot.torrents[h], planned)])
  {
    hide ChangesIn, ComputeTorrentChanges, CategoryChange, TagsChange, ReadOnlyPart, Relabelled, NormalSnapshot,
         KnowsLabels;
    var snap := snapshot.torrents[h];
    var category, tags, rest := CategoryChange(snap, planned), TagsChange(snap, planned), ReadOnlyPart(snap, planned);
    ChangesSplit(snap, planned);
    var labelled := CategoryEffect(s, snapshot, h, planned);
    StillKnows(s, labelled, snap);
    var tagged := TagsEffect(labelled, snapshot, h, planned);
    ChangesConcat(s, h, category, tags);
    ChangesConcat(s, h, category + tags, rest);
    UnsupportedIgnored(tagged, h, rest);
    RelabelledTwice(s.torrents[h], snap, planned);
    assert tagged.torrents == s.torrents[h := Relabelled(s.torrents[h], snap, planned)];
  }

  lemma RelabelledTwice(t: LiveTorrent, snap: SnapshotTorrent, planned: LiveTorrent)
    ensures var once := t.(category := Relabelled(t, snap, planned).category);
            once.(tags := Relabelled(once, snap, planned).tags) == Relabelled(t, snap, planned)
  {}

  lemma ChangesSplit(snap: SnapshotTorrent, t: LiveTorrent)
    ensures ComputeTorrentChanges(snap, t) == CategoryChange(snap, t) + TagsChange(snap, t) + ReadOnlyPart(snap, t)
    ensures forall c :: c in ReadOnlyPart(snap, t) ==> !c.supported
  {
    hide InfoHashChange, StringSetsEqual;
    var v1, v2 := InfoHashChange(InfoHashV1Field, snap.infoHashV1, t.infoHashV1),
                  InfoHashChange(InfoHashV2Field, snap.infoHashV2, t.infoHashV2);
    InfoHashReadOnly(InfoHashV1Field, snap.infoHashV1, t.infoHashV1);
    InfoHashReadOnly(InfoHashV2Field, snap.infoHashV2, t.infoHashV2);
    var head := CategoryChange(snap, t) + TagsChange(snap, t);
    assert head + v1 + v2 + SizeChange(snap, t) == head + (v1 + v2 + SizeChange(snap, t));
  }

  lemma InfoHashReadOnly(field: DiffField, desired: Option<string>, live: string)
    ensures forall c :: c in InfoHashChange(field, desired, live) ==> !c.supported
  {}

  /** The changes that are only reported. */
  function ReadOnlyPart(snap: SnapshotTorrent, t: LiveTorrent): seq<DiffChange> {
    InfoHashChange(InfoHashV1Field, snap.infoHashV1, t.infoHashV1)
    + InfoHashChange(InfoHashV2Field, snap.infoHashV2, t.infoHashV2) + SizeChange(snap, t)
  }

  function CategoryChange(snap: SnapshotTorrent, t: LiveTorrent): seq<DiffChange> {
    if CategoryDiffers(snap, t)
    then [DiffChange(CategoryField, true, TextValue(Trim(t.category)), TextValue(NormalizeCategory(snap.category)))]
    else []
  }

  function TagsChange(snap: SnapshotTorrent, t: LiveTorrent): seq<DiffChange> {
    if !StringSetsEqual(snap.tags, t.tags)
    then [DiffChange(TagsField, true, TagsValue(t.tags), TagsValue(snap.tags))] else []
  }

  function SizeChange(snap: SnapshotTorrent, t: LiveTorrent): seq<DiffChange> {
    if snap.sizeBytes > 0 && snap.sizeBytes != t.sizeBytes
    then [DiffChange(SizeBytesField, false, SizeValue(t.sizeBytes), SizeValue(snap.sizeBytes))] else []
  }

  lemma OneChange(s: LiveState, hash: string, change: DiffChange)
    ensures ChangesIn(s, hash, [change]) == ChangeIn(s, hash, change)
  {
    assert [change][..0] == [];
  }

  lemma CategoryEffect(s: LiveState, snapshot: SnapshotState, h: string, planned: LiveTorrent) returns (r: LiveState)
    requires h in snapshot.torrents && h in s.torrents && KnowsLabels(s, snapshot.torrents[h])
    ensures r == ChangesIn(s, h, CategoryChange(snapshot.torrents[h], planned))
    ensures var t := s.torrents[h];
            r == s.(torrents := s.torrents[h := t.(category := Relabelled(t, snapshot.torrents[h], planned).category)])
  {
    var snap := snapshot.torrents[h];
    var change := CategoryChange(snap, planned);
    r := ChangesIn(s, h, change);
    if CategoryDiffers(snap, planned) {
      CategoryIsTrimmed(snap.category);
      RegisteredKnown(s, NormalizeCategory(snap.category), []);
      OneChange(s, h, change[0]);
    } else {
      assert s.torrents[h := s.torrents[h]] == s.torrents;
    }
  }

  lemma TagsEffect(s: LiveState, snapshot: SnapshotState, h: string, planned: LiveTorrent) returns (r: LiveState)
    requires NormalSnapshot(snapshot) && h in snapshot.torrents && h in s.torrents
    requires KnowsLabels(s, snapshot.torrents[h])
    ensures r == ChangesIn(s, h, TagsChange(snapshot.torrents[h], planned))
    ensures var t := s.torrents[h];
            r == s.(torrents := s.torrents[h := t.(tags := Relabelled(t, snapshot.torrents[h], planned).tags)])
  {
    var snap := snapshot.torrents[h];
    var change := TagsChange(snap, planned);
    r := ChangesIn(s, h, change);
    if !StringSetsEqual(snap.tags, planned.tags) {
      TagsAreClean(snap.tags);
      RegisteredKnown(s, "", snap.tags);
      OneChange(s, h, change[0]);
    } else {
      assert s.torrents[h := s.torrents[h]] == s.torrents;
    }
  }

  lemma TorrentUpdateEntries(p: TorrentPlan, snapshot: SnapshotState, live: LiveState, mode: RestoreMode)
    requires NormalTorrentKeys(snapshot.torrents) && IsTorrentPlan(p, snapshot.torrents, live.torrents, mode)
    ensures forall u :: u in p.update ==>
              && u.hash in snapshot.torrents && u.hash in live.torrents && mode != Incremental
              && u.changes == ComputeTorrentChanges(snapshot.torrents[u.hash], live.torrents[u.hash])
    ensures forall h :: h in snapshot.torrents && h in live.torrents && mode != Incremental
                        && ComputeTorrentChanges(snapshot.torrents[h], live.torrents[h]) != [] ==>
              exists u :: u in p.update && u.hash == h
  {
    hide SortedBy, NoDuplicates, ComputeTorrentChanges, Normalize;
    forall h | h in snapshot.torrents && h in live.torrents && mode != Incremental
               && ComputeTorrentChanges(snapshot.torrents[h], live.torrents[h]) != []
      ensures exists u :: u in p.update && u.hash == h
    {
      var u := TorrentUpdate(h, live.torrents[h], snapshot.torrents[h],
                             ComputeTorrentChanges(snapshot.torrents[h], live.torrents[h]));
      assert TorrentUpdates(snapshot.torrents, live.torrents, mode)(h) == Some(u);
      assert u in p.update;
    }
  }

  lemma TorrentDeleteEntries(p: TorrentPlan, snapshot: SnapshotState, live: LiveState, mode: RestoreMode)
    requires NormalHashes(live.torrents.Keys) && IsTorrentPlan(p, snapshot.torrents, live.torrents, mode)
    ensures Elements(p.delete) == if mode == Complete then live.torrents.Keys - snapshot.torrents.Keys else {}
  {
    hide SortedBy, NoDuplicates, ComputeTorrentChanges, Normalize;
    forall h | h in live.torrents.Keys - snapshot.torrents.Keys && mode == Complete ensures h in p.delete {
      assert TorrentDeletes(snapshot.torrents.Keys, mode)(h) == Some(h);
    }
  }

  lemma {:induction false} UpdateAllEffect(s: LiveState, snapshot: SnapshotState, live: LiveState,
                                           updates: seq<TorrentUpdate>)
    requires NormalSnapshot(snapshot)
    requires forall u :: u in updates ==>
               && u.hash in snapshot.torrents && u.hash in live.torrents && u.hash in s.torrents
               && KnowsLabels(s, snapshot.torrents[u.hash])
               && u.changes == ComputeTorrentChanges(snapshot.torrents[u.hash], live.torrents[u.hash])
    ensures var r := UpdateAll(s, updates);
            && r.categories == s.categories && r.tags == s.tags && r.torrents.Keys == s.torrents.Keys
            && (forall u :: u in updates ==>
                  r.torrents[u.hash]
                  == Relabelled(s.torrents[u.hash], snapshot.torrents[u.hash], live.torrents[u.hash]))
            && (forall h :: h in s.torrents && (forall u :: u in updates ==> u.hash != h) ==>
                  r.torrents[h] == s.torrents[h])
  {
    hide ChangesIn, ComputeTorrentChanges, NormalSnapshot, KnowsLabels, Relabelled;
    if updates != [] {
      var front, last := updates[..|updates| - 1], updates[|updates| - 1];
      assert updates == front + [last] && last in updates;
      UpdateAllEffect(s, snapshot, live, front);
      var mid := UpdateAll(s, front);
      var h := last.hash;
      StillKnows(s, mid, snapshot.torrents[h]);
      ChangesEffect(mid, snapshot, h, live.torrents[h]);
      RelabelledIdempotent(s.torrents[h], snapshot.torrents[h], live.torrents[h]);
    }
  }

  lemma RelabelledIdempotent(t: LiveTorrent, snap: SnapshotTorrent, planned: LiveTorrent)
    ensures Relabelled(Relabelled(t, snap, planned), snap, planned) == Relabelled(t, snap, planned)
  {}

  /** Nothing is planned for a torrent whose labels agree. */
  lemma NothingToRelabel(t: LiveTorrent, snap: SnapshotTorrent, planned: LiveTorrent)
    requires ComputeTorrentChanges(snap, planned) == []
    ensures Relabelled(t, snap, planned) == t
  {
    ChangesSplit(snap, planned);
    assert |CategoryChange(snap, planned)| == 0 && |TagsChange(snap, planned)| == 0;
  }

  lemma AddsPhase(p: TorrentPlan, snapshot: SnapshotState, live: LiveState, mode: RestoreMode, s: LiveState,
                  blobs: Blobs)
    requires NormalSnapshot(snapshot) && NormalLive(live) && KnowsWinners(s, snapshot, live, mode)
    requires s.torrents.Keys == live.torrents.Keys
    requires IsTorrentPlan(p, snapshot.torrents, live.torrents, mode)
    requires BlobsMatch(p.add, blobs) && BlobsPresent(p.add, blobs)
    ensures var r := AddAll(s, p.add, blobs);
            && r.categories == s.categories && r.tags == s.tags
            && r.torrents.Keys == snapshot.torrents.Keys + live.torrents.Keys
            && (forall h :: h in live.torrents ==> r.torrents[h] == s.torrents[h])
            && (forall h :: h in snapshot.torrents && h !in live.torrents ==>
                  && r.torrents[h].category == NormalizeCategory(snapshot.torrents[h].category)
                  && r.torrents[h].tags == snapshot.torrents[h].tags)
  {
    hide IsTorrentPlan, NormalSnapshot, NormalLive, SpecOf, AddAll, BlobsMatch, BlobsPresent, KnowsLabels,
         NormalizeCategory, NormalKeys, NormalNames, NormalHashes, NormalTorrentKeys;
    LiveKeys(live);
    UnfoldNormal(snapshot, live);
    AddEntries(p, snapshot, live, mode);
    AddAllEffect(s, snapshot, p.add, blobs);
    forall h | h in snapshot.torrents && h !in live.torrents
      ensures SpecOf(snapshot, h) in p.add && SpecOf(snapshot, h).manifest.hash == h
    {
      SpecHash(snapshot, h);
    }
  }

  lemma UpdatesPhase(p: TorrentPlan, snapshot: SnapshotState, live: LiveState, mode: RestoreMode, s: LiveState)
    requires NormalSnapshot(snapshot) && NormalLive(live) && KnowsWinners(s, snapshot, live, mode)
    requires live.torrents.Keys <= s.torrents.Keys
    requires IsTorrentPlan(p, snapshot.torrents, live.torrents, mode)
    ensures var r := UpdateAll(s, p.update);
            && r.categories == s.categories && r.tags == s.tags && r.torrents.Keys == s.torrents.Keys
            && (forall h :: h in s.torrents ==>
                  r.torrents[h] == if h in live.torrents && h in snapshot.torrents && mode != Incremental
                                   then Relabelled(s.torrents[h], snapshot.torrents[h], live.torrents[h])
                                   else s.torrents[h])
  {
    hide IsTorrentPlan, NormalSnapshot, NormalLive, ComputeTorrentChanges, Relabelled, UpdateAll, KnowsLabels;
    LiveKeys(live);
    UnfoldNormal(snapshot, live);
    TorrentUpdateEntries(p, snapshot, live, mode);
    UpdateAllEffect(s, snapshot, live, p.update);
    forall h | h in live.torrents && h in snapshot.torrents && mode != Incremental
               && ComputeTorrentChanges(snapshot.torrents[h], live.torrents[h]) == []
      ensures Relabelled(s.torrents[h], snapshot.torrents[h], live.torrents[h]) == s.torrents[h]
    {
      NothingToRelabel(s.torrents[h], snapshot.torrents[h], live.torrents[h]);
    }
  }

  /** The torrents once the planned adds and updates are applied. */
  lemma AddsThenUpdates(p: TorrentPlan, snapshot: SnapshotState, live: LiveState, mode: RestoreMode, s: LiveState,
                        blobs: Blobs)
    requires NormalSnapshot(snapshot) && NormalLive(live) && KnowsWinners(s, snapshot, live, mode)
    requires s.torrents.Keys == live.torrents.Keys
    requires IsTorrentPlan(p, snapshot.torrents, live.torrents, mode)
    requires BlobsMatch(p.add, blobs) && BlobsPresent(p.add, blobs)
    ensures var r := UpdateAll(AddAll(s, p.add, blobs), p.update);
            && r.categories == s.categories && r.tags == s.tags
            && r.torrents.Keys == snapshot.torrents.Keys + live.torrents.Keys
            && forall h :: h in r.torrents ==> TorrentOutcome(snapshot, live, mode, s, h, r.torrents[h])
  {
    hide IsTorrentPlan, NormalSnapshot, NormalLive, Relabelled, NormalizeCategory, AddAll, UpdateAll, BlobsMatch,
         BlobsPresent, KnowsWinners, TorrentOutcome;
    var added := AddAll(s, p.add, blobs);
    var updated := UpdateAll(added, p.update);
    AddsPhase(p, snapshot, live, mode, s, blobs);
    StillKnowsWinners(s, added, snapshot, live, mode);
    UpdatesPhase(p, snapshot, live, mode, added);
    forall h | h in updated.torrents ensures TorrentOutcome(snapshot, live, mode, s, h, updated.torrents[h]) {
      OutcomeOf(snapshot, live, mode, s, added, updated, h);
    }
  }

  /** The torrents once the torrent plan is applied. */
  lemma TorrentsPhase(p: TorrentPlan, snapshot: SnapshotState, live: LiveState, mode: RestoreMode, s: LiveState,
                      blobs: Blobs)
    requires NormalSnapshot(snapshot) && NormalLive(live) && KnowsWinners(s, snapshot, live, mode)
    requires s.torrents.Keys == live.torrents.Keys
    requires IsTorrentPlan(p, snapshot.torrents, live.torrents, mode)
    requires BlobsMatch(p.add, blobs) && BlobsPresent(p.add, blobs)
    ensures var r := TorrentsApplied(s, p, blobs);
            && r.categories == s.categories && r.tags == s.tags
            && r.torrents.Keys == snapshot.torrents.Keys + (if mode == Complete then {} else live.torrents.Keys)
            && forall h :: h in r.torrents ==> TorrentOutcome(snapshot, live, mode, s, h, r.torrents[h])
  {
    hide IsTorrentPlan, NormalSnapshot, NormalLive, AddAll, UpdateAll, BlobsMatch, BlobsPresent, KnowsWinners, BatchIn,
         Elements, TorrentOutcome;
    LiveKeys(live);
    UnfoldNormal(snapshot, live);
    AddsThenUpdates(p, snapshot, live, mode, s, blobs);
    TorrentDeleteEntries(p, snapshot, live, mode);
    DeletesEffect(UpdateAll(AddAll(s, p.add, blobs), p.update), Elements(p.delete));
  }

  lemma OutcomeOf(snapshot: SnapshotState, live: LiveState, mode: RestoreMode, s: LiveState, added: LiveState,
                  updated: LiveState, h: string)
    requires s.torrents.Keys == live.torrents.Keys
    requires h in updated.torrents && h in added.torrents && h in snapshot.torrents.Keys + live.torrents.Keys
    requires h in live.torrents ==> added.torrents[h] == s.torrents[h]
    requires h !in live.torrents ==>
               && added.torrents[h].category == NormalizeCategory(snapshot.torrents[h].category)
               && added.torrents[h].tags == snapshot.torrents[h].tags
    requires updated.torrents[h]
          == if h in live.torrents && h in snapshot.torrents && mode != Incremental
             then Relabelled(added.torrents[h], snapshot.torrents[h], live.torrents[h]) else added.torrents[h]
    ensures TorrentOutcome(snapshot, live, mode, s, h, updated.torrents[h])
  {
    hide Relabelled, NormalizeCategory;
  }

  lemma DeletesEffect(s: LiveState, delete: set<string>)
    ensures var r := BatchIn(DeleteTorrent, s, delete);
            && r.categories == s.categories && r.tags == s.tags
            && r.torrents.Keys == s.torrents.Keys - delete
            && forall h :: h in r.torrents ==> r.torrents[h] == s.torrents[h]
  {}

  lemma SpecHash(snapshot: SnapshotState, h: string)
    requires NormalTorrentKeys(snapshot.torrents) && h in snapshot.torrents
    ensures SpecOf(snapshot, h).manifest.hash == h
  {}

  lemma StillKnows(s: LiveState, r: LiveState, snap: SnapshotTorrent)
    requires KnowsLabels(s, snap) && r.categories == s.categories && r.tags == s.tags
    ensures KnowsLabels(r, snap)
  {}

  lemma StillKnowsWinners(s: LiveState, r: LiveState, snapshot: SnapshotState, live: LiveState, mode: RestoreMode)
    requires KnowsWinners(s, snapshot, live, mode) && r.categories == s.categories && r.tags == s.tags
    ensures KnowsWinners(r, snapshot, live, mode)
  {}

  /** How a torrent looks after the torrent plan, given the state before it. */
  ghost predicate TorrentOutcome(snapshot: SnapshotState, live: LiveState, mode: RestoreMode, s: LiveState, h: string,
                                 t: LiveTorrent)
  {
    if h !in live.torrents then
      && h in snapshot.torrents
      && t.category == NormalizeCategory(snapshot.torrents[h].category) && t.tags == snapshot.torrents[h].tags
    else
      && h in s.torrents
      && t == if h in snapshot.torrents && mode != Incremental
              then Relabelled(s.torrents[h], snapshot.torrents[h], live.torrents[h]) else s.torrents[h]
  }

  // ----- the restored state -----

  lemma {:induction false} WithoutNone(tags: seq<string>, removed: set<string>)
    requires forall t :: t in tags ==> t !in removed
    ensures WithoutTags(tags, removed) == tags
  {
    if tags != [] {
      assert tags[0] in tags;
      WithoutNone(tags[1..], removed);
    }
  }

  /** A torrent both sides have agrees with the snapshot afterwards, although its label may have been removed
      in between. */
  lemma SharedTorrent(snapshot: SnapshotState, live: LiveState, mode: RestoreMode, h: string)
    requires NormalSnapshot(snapshot) && NormalLive(live) && LabelsListed(mode, snapshot, live)
    requires h in snapshot.torrents && h in live.torrents && mode != Incremental
    ensures var lt := live.torrents[h];
            SameLabels(Relabelled(lt.(category := CategoryLeft(snapshot, mode, lt.category),
                                      tags := TagsLeft(snapshot, live, mode, lt.tags)),
                                  snapshot.torrents[h], lt),
                       snapshot.torrents[h])
  {
    var snap, lt := snapshot.torrents[h], live.torrents[h];
    CategoryIsTrimmed(snap.category);
    TrimFixed(lt.category);
    TagsAreClean(snap.tags);
    TagsAreClean(lt.tags);
    if StringSetsEqual(snap.tags, lt.tags) && mode == Complete {
      forall t | t in lt.tags ensures t in snapshot.tags {
        assert t in Elements(lt.tags);
      }
      WithoutNone(lt.tags, live.tags - snapshot.tags);
    }
  }

  lemma TorrentRestored(snapshot: SnapshotState, live: LiveState, mode: RestoreMode, s: LiveState, h: string,
                        t: LiveTorrent)
    requires NormalSnapshot(snapshot) && NormalLive(live) && LabelsListed(mode, snapshot, live)
    requires s.torrents == map k | k in live.torrents ::
               live.torrents[k].(category := CategoryLeft(snapshot, mode, live.torrents[k].category),
                                 tags := TagsLeft(snapshot, live, mode, live.torrents[k].tags))
    requires TorrentOutcome(snapshot, live, mode, s, h, t)
    requires h in snapshot.torrents || (h in live.torrents && mode != Complete)
    ensures if h in snapshot.torrents && SnapshotWins(mode, h in live.torrents)
            then SameLabels(t, snapshot.torrents[h]) else h in live.torrents && t == live.torrents[h]
  {
    hide Relabelled, SameLabels, NormalSnapshot, NormalLive, LabelsListed;
    if h !in live.torrents {
      AddedTorrent(snapshot, h, t);
    } else if h in snapshot.torrents && mode != Incremental {
      SharedTorrent(snapshot, live, mode, h);
    }
  }

  lemma AddedTorrent(snapshot: SnapshotState, h: string, t: LiveTorrent)
    requires h in snapshot.torrents
    requires t.category == NormalizeCategory(snapshot.torrents[h].category) && t.tags == snapshot.torrents[h].tags
    ensures SameLabels(t, snapshot.torrents[h])
  {
    CategoryIsTrimmed(snapshot.torrents[h].category);
  }

  /** The state between the tag and the torrent plan. */
  lemma LabelsPhase(snapshot: SnapshotState, live: LiveState, mode: RestoreMode, plan: RestorePlan)
    requires NormalSnapshot(snapshot) && NormalLive(live) && ClosedLive(live)
    requires IsRestorePlan(plan, snapshot, live, mode)
    ensures var r := TagsApplied(CategoriesApplied(live, plan.categories), plan.tags);
            && r.categories.Keys == snapshot.categories.Keys + (if mode == Complete then {} else live.categories.Keys)
            && (forall n :: n in r.categories ==> r.categories[n].savePath == WantedPath(snapshot, live, mode, n))
            && r.tags == snapshot.tags + (if mode == Complete then {} else live.tags)
            && r.torrents == map k | k in live.torrents ::
                 live.torrents[k].(category := CategoryLeft(snapshot, mode, live.torrents[k].category),
                                   tags := TagsLeft(snapshot, live, mode, live.torrents[k].tags))
  {
    hide IsCategoryPlan, IsTagPlan, IsTorrentPlan, NormalSnapshot, NormalLive, ClosedLive, WantedPath,
         CategoriesApplied, TagsApplied, CategoryLeft, TagsLeft;
    CategoriesPhase(plan.categories, snapshot, live, mode);
    TagsPhase(plan.tags, snapshot, live, mode, CategoriesApplied(live, plan.categories));
  }

  /** The state between the tag and the torrent plan knows what is needed exactly if the labels are listed. */
  lemma ListedIsKnown(s: LiveState, snapshot: SnapshotState, live: LiveState, mode: RestoreMode)
    requires s.categories.Keys == snapshot.categories.Keys + (if mode == Complete then {} else live.categories.Keys)
    requires s.tags == snapshot.tags + (if mode == Complete then {} else live.tags)
    ensures KnowsWinners(s, snapshot, live, mode) <==> LabelsListed(mode, snapshot, live)
  {}

  lemma RestoredIfListed(snapshot: SnapshotState, live: LiveState, mode: RestoreMode, plan: RestorePlan, blobs: Blobs)
    requires NormalSnapshot(snapshot) && NormalLive(live) && ClosedLive(live) && LabelsListed(mode, snapshot, live)
    requires IsRestorePlan(plan, snapshot, live, mode)
    requires BlobsMatch(plan.torrents.add, blobs) && BlobsPresent(plan.torrents.add, blobs)
    ensures Restored(mode, snapshot, live, PlanApplied(live, plan, blobs))
  {
    hide IsCategoryPlan, IsTagPlan, IsTorrentPlan, NormalSnapshot, NormalLive, LabelsListed, KnowsWinners, ClosedLive,
         CategoriesApplied, TagsApplied, TorrentsApplied, BlobsMatch, BlobsPresent, TorrentOutcome, CategoryLeft,
         TagsLeft, SnapshotWins, SameLabels;
    LabelsPhase(snapshot, live, mode, plan);
    var second := TagsApplied(CategoriesApplied(live, plan.categories), plan.tags);
    ListedIsKnown(second, snapshot, live, mode);
    TorrentsPhase(plan.torrents, snapshot, live, mode, second, blobs);
    var after := TorrentsApplied(second, plan.torrents, blobs);
    forall h | h in after.torrents
      ensures if h in snapshot.torrents && SnapshotWins(mode, h in live.torrents)
              then SameLabels(after.torrents[h], snapshot.torrents[h])
              else h in live.torrents && after.torrents[h] == live.torrents[h]
    {
      TorrentRestored(snapshot, live, mode, second, h, after.torrents[h]);
    }
  }

  /** A closed state in which a torrent carries a snapshot torrent's labels knows these labels. */
  lemma CarriedIsKnown(after: LiveState, h: string, snap: SnapshotTorrent)
    requires ClosedLive(after) && h in after.torrents && SameLabels(after.torrents[h], snap)
    requires NormalNames(after.categories.Keys) && NormalNames(after.tags)
    requires forall t :: t in snap.tags ==> CleanEntry(t)
    ensures KnowsLabels(after, snap)
  {
    var t := after.torrents[h];
    TrimFixed(t.category);
    TagsAreClean(snap.tags);
    forall tag | tag in Elements(snap.tags) ensures tag in after.tags {
      assert tag in ToStringSet(t.tags);
      var raw :| raw in t.tags && Trim(raw) == tag;
      assert raw in Elements(t.tags);
      TrimFixed(raw);
    }
  }

  lemma ListedIfRestored(snapshot: SnapshotState, live: LiveState, mode: RestoreMode, after: LiveState)
    requires NormalSnapshot(snapshot) && NormalLive(live) && ClosedLive(after) && Restored(mode, snapshot, live, after)
    ensures LabelsListed(mode, snapshot, live)
  {
    hide ClosedLive, SameLabels, WantedPath, LabelsListed, KnowsLabels, NormalizeCategory;
    forall h | h in snapshot.torrents && SnapshotWins(mode, h in live.torrents)
      ensures KnowsLabels(after, snapshot.torrents[h])
    {
      CarriedIsKnown(after, h, snapshot.torrents[h]);
    }
    ListedIsKnown(after, snapshot, live, mode);
  }

  /** The result of a restore without failures or exclusions, in every mode: the instance is as the mode promises
      exactly if the torrents the snapshot decides use only labels that are listed or stay known. */
  lemma RestoreResult(snapshot: SnapshotState, live: LiveState, mode: RestoreMode, plan: RestorePlan, blobs: Blobs)
    requires NormalSnapshot(snapshot) && NormalLive(live) && ClosedLive(live)
    requires IsRestorePlan(plan, snapshot, live, mode)
    requires BlobsMatch(plan.torrents.add, blobs) && BlobsPresent(plan.torrents.add, blobs)
    ensures Restored(mode, snapshot, live, PlanApplied(live, plan, blobs)) <==> LabelsListed(mode, snapshot, live)
  {
    hide *;
    var after := PlanApplied(live, plan, blobs);
    PlanKeepsClosed(live, plan, blobs);
    if LabelsListed(mode, snapshot, live) {
      RestoredIfListed(snapshot, live, mode, plan, blobs);
    }
    if Restored(mode, snapshot, live, after) {
      ListedIfRestored(snapshot, live, mode, after);
    }
  }

  // ----- incremental restores -----

  /** Everything the live state has is there unchanged. */
  ghost predicate Keeps(live: LiveState, after: LiveState) {
    && (forall n :: n in live.categories ==> n in after.categories && after.categories[n] == live.categories[n])
    && live.tags <= after.tags
    && (forall h :: h in live.torrents ==> h in after.torrents && after.torrents[h] == live.torrents[h])
  }

  lemma {:induction false} CreateAllKeeps(live: LiveState, s: LiveState, specs: seq<CategorySpec>)
    requires Keeps(live, s) && forall c :: c in specs ==> c.name !in live.categories
    ensures Keeps(live, CreateAll(s, specs))
  {
    if specs != [] {
      var front, last := specs[..|specs| - 1], specs[|specs| - 1];
      assert last in specs && forall c :: c in front ==> c in specs;
      CreateAllKeeps(live, s, front);
    }
  }

  lemma AddSpecKeeps(live: LiveState, s: LiveState, spec: TorrentSpec, blobs: Blobs)
    requires Keeps(live, s) && spec.manifest.hash !in live.torrents
    requires Trim(spec.manifest.torrentBlob) in blobs ==>
               blobs[Trim(spec.manifest.torrentBlob)].hash == spec.manifest.hash
    ensures Keeps(live, AddSpecIn(s, spec, blobs))
  {
    hide Trim, SplitList, JoinComma, NormalizeCategory;
  }

  lemma {:induction false} AddAllKeeps(live: LiveState, s: LiveState, specs: seq<TorrentSpec>, blobs: Blobs)
    requires Keeps(live, s) && forall a :: a in specs ==> a.manifest.hash !in live.torrents
    requires BlobsMatch(specs, blobs)
    ensures Keeps(live, AddAll(s, specs, blobs))
  {
    hide Keeps, AddSpecIn;
    if specs != [] {
      var front, last := specs[..|specs| - 1], specs[|specs| - 1];
      assert last in specs && forall a :: a in front ==> a in specs;
      AddAllKeeps(live, s, front, blobs);
      AddSpecKeeps(live, AddAll(s, front, blobs), last, blobs);
    }
  }

  lemma RemovingNothingKeeps(op: Operation, live: LiveState, s: LiveState)
    requires Keeps(live, s)
    ensures Keeps(live, BatchIn(op, s, {}))
  {
    forall h | h in s.torrents { WithoutNoTags(s.torrents[h].tags); }
  }

  lemma CreatingTagsKeeps(live: LiveState, s: LiveState, tags: set<string>)
    requires Keeps(live, s)
    ensures Keeps(live, BatchIn(CreateTag, s, tags))
  {}

  /** An incremental plan only adds, and only what is missing. */
  lemma IncrementalOnlyAdds(snapshot: SnapshotState, live: LiveState, plan: RestorePlan)
    requires NormalSnapshot(snapshot) && NormalKeys(live) && IsRestorePlan(plan, snapshot, live, Incremental)
    ensures forall c :: c in plan.categories.create ==> c.name !in live.categories
    ensures forall a :: a in plan.torrents.add ==> a.manifest.hash !in live.torrents
    ensures plan.categories.update == [] && plan.torrents.update == []
    ensures Elements(plan.categories.delete) == Elements(plan.tags.delete) == Elements(plan.torrents.delete) == {}
  {
    hide IsCategoryPlan, IsTagPlan, IsTorrentPlan, Elements, NormalSnapshot, NormalKeys;
    UnfoldNormal(snapshot, live);
    CategoryEntries(plan.categories, snapshot, live, Incremental);
    TagEntries(plan.tags, snapshot.tags, live.tags, Incremental);
    AddEntries(plan.torrents, snapshot, live, Incremental);
    TorrentUpdateEntries(plan.torrents, snapshot, live, Incremental);
    TorrentDeleteEntries(plan.torrents, snapshot, live, Incremental);
    HeadListed(plan.categories.update);
    HeadListed(plan.torrents.update);
  }

  /** An incremental restore leaves every live entry as it was, even if the snapshot uses labels it does not list. */
  lemma IncrementalKeepsLive(snapshot: SnapshotState, live: LiveState, plan: RestorePlan, blobs: Blobs)
    requires NormalSnapshot(snapshot) && NormalKeys(live)
    requires IsRestorePlan(plan, snapshot, live, Incremental) && BlobsMatch(plan.torrents.add, blobs)
    ensures Keeps(live, PlanApplied(live, plan, blobs))
  {
    hide Keeps, BatchIn, CreateAll, AddAll, Elements, BlobsMatch, NormalSnapshot, NormalKeys, IsRestorePlan;
    IncrementalOnlyAdds(snapshot, live, plan);
    assert Keeps(live, live) by { KeepsItself(live); }
    CreateAllKeeps(live, live, plan.categories.create);
    var created := CreateAll(live, plan.categories.create);
    RemovingNothingKeeps(DeleteCategory, live, created);
    var first := BatchIn(DeleteCategory, created, {});
    CreatingTagsKeeps(live, first, Elements(TagNames(plan.tags.create)));
    var tagged := BatchIn(CreateTag, first, Elements(TagNames(plan.tags.create)));
    RemovingNothingKeeps(DeleteTag, live, tagged);
    var second := BatchIn(DeleteTag, tagged, {});
    AddAllKeeps(live, second, plan.torrents.add, blobs);
    RemovingNothingKeeps(DeleteTorrent, live, AddAll(second, plan.torrents.add, blobs));
  }

  lemma KeepsItself(live: LiveState)
    ensures Keeps(live, live)
  {}

  // ----- convergence, exactly -----

  lemma {:induction false} CreateAllKeepsClosed(s: LiveState, specs: seq<CategorySpec>)
    requires ClosedLive(s)
    ensures ClosedLive(CreateAll(s, specs))
  {
    if specs != [] {
      CreateAllKeepsClosed(s, specs[..|specs| - 1]);
    }
  }

  lemma {:induction false} EditAllKeepsClosed(s: LiveState, updates: seq<CategoryUpdate>)
    requires ClosedLive(s)
    ensures ClosedLive(EditAll(s, updates))
  {
    if updates != [] {
      EditAllKeepsClosed(s, updates[..|updates| - 1]);
    }
  }

  lemma AddKeepsClosed(s: LiveState, spec: TorrentSpec, blobs: Blobs)
    requires ClosedLive(s)
    ensures ClosedLive(AddSpecIn(s, spec, blobs))
  {
    hide SetCategoryIn, SetTagsIn, SplitList, JoinComma, ClosedLive, NormalizeCategory;
    var m := spec.manifest;
    if Trim(m.torrentBlob) in blobs {
      var category, tags := NormalizeCategory(m.category), SplitList(JoinComma(m.tags));
      AddTorrentKeepsClosed(s, blobs[Trim(m.torrentBlob)], category, tags);
      var added := AddTorrentIn(s, blobs[Trim(m.torrentBlob)], category, tags);
      SetCategoryKeepsClosed(added, m.hash, category);
      SetTagsKeepsClosed(added, m.hash, tags);
      SetTagsKeepsClosed(SetCategoryIn(added, m.hash, category), m.hash, tags);
    }
  }

  lemma {:induction false} AddAllKeepsClosed(s: LiveState, specs: seq<TorrentSpec>, blobs: Blobs)
    requires ClosedLive(s)
    ensures ClosedLive(AddAll(s, specs, blobs))
  {
    hide ClosedLive, AddSpecIn;
    if specs != [] {
      AddAllKeepsClosed(s, specs[..|specs| - 1], blobs);
      AddKeepsClosed(AddAll(s, specs[..|specs| - 1], blobs), specs[|specs| - 1], blobs);
    }
  }

  lemma {:induction false} ChangesKeepClosed(s: LiveState, hash: string, changes: seq<DiffChange>)
    requires ClosedLive(s)
    ensures ClosedLive(ChangesIn(s, hash, changes))
  {
    hide ClosedLive, SetCategoryIn, SetTagsIn;
    if changes != [] {
      var c := changes[|changes| - 1];
      var front := ChangesIn(s, hash, changes[..|changes| - 1]);
      ChangesKeepClosed(s, hash, changes[..|changes| - 1]);
      SetCategoryKeepsClosed(front, hash, Trim(AsText(c.desired)));
      SetTagsKeepsClosed(front, hash, SplitList(JoinComma(AsTags(c.desired))));
    }
  }

  lemma {:induction false} UpdateAllKeepsClosed(s: LiveState, updates: seq<TorrentUpdate>)
    requires ClosedLive(s)
    ensures ClosedLive(UpdateAll(s, updates))
  {
    hide ClosedLive, ChangesIn;
    if updates != [] {
      var u := updates[|updates| - 1];
      UpdateAllKeepsClosed(s, updates[..|updates| - 1]);
      ChangesKeepClosed(UpdateAll(s, updates[..|updates| - 1]), u.hash, u.changes);
    }
  }

  /** Whatever the plan, the instance goes on knowing every label its torrents carry. */
  lemma PlanKeepsClosed(s: LiveState, plan: RestorePlan, blobs: Blobs)
    requires ClosedLive(s)
    ensures ClosedLive(PlanApplied(s, plan, blobs))
  {
    hide ClosedLive, BatchIn, CreateAll, EditAll, AddAll, UpdateAll;
    var created := CreateAll(s, plan.categories.create);
    CreateAllKeepsClosed(s, plan.categories.create);
    EditAllKeepsClosed(created, plan.categories.update);
    var edited := EditAll(created, plan.categories.update);
    BatchKeepsClosed(DeleteCategory, edited, Elements(plan.categories.delete));
    var first := CategoriesApplied(s, plan.categories);
    BatchKeepsClosed(CreateTag, first, Elements(TagNames(plan.tags.create)));
    BatchKeepsClosed(DeleteTag, BatchIn(CreateTag, first, Elements(TagNames(plan.tags.create))),
                     Elements(plan.tags.delete));
    var second := TagsApplied(first, plan.tags);
    AddAllKeepsClosed(second, plan.torrents.add, blobs);
    UpdateAllKeepsClosed(AddAll(second, plan.torrents.add, blobs), plan.torrents.update);
    BatchKeepsClosed(DeleteTorrent, UpdateAll(AddAll(second, plan.torrents.add, blobs), plan.torrents.update),
                     Elements(plan.torrents.delete));
  }

  /** For a complete restore, being as promised is agreeing with the snapshot, and the labels have to be listed. */
  lemma CompleteCase(snapshot: SnapshotState, live: LiveState, after: LiveState)
    ensures Restored(Complete, snapshot, live, after) <==> Agrees(after, snapshot)
    ensures LabelsListed(Complete, snapshot, live) <==> ClosedSnapshot(snapshot)
  {
    hide SameLabels, NormalizeCategory, Elements;
    assert snapshot.categories.Keys + {} == snapshot.categories.Keys && snapshot.tags + {} == snapshot.tags
           && snapshot.torrents.Keys + {} == snapshot.torrents.Keys;
  }

  /** A complete restore without failures or exclusions makes the instance agree with the snapshot exactly when
      the snapshot lists every category and tag its torrents use. */
  lemma CompleteRestoreConverges(snapshot: SnapshotState, live: LiveState, plan: RestorePlan, blobs: Blobs)
    requires NormalSnapshot(snapshot) && NormalLive(live) && ClosedLive(live)
    requires IsRestorePlan(plan, snapshot, live, Complete)
    requires BlobsMatch(plan.torrents.add, blobs) && BlobsPresent(plan.torrents.add, blobs)
    ensures Agrees(PlanApplied(live, plan, blobs), snapshot) <==> ClosedSnapshot(snapshot)
  {
    hide *;
    RestoreResult(snapshot, live, Complete, plan, blobs);
    CompleteCase(snapshot, live, PlanApplied(live, plan, blobs));
  }

  /** The hypothesis cannot be dropped: a snapshot whose torrent uses an unlisted category. */
  lemma OpenSnapshot()
    ensures var h := "ab";
            var snap := SnapshotTorrent(h, "t", Some("tv"), [], "", "blob", 1, None, None);
            var s := SnapshotState(1, 1, map[], {}, map[h := snap]);
            NormalSnapshot(s) && !ClosedSnapshot(s)
  {
    var h := "ab";
    TrimFixed(h);
    assert Lower(h) == h;
    var snap := SnapshotTorrent(h, "t", Some("tv"), [], "", "blob", 1, None, None);
    var s := SnapshotState(1, 1, map[], {}, map[h := snap]);
    TrimFixed("tv");
    assert NormalizeCategory(s.torrents[h].category) == "tv";
  }

  // ----- planning again -----

  /** The plan asks for nothing that execution could apply. */
  ghost predicate NothingToApply(plan: RestorePlan) {
    && plan.categories.create == [] && plan.categories.update == [] && plan.categories.delete == []
    && plan.tags.create == [] && plan.tags.delete == []
    && plan.torrents.add == [] && plan.torrents.delete == []
    && forall u :: u in plan.torrents.update ==> forall c :: c in u.changes ==> !c.supported
  }

  lemma SupportedChanges(snap: SnapshotTorrent, t: LiveTorrent)
    ensures (forall c :: c in ComputeTorrentChanges(snap, t) ==> !c.supported) <==> SameLabels(t, snap)
  {
    hide InfoHashChange;
    ChangesSplit(snap, t);
    var all := CategoryChange(snap, t) + TagsChange(snap, t) + ReadOnlyPart(snap, t);
    if !SameLabels(t, snap) {
      if CategoryDiffers(snap, t) {
        assert CategoryChange(snap, t)[0] in all;
      } else {
        assert TagsChange(snap, t)[0] in all;
      }
    }
  }

  /** The live state is as the mode leaves it: what it lacks of the snapshot, holds otherwise, or has beyond it. */
  ghost predicate Settled(mode: RestoreMode, snapshot: SnapshotState, live: LiveState) {
    && Covers(mode, snapshot.categories.Keys, live.categories.Keys) && Covers(mode, snapshot.tags, live.tags)
    && Covers(mode, snapshot.torrents.Keys, live.torrents.Keys)
    && (mode != Incremental ==> SamePaths(snapshot, live) && SharedAgree(snapshot, live))
  }

  ghost predicate Covers(mode: RestoreMode, snapshot: set<string>, live: set<string>) {
    snapshot <= live && (mode == Complete ==> live <= snapshot)
  }

  ghost predicate SamePaths(snapshot: SnapshotState, live: LiveState) {
    forall n :: n in snapshot.categories && n in live.categories ==>
      live.categories[n].savePath == snapshot.categories[n].savePath
  }

  ghost predicate SharedAgree(snapshot: SnapshotState, live: LiveState) {
    forall h :: h in snapshot.torrents && h in live.torrents ==> SameLabels(live.torrents[h], snapshot.torrents[h])
  }

  lemma SettledExactly(mode: RestoreMode, snapshot: SnapshotState, live: LiveState)
    ensures Settled(mode, snapshot, live) <==> Restored(mode, snapshot, live, live)
  {
    hide SameLabels;
  }

  /** What a restore has made of an instance, the same restore leaves alone. */
  lemma RestoreSettles(mode: RestoreMode, snapshot: SnapshotState, live: LiveState, after: LiveState)
    requires Restored(mode, snapshot, live, after)
    ensures Restored(mode, snapshot, after, after)
  {
    hide SameLabels;
  }

  /** Planning finds nothing to apply exactly when the restore would leave everything as it is; for a complete restore,
      exactly when the instance agrees with the snapshot. */
  lemma ReplanIsEmpty(snapshot: SnapshotState, live: LiveState, mode: RestoreMode, plan: RestorePlan)
    requires NormalSnapshot(snapshot) && NormalKeys(live) && IsRestorePlan(plan, snapshot, live, mode)
    ensures NothingToApply(plan) <==> Restored(mode, snapshot, live, live)
    ensures mode == Complete ==> (NothingToApply(plan) <==> Agrees(live, snapshot))
  {
    hide NormalSnapshot, NormalKeys, IsCategoryPlan, IsTagPlan, IsTorrentPlan, SameLabels, Restored, Agrees, SamePaths,
         SharedAgree, Covers;
    UnfoldNormal(snapshot, live);
    SettledExactly(mode, snapshot, live);
    CompleteCase(snapshot, live, live);
    ReplanCategories(snapshot, live, mode, plan.categories);
    ReplanTags(snapshot.tags, live.tags, mode, plan.tags);
    ReplanTorrentKeys(snapshot, live, mode, plan.torrents);
    ReplanTorrents(snapshot, live, mode, plan.torrents);
  }

  lemma ReplanTags(snapshot: set<string>, live: set<string>, mode: RestoreMode, p: TagPlan)
    requires NormalNames(snapshot) && NormalNames(live) && IsTagPlan(p, snapshot, live, mode)
    ensures p.create == [] && p.delete == [] <==> Covers(mode, snapshot, live)
  {
    hide IsTagPlan, NormalNames, Elements;
    TagEntries(p, snapshot, live, mode);
    EmptyElements(TagNames(p.create));
    EmptyElements(p.delete);
    SetsAgree(snapshot, live);
    SetsAgree(live, snapshot);
  }

  lemma SetsAgree(a: set<string>, b: set<string>)
    ensures a - b == {} && b - a == {} <==> a == b
    ensures a - b == {} <==> a <= b
  {
    if a - b == {} {
      forall x | x in a ensures x in b {
        assert x !in a - b;
      }
    }
    if b - a == {} {
      forall x | x in b ensures x in a {
        assert x !in b - a;
      }
    }
  }

  lemma ReplanTorrentKeys(snapshot: SnapshotState, live: LiveState, mode: RestoreMode, p: TorrentPlan)
    requires NormalTorrentKeys(snapshot.torrents) && NormalHashes(live.torrents.Keys)
    requires IsTorrentPlan(p, snapshot.torrents, live.torrents, mode)
    ensures p.add == [] && p.delete == [] <==> Covers(mode, snapshot.torrents.Keys, live.torrents.Keys)
  {
    hide IsTorrentPlan, NormalTorrentKeys, NormalHashes, Elements, SpecOf;
    TorrentDeleteEntries(p, snapshot, live, mode);
    EmptyElements(p.delete);
    SetsAgree(snapshot.torrents.Keys, live.torrents.Keys);
    SetsAgree(live.torrents.Keys, snapshot.torrents.Keys);
    AddEntries(p, snapshot, live, mode);
    HeadListed(p.add);
    if p.add == [] {
      forall h | h in snapshot.torrents ensures h in live.torrents {
        assert SpecOf(snapshot, h) !in p.add;
      }
    }
  }

  lemma EmptyElements(s: seq<string>)
    ensures s == [] <==> Elements(s) == {}
  {
    if s != [] { assert s[0] in Elements(s); }
  }

  lemma ReplanCategories(snapshot: SnapshotState, live: LiveState, mode: RestoreMode, p: CategoryPlan)
    requires NormalSnapshot(snapshot) && NormalKeys(live)
    requires IsCategoryPlan(p, snapshot.categories, live.categories, mode)
    ensures p.create == [] && p.update == [] && p.delete == [] <==>
            && Covers(mode, snapshot.categories.Keys, live.categories.Keys)
            && (mode != Incremental ==> SamePaths(snapshot, live))
  {
    hide NormalSnapshot, NormalKeys, IsCategoryPlan, Elements;
    CategoryEntries(p, snapshot, live, mode);
    UpdatesDiffer(p, snapshot, live, mode);
    EmptyElements(p.delete);
    HeadListed(p.create);
    HeadListed(p.update);
    SetsAgree(snapshot.categories.Keys, live.categories.Keys);
    SetsAgree(live.categories.Keys, snapshot.categories.Keys);
    if p.create == [] && p.update == [] && p.delete == [] {
      forall n | n in snapshot.categories ensures n in live.categories {
        assert CategorySpec(n, snapshot.categories[n].savePath) !in p.create;
      }
      forall n | n in live.categories && n in snapshot.categories && mode != Incremental
        ensures live.categories[n].savePath == snapshot.categories[n].savePath
      {
        assert CategoryUpdate(n, live.categories[n].savePath, snapshot.categories[n].savePath) !in p.update;
      }
    }
  }

  lemma UpdatesDiffer(p: CategoryPlan, snapshot: SnapshotState, live: LiveState, mode: RestoreMode)
    requires NormalSnapshot(snapshot) && NormalKeys(live)
    requires IsCategoryPlan(p, snapshot.categories, live.categories, mode)
    ensures forall u :: u in p.update ==>
              && u.name in snapshot.categories && u.name in live.categories
              && mode != Incremental && live.categories[u.name].savePath != snapshot.categories[u.name].savePath
  {
    hide SortedBy, NoDuplicates, Trimmed;
    forall n: string | n in snapshot.categories
      ensures Trim(n) == n && Trim(snapshot.categories[n].savePath) == snapshot.categories[n].savePath
    {
      NormalCategory(snapshot, n);
    }
  }

  lemma NormalCategory(snapshot: SnapshotState, n: string)
    requires NormalSnapshot(snapshot) && n in snapshot.categories
    ensures Trim(n) == n && Trim(snapshot.categories[n].savePath) == snapshot.categories[n].savePath
  {
    TrimFixed(n);
    TrimFixed(snapshot.categories[n].savePath);
  }

  lemma ReplanTorrents(snapshot: SnapshotState, live: LiveState, mode: RestoreMode, p: TorrentPlan)
    requires NormalTorrentKeys(snapshot.torrents) && NormalHashes(live.torrents.Keys)
    requires IsTorrentPlan(p, snapshot.torrents, live.torrents, mode)
    ensures (forall u :: u in p.update ==> forall c :: c in u.changes ==> !c.supported)
        <==> (mode != Incremental ==> SharedAgree(snapshot, live))
  {
    hide IsTorrentPlan, ComputeTorrentChanges, SameLabels;
    TorrentUpdateEntries(p, snapshot, live, mode);
    forall h | h in live.torrents && h in snapshot.torrents
      ensures (forall c :: c in ComputeTorrentChanges(snapshot.torrents[h], live.torrents[h]) ==> !c.supported)
          <==> SameLabels(live.torrents[h], snapshot.torrents[h])
    {
      SupportedChanges(snapshot.torrents[h], live.torrents[h]);
    }
  }

  /** Without exclusions, the executed plan is the computed one. */
  lemma NoExclusions(plan: RestorePlan)
    ensures WithoutExcluded(plan, {}) == plan
  {
    FilterKeepsAll(plan.torrents.add, KeepSpec({}));
    FilterKeepsAll(plan.torrents.update, KeepUpdate({}));
    FilterKeepsAll(plan.torrents.delete, KeepHash({}));
  }

  // ----- the whole restore -----

  /** The blob of a torrent is the file of that torrent. */
  ghost predicate BlobsOf(snapshot: SnapshotState, blobs: Blobs) {
    forall h :: h in snapshot.torrents && Trim(snapshot.torrents[h].blobPath) in blobs ==>
      blobs[Trim(snapshot.torrents[h].blobPath)].hash == h
  }

  lemma PlannedBlobsMatch(snapshot: SnapshotState, live: LiveState, plan: RestorePlan, mode: RestoreMode, blobs: Blobs)
    requires NormalSnapshot(snapshot) && NormalLive(live) && BlobsOf(snapshot, blobs)
    requires IsRestorePlan(plan, snapshot, live, mode)
    ensures BlobsMatch(plan.torrents.add, blobs)
  {
    hide IsTorrentPlan, IsCategoryPlan, IsTagPlan, NormalLive;
    AddEntries(plan.torrents, snapshot, live, mode);
    forall spec | spec in plan.torrents.add && Trim(spec.manifest.torrentBlob) in blobs
      ensures blobs[Trim(spec.manifest.torrentBlob)].hash == spec.manifest.hash
    {
      BlobOfSpec(snapshot, spec);
    }
  }

  /** What is planned from normalized states is normalized. */
  lemma PlanIsNormal(snapshot: SnapshotState, live: LiveState, mode: RestoreMode, plan: RestorePlan,
                     exclude: set<string>, blobs: Blobs)
    requires NormalSnapshot(snapshot) && NormalLive(live) && BlobsOf(snapshot, blobs)
    requires IsRestorePlan(plan, snapshot, live, mode)
    ensures NormalPlan(WithoutExcluded(plan, exclude), blobs)
  {
    hide IsTorrentPlan, IsCategoryPlan, IsTagPlan, NormalLive, NormalName, NormalHash, Filter, Elements, Trim;
    LiveKeys(live);
    UnfoldNormal(snapshot, live);
    CategoryEntries(plan.categories, snapshot, live, mode);
    TagEntries(plan.tags, snapshot.tags, live.tags, mode);
    AddEntries(plan.torrents, snapshot, live, mode);
    FilterContents(plan.torrents.add, KeepSpec(exclude));
    var specs := WithoutExcluded(plan, exclude).torrents.add;
    forall i | 0 <= i < |specs| ensures NormalBlob(specs[i], blobs) {
      assert specs[i] in plan.torrents.add;
      BlobOfSpec(snapshot, specs[i]);
    }
  }

  /** A restore and the plan made after it. Whatever fails, the instance stays consistent, and nothing is left to apply
      exactly when the same restore would leave it as it is. If nothing failed or was excluded, the instance is as the
      mode promises exactly if the labels used are listed, and then nothing is left to apply. */
  method RestoreAndReplan(server: Server, snapshot: SnapshotState, mode: RestoreMode, opts: RestoreOptions,
                          blobs: Blobs, writers: bool)
    returns (result: RestoreExecute.RestoreResult, status: Status, again: RestorePlan)
    requires NormalSnapshot(snapshot) && Consistent(server.state) && BlobsOf(snapshot, blobs)
    modifies server
    ensures Consistent(server.state)
    ensures NothingToApply(again) <==> Restored(mode, snapshot, server.state, server.state)
    ensures Clean(opts, status, result) ==>
              (Restored(mode, snapshot, old(server.state), server.state)
               <==> LabelsListed(mode, snapshot, old(server.state)))
    ensures Clean(opts, status, result) && LabelsListed(mode, snapshot, old(server.state)) ==> NothingToApply(again)
    ensures Clean(opts, status, result) && mode == Complete ==>
              (Agrees(server.state, snapshot) <==> ClosedSnapshot(snapshot))
    ensures !opts.dryRun && writers && EveryBlobListed(snapshot)
            && Answered(server.answers, |old(server.answers)|) ==>
              status == Completed && result.errors == []
  {
    hide *;
    ghost var live := server.state;
    ConsistentParts(live);
    var plan;
    plan, result, status := ExecuteRestore(server, snapshot, mode, opts, blobs, writers);
    ghost var full :| IsRestorePlan(full, snapshot, live, mode)
                      && plan == WithoutExcluded(full, BuildHashSet(opts.excludeHashes));
    PlanIsNormal(snapshot, live, mode, full, BuildHashSet(opts.excludeHashes), blobs);
    ConsistentParts(server.state);
    LiveKeys(server.state);
    ghost var since := |old(server.answers)|;
    if EveryBlobListed(snapshot) && Answered(server.answers, since) {
      AnsweredWell(snapshot, live, mode, full, BuildHashSet(opts.excludeHashes), server.answers, since);
    }
    again := BuildRestorePlan(snapshot, server.state, mode);
    ReplanIsEmpty(snapshot, server.state, mode, again);
    if Clean(opts, status, result) {
      CleanParts(opts, status, result);
      NoneToExclude(opts.excludeHashes);
      NoExclusions(full);
      PlannedBlobsMatch(snapshot, live, plan, mode, blobs);
      RestoreResult(snapshot, live, mode, plan, blobs);
      CompleteCase(snapshot, live, server.state);
      if LabelsListed(mode, snapshot, live) {
        RestoreSettles(mode, snapshot, live, server.state);
      }
    }
  }

  /** Every torrent of the snapshot is listed with a blob. */
  ghost predicate EveryBlobListed(snapshot: SnapshotState) {
    forall h :: h in snapshot.torrents ==> Trim(snapshot.torrents[h].blobPath) != ""
  }

  /** Every call succeeded, every blob could be read, and nobody gave up. */
  ghost predicate Answered(answers: seq<Answer>, since: nat) {
    since <= |answers| && forall a :: a in answers[since..] ==> a.Called? && a.ok
  }

  lemma AnsweredWell(snapshot: SnapshotState, live: LiveState, mode: RestoreMode, plan: RestorePlan,
                     exclude: set<string>, answers: seq<Answer>, since: nat)
    requires NormalSnapshot(snapshot) && NormalLive(live) && IsRestorePlan(plan, snapshot, live, mode)
    requires EveryBlobListed(snapshot) && Answered(answers, since)
    ensures AllWell(answers, since, WithoutExcluded(plan, exclude).torrents.add)
  {
    hide IsTorrentPlan, IsCategoryPlan, IsTagPlan, NormalLive, NormalHash, Filter, Trim;
    UnfoldNormal(snapshot, live) by { LiveKeys(live); }
    AddEntries(plan.torrents, snapshot, live, mode);
    FilterContents(plan.torrents.add, KeepSpec(exclude));
    var specs := WithoutExcluded(plan, exclude).torrents.add;
    forall i | 0 <= i < |specs| ensures Trim(specs[i].manifest.torrentBlob) != "" {
      assert specs[i] in plan.torrents.add;
      BlobOfSpec(snapshot, specs[i]);
    }
  }

  /** The restore was executed with nothing excluded, and reports no failure. */
  ghost predicate Clean(opts: RestoreOptions, status: Status, result: RestoreExecute.RestoreResult)
    reads result
  {
    status == Completed && opts.excludeHashes == [] && result.errors == []
  }

  lemma CleanParts(opts: RestoreOptions, status: Status, result: RestoreExecute.RestoreResult)
    requires Clean(opts, status, result)
    ensures status == Completed && opts.excludeHashes == [] && result.errors == []
  {}

  lemma ConsistentParts(s: LiveState)
    requires Consistent(s)
    ensures NormalLive(s) && ClosedLive(s)
  {}

  datatype Request = Request(snapshot: SnapshotState, mode: RestoreMode, opts: RestoreOptions, blobs: Blobs,
                             writers: bool)

  /** However restores of whatever snapshots failed or were cancelled before, a complete restore that then reports no
      failure still makes the instance agree with a snapshot that lists its labels. */
  method RestoreAfterOthers(server: Server, earlier: seq<Request>, snapshot: SnapshotState, opts: RestoreOptions,
                            blobs: Blobs, writers: bool)
    returns (result: RestoreExecute.RestoreResult, status: Status)
    requires NormalSnapshot(snapshot) && Consistent(server.state) && BlobsOf(snapshot, blobs)
    requires forall r :: r in earlier ==> NormalSnapshot(r.snapshot) && BlobsOf(r.snapshot, r.blobs)
    modifies server
    ensures Consistent(server.state)
    ensures Clean(opts, status, result) ==> (Agrees(server.state, snapshot) <==> ClosedSnapshot(snapshot))
  {
    hide *;
    for i := 0 to |earlier|
      invariant Consistent(server.state)
    {
      var r := earlier[i];
      var before, stopped, left := RestoreAndReplan(server, r.snapshot, r.mode, r.opts, r.blobs, r.writers);
    }
    var again;
    result, status, again := RestoreAndReplan(server, snapshot, Complete, opts, blobs, writers);
  }

  lemma NoneToExclude(hashes: seq<string>)
    requires hashes == []
    ensures BuildHashSet(hashes) == {}
  {}
}
