/** Executing a backup (internal/backups/service.go): torrents are exported or taken from the blob cache, stored by
    content and recorded as items. */
module BackupJob {
  import opened Text
  import opened Ordering
  import opened BackupArchive
  import opened BackupStore
  import opened Retention

  /** What asking the instance for a torrent file yields. */
  datatype Export = Exported(data: string) | Unavailable | Broken

  /** One live torrent, with the answers of everything outside the service: whether its cached blob can be read, the
      export, and the tracker patch of the data if it changes it. */
  datatype Source = Source(hash: string, hybrid: bool, cacheReadable: bool, exported: Export,
                           patch: string -> Option<string>)

  datatype Outcome = Skip | Fail | Data(content: string)

  predicate Recorded(runs: map<int, RunRow>, instanceID: int, hash: string, it: Item) {
    it.hash == hash && it.blob.Some? && it.runID in runs && runs[it.runID].instanceID == instanceID
  }

  /** FindCachedTorrentBlob: the blob of the instance's latest item for the torrent. */
  function CachedPath(runs: map<int, RunRow>, instanceID: int, hash: string, items: seq<Item>): Option<string> {
    if items == [] then None
    else
      var last := items[|items| - 1];
      if Recorded(runs, instanceID, hash, last)
      then (if Trim(last.blob.value) == "" then None else Some(Trim(last.blob.value)))
      else CachedPath(runs, instanceID, hash, items[..|items| - 1])
  }

  lemma {:induction false} CachedPathExists(a: Archive, instanceID: int, hash: string, items: seq<Item>,
                                            digest: Digest)
    requires Sound(a, digest) && (forall it :: it in items ==> it in a.items)
    ensures var path := CachedPath(a.runs, instanceID, hash, items); path.Some? ==> path.value in a.blobs
  {
    if items != [] {
      var last := items[|items| - 1];
      assert last in a.items;
      if Recorded(a.runs, instanceID, hash, last) {
        assert last.blob.value in Refs(a.items);
        BlobsAreTrimmed(a, digest);
      } else {
        CachedPathExists(a, instanceID, hash, items[..|items| - 1], digest);
      }
    }
  }

  /** The lookup finds the latest item with that hash and a blob, in a run of that instance, and no other. */
  lemma {:induction false} CachedPathExactly(runs: map<int, RunRow>, instanceID: int, hash: string, items: seq<Item>,
                                             k: nat)
    requires k <= |items|
    requires k < |items| ==>
               && items[k].hash == hash && items[k].blob.Some?
               && items[k].runID in runs && runs[items[k].runID].instanceID == instanceID
    requires forall i :: k < i < |items| || (k == |items| && 0 <= i < |items|) ==>
               items[i].hash == hash && items[i].blob.Some? && items[i].runID in runs ==>
               runs[items[i].runID].instanceID != instanceID
    ensures CachedPath(runs, instanceID, hash, items)
            == if k < |items| && Trim(items[k].blob.value) != "" then Some(Trim(items[k].blob.value)) else None
  {
    if items != [] && k != |items| - 1 {
      var front := items[..|items| - 1];
      assert !Recorded(runs, instanceID, hash, items[|items| - 1]);
      assert forall i :: 0 <= i < |front| ==> front[i] == items[i];
      CachedPathExactly(runs, instanceID, hash, front, if k < |items| then k else k - 1);
    }
  }

  /** What becomes of a torrent. */
  function OutcomeOf(a: Archive, instanceID: int, src: Source): Outcome {
    var path := CachedPath(a.runs, instanceID, src.hash, a.items);
    var plain :=
      if path.Some? && path.value in a.blobs && src.cacheReadable then Data(a.blobs[path.value])
      else if path.None? && src.hybrid then Skip
      else match src.exported {
        case Exported(data) => Data(data)
        case Unavailable => Skip
        case Broken => Fail
      };
    if plain.Data? && src.patch(plain.content).Some? then Data(src.patch(plain.content).value) else plain
  }

  /** The torrent files a torrent may supply, exported or patched, are among those that occur. */
  ghost predicate Supplied(src: Source, contents: iset<string>) {
    && (src.exported.Exported? ==> src.exported.data in contents)
    && forall c :: c in contents && src.patch(c).Some? ==> src.patch(c).value in contents
  }

  ghost predicate AllSupplied(sources: seq<Source>, contents: iset<string>) {
    forall i :: 0 <= i < |sources| ==> Supplied(sources[i], contents)
  }

  /** The data with the tracker patch, if that changes it. */
  function Patched(src: Source, data: string): string {
    if src.patch(data).Some? then src.patch(data).value else data
  }

  lemma DataOccurs(a: Archive, instanceID: int, src: Source, digest: Digest)
    requires Sound(a, digest) && Supplied(src, digest.contents)
    ensures OutcomeOf(a, instanceID, src).Data? ==> OutcomeOf(a, instanceID, src).content in digest.contents
  {
    CachedPathExists(a, instanceID, src.hash, a.items, digest);
  }

  // ----- whose files are backed up -----

  /** Every item's blob holds a file of its own torrent; `files` says which files are a torrent's. */
  ghost predicate Genuine(a: Archive, files: iset<(string, string)>) {
    forall it :: it in a.items && it.blob.Some? ==>
      it.blob.value in a.blobs && (it.hash, a.blobs[it.blob.value]) in files
  }

  /** A torrent's export is its file, and patching a file of it gives one. */
  ghost predicate GenuineSource(src: Source, files: iset<(string, string)>) {
    && (src.exported.Exported? ==> (src.hash, src.exported.data) in files)
    && forall c :: (src.hash, c) in files && src.patch(c).Some? ==> (src.hash, src.patch(c).value) in files
  }

  ghost predicate AllGenuine(sources: seq<Source>, files: iset<(string, string)>) {
    forall i :: 0 <= i < |sources| ==> GenuineSource(sources[i], files)
  }

  /** A path that is found belongs to an item of that torrent. */
  lemma {:induction false} CachedItem(a: Archive, instanceID: int, hash: string, items: seq<Item>, digest: Digest)
    requires Sound(a, digest) && (forall it :: it in items ==> it in a.items)
    ensures var path := CachedPath(a.runs, instanceID, hash, items);
            path.Some? ==> exists it :: it in items && it.hash == hash && it.blob == path
  {
    if items != [] {
      var last := items[|items| - 1];
      assert last in a.items;
      if Recorded(a.runs, instanceID, hash, last) {
        assert last.blob.value in Refs(a.items);
        BlobsAreTrimmed(a, digest);
      } else {
        CachedItem(a, instanceID, hash, items[..|items| - 1], digest);
      }
    }
  }

  lemma OutcomeGenuine(a: Archive, instanceID: int, src: Source, digest: Digest, files: iset<(string, string)>)
    requires Sound(a, digest) && Genuine(a, files) && GenuineSource(src, files)
    ensures OutcomeOf(a, instanceID, src).Data? ==> (src.hash, OutcomeOf(a, instanceID, src).content) in files
  {
    CachedItem(a, instanceID, src.hash, a.items, digest);
  }

  /** The recorded items are those of the torrents with data, in order: `from` says whose item is the k-th. */
  lemma {:induction false} ProducedExactly(a: Archive, instanceID: int, runID: int, sources: seq<Source>,
                                           digest: Digest)
    returns (from: seq<nat>)
    ensures var items := Produced(a, instanceID, runID, sources, digest);
            && |from| == |items|
            && (forall j, k :: 0 <= j < k < |from| ==> from[j] < from[k])
            && (forall k :: 0 <= k < |from| ==>
                  && from[k] < |sources| && OutcomeOf(a, instanceID, sources[from[k]]).Data?
                  && items[k] == Item(runID, sources[from[k]].hash,
                                      Some(BlobPath(digest.sum(OutcomeOf(a, instanceID, sources[from[k]]).content)))))
            && (forall i :: 0 <= i < |sources| && OutcomeOf(a, instanceID, sources[i]).Data? ==> i in from)
  {
    hide OutcomeOf, BlobPath;
    if sources == [] {
      return [];
    }
    var front, last := sources[..|sources| - 1], |sources| - 1;
    from := ProducedExactly(a, instanceID, runID, front, digest);
    assert forall i :: 0 <= i < |front| ==> front[i] == sources[i];
    if OutcomeOf(a, instanceID, sources[last]).Data? {
      from := from + [last];
    }
  }

  /** What a backup records is genuine if the archive was and the torrents supply their own files. */
  lemma RecordedGenuine(a: Archive, instanceID: int, runID: int, sources: seq<Source>, digest: Digest,
                        blobs: map<string, string>, items: seq<Item>, files: iset<(string, string)>)
    requires Sound(a, digest) && Genuine(a, files) && AllGenuine(sources, files)
    requires Recording(a, instanceID, runID, sources, digest, blobs, items)
    ensures Genuine(WithItems(a, blobs, items), files)
  {
    var from := ProducedExactly(a, instanceID, runID, sources, digest);
    forall it | it in items && it.blob.Some?
      ensures it.blob.value in blobs && (it.hash, blobs[it.blob.value]) in files
    {
      var k :| 0 <= k < |items| && items[k] == it;
      OutcomeGenuine(a, instanceID, sources[from[k]], digest, files);
    }
  }

  /** Removing runs takes no file from the items that stay. */
  lemma RemovalGenuine(a: Archive, ids: set<int>, digest: Digest, files: iset<(string, string)>)
    requires Sound(a, digest) && Genuine(a, files)
    ensures Genuine(RemoveRuns(a, ids), files)
  {
    RemovalIsExact(a, ids, digest);
    SplitByRuns(a.items, ids);
    var r := RemoveRuns(a, ids);
    forall it | it in r.items && it.blob.Some?
      ensures it.blob.value in r.blobs && (it.hash, r.blobs[it.blob.value]) in files
    {
      assert it in a.items && it.blob.value in Refs(r.items);
    }
  }

  function ItemOf(runID: int, src: Source, content: string, digest: Digest): Item {
    Item(runID, src.hash, Some(BlobPath(digest.sum(content))))
  }

  /** The items a backup records: one per torrent with data, in order, each naming the blob of its content. */
  function Produced(a: Archive, instanceID: int, runID: int, sources: seq<Source>,
                    digest: Digest): seq<Item>
  {
    if sources == [] then []
    else
      var front := Produced(a, instanceID, runID, sources[..|sources| - 1], digest);
      var last := sources[|sources| - 1];
      var outcome := OutcomeOf(a, instanceID, last);
      if outcome.Data? then front + [ItemOf(runID, last, outcome.content, digest)] else front
  }

  ghost predicate BlobsGrow(before: map<string, string>, after: map<string, string>) {
    forall p :: p in before ==> p in after && after[p] == before[p]
  }

  /** Every file the backup needs is there, with the very content that was backed up. */
  ghost predicate Holds(blobs: map<string, string>, a: Archive, instanceID: int, sources: seq<Source>,
                        digest: Digest)
  {
    forall i :: 0 <= i < |sources| && OutcomeOf(a, instanceID, sources[i]).Data? ==>
      var content := OutcomeOf(a, instanceID, sources[i]).content;
      BlobPath(digest.sum(content)) in blobs && blobs[BlobPath(digest.sum(content))] == content
  }

  /** What a backup has done once it dealt with the first sources. */
  ghost predicate Recording(a: Archive, instanceID: int, runID: int, sources: seq<Source>, digest: Digest,
                            blobs: map<string, string>, recorded: seq<Item>)
  {
    && BlobsGrow(a.blobs, blobs)
    && recorded == Produced(a, instanceID, runID, sources, digest)
    && blobs.Keys == a.blobs.Keys + Refs(recorded)
    && Holds(blobs, a, instanceID, sources, digest)
    && forall i :: 0 <= i < |sources| ==> OutcomeOf(a, instanceID, sources[i]) != Fail
  }

  lemma RecordSkip(a: Archive, instanceID: int, runID: int, sources: seq<Source>, digest: Digest,
                   blobs: map<string, string>, recorded: seq<Item>, src: Source)
    requires Recording(a, instanceID, runID, sources, digest, blobs, recorded) && OutcomeOf(a, instanceID, src) == Skip
    ensures Recording(a, instanceID, runID, sources + [src], digest, blobs, recorded)
  {
    hide OutcomeOf, BlobsGrow;
    assert (sources + [src])[..|sources|] == sources;
  }

  lemma RecordData(a: Archive, instanceID: int, runID: int, sources: seq<Source>, digest: Digest,
                   blobs: map<string, string>, recorded: seq<Item>, src: Source, content: string,
                   after: map<string, string>)
    requires Recording(a, instanceID, runID, sources, digest, blobs, recorded)
    requires OutcomeOf(a, instanceID, src) == Data(content) && BlobsGrow(blobs, after)
    requires var path := BlobPath(digest.sum(content));
             after.Keys == blobs.Keys + {path} && path in after && after[path] == content
    ensures Recording(a, instanceID, runID, sources + [src], digest, after,
                      recorded + [ItemOf(runID, src, content, digest)])
  {
    hide OutcomeOf, BlobPath;
    assert (sources + [src])[..|sources|] == sources;
    RefsSnoc(recorded, ItemOf(runID, src, content, digest));
  }

  /** The blob of a torrent's data: the cached one if it was used unchanged, else written under its digest. */
  method StoreBlob(store: Store, cached: Option<string>, data: string) returns (path: Option<string>)
    requires store.Valid() && data in store.digest.contents
    requires cached.Some? ==> cached.value in store.blobs && store.blobs[cached.value] == data
    modifies store`blobs, store`refused
    ensures store.Valid() && BlobsGrow(old(store.blobs), store.blobs)
    ensures store.refused >= old(store.refused) && (path.None? <==> store.refused > old(store.refused))
    ensures path.Some? ==> path.value == BlobPath(store.digest.sum(data)) && path.value in store.blobs
                           && store.blobs[path.value] == data
                           && store.blobs.Keys == old(store.blobs.Keys) + {path.value}
    ensures path.None? ==> store.blobs == old(store.blobs)
  {
    if cached.Some? {
      return cached;
    }
    var name := BlobPath(store.digest.sum(data));
    if name !in store.blobs {
      var written := store.TryWrite();
      if !written {
        return None;
      }
      store.blobs := store.blobs[name := data];
    } else {
      SameBlobSameData(store.State(), store.digest, name, data);
    }
    return Some(name);
  }

  lemma SameBlobSameData(a: Archive, digest: Digest, name: string, data: string)
    requires IsDigest(digest) && Sound(a, digest) && name in a.blobs && name == BlobPath(digest.sum(data))
    requires data in digest.contents
    ensures a.blobs[name] == data
  {
    BlobPathInjective(digest.sum(a.blobs[name]), digest.sum(data));
  }

  /** The data of a torrent, and the cached blob that holds it if there is one. */
  method ObtainData(store: Store, instanceID: int, src: Source) returns (outcome: Outcome, cached: Option<string>)
    requires store.Valid()
    ensures outcome == OutcomeOf(store.State(), instanceID, src)
    ensures var path := CachedPath(store.runs, instanceID, src.hash, store.items);
            if path.Some? && src.cacheReadable then
              path.value in store.blobs && outcome == Data(Patched(src, store.blobs[path.value]))
            else if src.exported.Exported? && (path.Some? || !src.hybrid) then
              outcome == Data(Patched(src, src.exported.data))
            else if src.exported == Broken && (path.Some? || !src.hybrid) then outcome == Fail
            else outcome == Skip
    ensures cached.Some? ==>
            outcome.Data? && cached.value in store.blobs && store.blobs[cached.value] == outcome.content
  {
    CachedPathExists(store.State(), instanceID, src.hash, store.items, store.digest);
    var found := CachedPath(store.runs, instanceID, src.hash, store.items);
    cached := None;
    var data: Option<string> := None;
    if found.Some? && src.cacheReadable {
      cached, data := found, Some(store.blobs[found.value]);
    }
    if data.None? {
      if found.None? && src.hybrid {
        return Skip, None;
      }
      match src.exported {
        case Exported(content) => data := Some(content);
        case Unavailable => return Skip, None;
        case Broken => return Fail, None;
      }
    }
    var patched := src.patch(data.value);
    if patched.Some? {
      cached, data := None, patched;
    }
    outcome := Data(data.value);
  }

  /** The cache lookup goes by the tables, which a backup leaves alone, and blobs never change. */
  lemma OutcomeStable(a: Archive, b: Archive, instanceID: int, src: Source, digest: Digest)
    requires Sound(a, digest) && a.runs == b.runs && a.items == b.items && BlobsGrow(a.blobs, b.blobs)
    ensures OutcomeOf(a, instanceID, src) == OutcomeOf(b, instanceID, src)
  {
    CachedPathExists(a, instanceID, src.hash, a.items, digest);
  }

  ghost predicate SomeExportFails(a: Archive, instanceID: int, sources: seq<Source>) {
    exists i :: 0 <= i < |sources| && OutcomeOf(a, instanceID, sources[i]) == Fail
  }

  lemma ExportFails(a: Archive, instanceID: int, sources: seq<Source>, i: nat)
    requires i < |sources| && OutcomeOf(a, instanceID, sources[i]) == Fail
    ensures SomeExportFails(a, instanceID, sources)
  {}

  lemma NoExportFailed(a: Archive, instanceID: int, runID: int, sources: seq<Source>, digest: Digest,
                       blobs: map<string, string>, recorded: seq<Item>)
    requires Recording(a, instanceID, runID, sources, digest, blobs, recorded)
    ensures !SomeExportFails(a, instanceID, sources)
  {}

  /** Records the torrents that have data; fails if an export or a write fails. */
  method ExecuteBackup(store: Store, instanceID: int, runID: int, sources: seq<Source>)
    returns (items: Option<seq<Item>>)
    requires store.Valid() && AllSupplied(sources, store.digest.contents)
    modifies store`blobs, store`refused
    ensures store.Valid() && BlobsGrow(old(store.blobs), store.blobs)
    ensures store.refused >= old(store.refused)
    ensures items.None? <==>
              store.refused > old(store.refused)
              || SomeExportFails(old(store.State()), instanceID, sources)
    ensures items.Some? ==>
              Recording(old(store.State()), instanceID, runID, sources, store.digest, store.blobs, items.value)
    ensures items.Some? ==>
              forall files :: Genuine(old(store.State()), files) && AllGenuine(sources, files) ==>
                Genuine(WithItems(old(store.State()), store.blobs, items.value), files)
  {
    hide Sound, OutcomeOf, Recording, BlobPath, Genuine, AllGenuine, WithItems, SomeExportFails;
    ghost var before := store.State();
    var recorded: seq<Item> := [];
    StartRecording(before, instanceID, runID, store.digest);
    var i := 0;
    while i < |sources|
      invariant 0 <= i <= |sources|
      invariant store.Valid() && BlobsGrow(before.blobs, store.blobs)
      invariant store.refused == old(store.refused)
      invariant Recording(before, instanceID, runID, sources[..i], store.digest, store.blobs, recorded)
    {
      var src := sources[i];
      assert sources[..i + 1] == sources[..i] + [src];
      OutcomeStable(before, store.State(), instanceID, src, store.digest);
      var outcome, cached := ObtainData(store, instanceID, src);
      if outcome.Fail? {
        ExportFails(before, instanceID, sources, i);
        return None;
      } else if outcome.Skip? {
        RecordSkip(before, instanceID, runID, sources[..i], store.digest, store.blobs, recorded, src);
      } else {
        ghost var blobs := store.blobs;
        DataOccurs(store.State(), instanceID, src, store.digest);
        var path := StoreBlob(store, cached, outcome.content);
        if path.None? {
          return None;
        }
        RecordData(before, instanceID, runID, sources[..i], store.digest, blobs, recorded, src, outcome.content,
                   store.blobs);
        recorded := recorded + [Item(runID, src.hash, path)];
      }
      i := i + 1;
    }
    assert sources[..|sources|] == sources;
    NoExportFailed(before, instanceID, runID, sources, store.digest, store.blobs, recorded);
    forall files | Genuine(before, files) && AllGenuine(sources, files)
      ensures Genuine(WithItems(before, store.blobs, recorded), files)
    {
      RecordedGenuine(before, instanceID, runID, sources, store.digest, store.blobs, recorded, files);
    }
    return Some(recorded);
  }

  lemma StartRecording(a: Archive, instanceID: int, runID: int, digest: Digest)
    ensures Recording(a, instanceID, runID, [], digest, a.blobs, [])
  {}

  // ----- jobs -----

  /** The archive with the items of a finished backup. */
  function WithItems(a: Archive, blobs: map<string, string>, items: seq<Item>): Archive {
    Archive(a.runs, a.items + items, blobs)
  }

  lemma {:induction false} ProducedRuns(a: Archive, instanceID: int, runID: int, sources: seq<Source>,
                                        digest: Digest)
    ensures forall it :: it in Produced(a, instanceID, runID, sources, digest) ==> it.runID == runID
  {
    if sources != [] {
      ProducedRuns(a, instanceID, runID, sources[..|sources| - 1], digest);
    }
  }

  lemma RefsConcat(a: seq<Item>, b: seq<Item>)
    ensures Refs(a + b) == Refs(a) + Refs(b)
  {
    forall p | p in Refs(a) + Refs(b) ensures p in Refs(a + b) {
      var it :| (it in a || it in b) && it.blob == Some(p);
      assert it in a + b;
    }
  }

  /** Recorded items keep the archive sound, and leave no blob without a reference. */
  lemma RecordedIsSound(a: Archive, instanceID: int, runID: int, sources: seq<Source>, digest: Digest,
                        blobs: map<string, string>, items: seq<Item>)
    requires Sound(a, digest) && Sound(a.(blobs := blobs), digest) && runID in a.runs
    requires Recording(a, instanceID, runID, sources, digest, blobs, items)
    ensures Sound(WithItems(a, blobs, items), digest)
    ensures NoOrphans(a) ==> NoOrphans(WithItems(a, blobs, items))
  {
    hide Holds, BlobsGrow, Produced;
    ProducedRuns(a, instanceID, runID, sources, digest);
    RefsConcat(a.items, items);
  }

  /** What a worker does for a run: back up, record the items, apply retention. `complete` says that nothing failed. */
  method HandleJob(store: Store, instanceID: int, runID: int, sources: seq<Source>, settings: BackupSettings)
    returns (complete: bool, ghost removed: set<int>)
    requires store.Valid() && runID in store.runs && AllSupplied(sources, store.digest.contents)
    modifies store, settings
    ensures store.Valid()
    ensures complete ==>
              exists blobs, items ::
                Recording(old(store.State()), instanceID, runID, sources, store.digest, blobs, items)
                && store.State() == RemoveRuns(WithItems(old(store.State()), blobs, items), removed)
    ensures complete ==> settings.Normalized() && Retained(old(store.runs), instanceID, settings, Scheduled(), removed)
    ensures complete && NoOrphans(old(store.State())) ==> NoOrphans(store.State())
    ensures store.refused >= old(store.refused)
    ensures !complete <==>
              store.refused > old(store.refused)
              || SomeExportFails(old(store.State()), instanceID, sources)
    ensures forall files :: Genuine(old(store.State()), files) && AllGenuine(sources, files) ==>
              Genuine(store.State(), files)
  {
    hide Sound, OutcomeOf, Recording, BlobPath, Retained, RemoveRuns, NoOrphans, Genuine, AllGenuine, SomeExportFails;
    removed := {};
    ghost var before := store.State();
    var changed := settings.Normalize();
    var result := ExecuteBackup(store, instanceID, runID, sources);
    forall files | Genuine(before, files) ensures Genuine(before.(blobs := store.blobs), files) {
      GrowthGenuine(before, store.blobs, files);
    }
    if result.None? {
      return false, {};
    }
    ghost var blobs := store.blobs;
    complete := true;
    RecordedIsSound(before, instanceID, runID, sources, store.digest, blobs, result.value);
    if |result.value| > 0 {
      complete := store.TryWrite();
      if complete {
        store.items := store.items + result.value;
      }
    }
    ghost var mid := store.State();
    assert complete ==> mid == WithItems(before, blobs, result.value);
    removed := ApplyRetention(store, instanceID, settings);
    RemovalIsExact(mid, removed, store.digest);
    forall files | Genuine(mid, files) ensures Genuine(store.State(), files) {
      RemovalGenuine(mid, removed, store.digest, files);
    }
  }

  lemma GrowthGenuine(a: Archive, blobs: map<string, string>, files: iset<(string, string)>)
    requires Genuine(a, files) && BlobsGrow(a.blobs, blobs)
    ensures Genuine(a.(blobs := blobs), files)
  {}

  // ----- any sequence of operations -----

  datatype Operation =
    | Backup(runID: int, run: RunRow, sources: seq<Source>)
    | DeleteOne(runID: int)
    | DeleteAll(instanceID: int)

  function RunsOf(runs: map<int, RunRow>, instanceID: int): set<int> {
    set id | id in runs && runs[id].instanceID == instanceID
  }

  method DeleteAllRuns(store: Store, instanceID: int)
    requires store.Valid()
    modifies store`runs, store`items, store`blobs
    ensures store.Valid()
    ensures store.State() == RemoveRuns(old(store.State()), RunsOf(old(store.runs), instanceID))
  {
    ghost var before := store.State();
    var left := RunsOf(store.runs, instanceID);
    ghost var all := left;
    NothingRemovedFrom(before);
    assert all - left == {};
    while left != {}
      invariant left <= all <= before.runs.Keys
      invariant store.Valid() && store.State() == RemoveRuns(before, all - left)
    {
      NonEmpty(left);
      var id :| id in left;
      assert id in store.runs;
      var ok := store.DeleteRun(id);
      RemovalsCompose(before, all - left, {id});
      assert all - left + {id} == all - (left - {id});
      RemovalIsExact(before, all - (left - {id}), store.digest);
      left := left - {id};
    }
    assert all - left == all;
  }

  /** Whatever is backed up and deleted one after the other: every blob a stored item references is there and holds the
      content it is named after; and if no backup failed, no blob is left without a reference. */
  method Replay(store: Store, settings: BackupSettings, operations: seq<Operation>) returns (clean: bool)
    requires store.Valid()
    requires forall op :: op in operations && op.Backup? ==> AllSupplied(op.sources, store.digest.contents)
    modifies store, settings
    ensures store.Valid()
    ensures clean && NoOrphans(old(store.State())) ==> NoOrphans(store.State())
    ensures !clean ==>
              store.refused > old(store.refused)
              || exists op, src :: op in operations && op.Backup? && src in op.sources && src.exported == Broken
    ensures forall files :: Genuine(old(store.State()), files)
                            && (forall op :: op in operations && op.Backup? ==> AllGenuine(op.sources, files)) ==>
              Genuine(store.State(), files)
  {
    hide Sound, NoOrphans, RemoveRuns, Recording, Retained, Genuine, AllGenuine;
    clean := true;
    for i := 0 to |operations|
      invariant store.Valid()
      invariant forall files :: Genuine(old(store.State()), files)
                                && (forall op :: op in operations && op.Backup? ==> AllGenuine(op.sources, files)) ==>
                  Genuine(store.State(), files)
      invariant clean && NoOrphans(old(store.State())) ==> NoOrphans(store.State())
      invariant store.refused >= old(store.refused)
      invariant !clean ==>
                  store.refused > old(store.refused)
                  || exists op, src :: op in operations && op.Backup? && src in op.sources && src.exported == Broken
    {
      ghost var before := store.State();
      match operations[i] {
        case Backup(runID, run, sources) =>
          if runID !in store.runs {
            NewRunIsSound(before, runID, run, store.digest);
            forall files | Genuine(before, files)
              ensures Genuine(before.(runs := before.runs[runID := run]), files)
            {
              NewRunGenuine(before, runID, run, files);
            }
            store.runs := store.runs[runID := run];
            var complete, removed := HandleJob(store, run.instanceID, runID, sources, settings);
            if !complete && store.refused == old(store.refused) {
              var k :| 0 <= k < |sources| && OutcomeOf(before.(runs := before.runs[runID := run]), run.instanceID,
                                                       sources[k]) == Fail;
              assert operations[i] in operations && sources[k] in operations[i].sources;
            }
            clean := clean && complete;
          }
        case DeleteOne(runID) =>
          RemovalIsExact(before, {runID}, store.digest);
          forall files | Genuine(before, files) ensures Genuine(RemoveRuns(before, {runID}), files) {
            RemovalGenuine(before, {runID}, store.digest, files);
          }
          var ok := store.DeleteRun(runID);
        case DeleteAll(instanceID) =>
          DeleteAllRuns(store, instanceID);
          ghost var gone := RunsOf(before.runs, instanceID);
          RemovalIsExact(before, gone, store.digest);
          forall files | Genuine(before, files) ensures Genuine(RemoveRuns(before, gone), files) {
            RemovalGenuine(before, gone, store.digest, files);
          }
      }
    }
  }

  lemma NewRunGenuine(a: Archive, runID: int, run: RunRow, files: iset<(string, string)>)
    requires Genuine(a, files)
    ensures Genuine(a.(runs := a.runs[runID := run]), files)
  {}

  lemma NewRunIsSound(a: Archive, runID: int, run: RunRow, digest: Digest)
    requires Sound(a, digest) && runID !in a.runs
    ensures Sound(a.(runs := a.runs[runID := run]), digest)
    ensures NoOrphans(a) ==> NoOrphans(a.(runs := a.runs[runID := run]))
  {}
}
