/** The operations that delete runs and collect blobs (internal/backups/service.go, internal/models/backups.go):
    chunked queries and deletions. */
module BackupStore {
  import opened Text
  import opened Ordering
  import opened BackupArchive

  function Listing(ids: seq<int>): set<int> {
    set id | id in ids
  }

  /** Parameters of one SQL statement are limited, so longer lists are cut into chunks. */
  const CHUNK := 900

  class Store {
    var runs: map<int, RunRow>
    var items: seq<Item>
    var blobs: map<string, string>
    const digest: Digest

    /** How many writes of files or rows the system has refused. */
    ghost var refused: nat

    constructor (digest: Digest)
      requires IsDigest(digest)
      ensures Valid() && this.digest == digest && State() == Archive(map[], [], map[])
    {
      this.digest, refused := digest, 0;
      runs, items, blobs := map[], [], map[];
    }

    /** A write that the system may refuse. */
    method TryWrite() returns (ok: bool)
      modifies this`refused
      ensures refused == old(refused) + if ok then 0 else 1
    {
      ok := *;
      refused := refused + if ok then 0 else 1;
    }

    ghost function State(): Archive
      reads this
    {
      Archive(runs, items, blobs)
    }

    ghost predicate Valid()
      reads this
    {
      IsDigest(digest) && Sound(State(), digest)
    }

    // ----- the tables: one statement has `CHUNK` parameters at most -----

    method SelectItems(chunk: seq<int>) returns (found: seq<Item>)
      requires |chunk| <= CHUNK
      ensures found == OfRuns(items, Listing(chunk))
    {
      found := OfRuns(items, set id | id in chunk);
    }

    method DeleteRows(chunk: seq<int>)
      requires |chunk| <= CHUNK
      modifies this`runs, this`items
      ensures runs == old(runs) - Listing(chunk) && items == NotOfRuns(old(items), Listing(chunk))
    {
      items := NotOfRuns(items, set id | id in chunk);
      runs := runs - (set id | id in chunk);
    }

    method CountRows(chunk: seq<string>) returns (counts: map<string, nat>)
      requires |chunk| <= CHUNK
      ensures counts == map p | p in chunk && Count(items, p) > 0 :: Count(items, p)
    {
      counts := map p | p in chunk && Count(items, p) > 0 :: Count(items, p);
    }

    method ListItemsForRuns(ids: seq<int>) returns (found: seq<Item>)
      ensures forall it :: it in found <==> it in items && it.runID in ids
    {
      found := [];
      var i := 0;
      while i < |ids|
        invariant 0 <= i <= |ids|
        invariant forall it :: it in found <==> it in items && it.runID in ids[..i]
      {
        var end := if i + CHUNK < |ids| then i + CHUNK else |ids|;
        var chunk := ids[i..end];
        SplitByRuns(items, Listing(chunk));
        var rows := SelectItems(chunk);
        found := found + rows;
        assert ids[..end] == ids[..i] + chunk;
        i := end;
      }
      assert ids[..|ids|] == ids;
    }

    method CleanupRuns(ids: seq<int>)
      modifies this`runs, this`items
      ensures runs == old(runs) - Listing(ids)
      ensures items == NotOfRuns(old(items), Listing(ids))
    {
      var i := 0;
      NothingRemoved(items);
      assert Listing(ids[..0]) == {};
      while i < |ids|
        invariant 0 <= i <= |ids|
        invariant runs == old(runs) - Listing(ids[..i])
        invariant items == NotOfRuns(old(items), Listing(ids[..i]))
      {
        var end := if i + CHUNK < |ids| then i + CHUNK else |ids|;
        var chunk := ids[i..end];
        assert Listing(ids[..end]) == Listing(ids[..i]) + Listing(chunk) by {
          assert ids[..end] == ids[..i] + chunk;
        }
        RemoveInTwoSteps(old(items), Listing(ids[..i]), Listing(chunk));
        DeleteRows(chunk);
        i := end;
      }
      assert ids[..|ids|] == ids;
    }

    /** The number of references to each path that has any. */
    method CountBlobReferencesBatch(paths: seq<string>) returns (counts: map<string, nat>)
      ensures forall p :: p in counts <==> p in paths && Count(items, p) > 0
      ensures forall p :: p in counts ==> counts[p] == Count(items, p)
    {
      counts := map[];
      var i := 0;
      while i < |paths|
        invariant 0 <= i <= |paths|
        invariant forall p :: p in counts <==> p in paths[..i] && Count(items, p) > 0
        invariant forall p :: p in counts ==> counts[p] == Count(items, p)
      {
        var end := if i + CHUNK < |paths| then i + CHUNK else |paths|;
        var chunk := paths[i..end];
        var part := CountRows(chunk);
        counts := counts + part;
        assert paths[..end] == paths[..i] + chunk;
        i := end;
      }
      assert paths[..|paths|] == paths;
    }

    // ----- collecting blobs -----

    /** Deletes the blobs of removed items that no stored item references. */
    method CleanupTorrentBlobs(gone: seq<Item>)
      requires forall p :: p in Refs(gone) ==> Trim(p) == p != ""
      modifies this`blobs
      ensures blobs == old(blobs) - (Refs(gone) - Refs(items))
    {
      var unique := UniqueBlobs(gone);
      var counts := CountBlobReferencesBatch(unique);
      var toDelete: set<string> := {};
      var i := 0;
      while i < |unique|
        invariant 0 <= i <= |unique|
        invariant forall p :: p in toDelete <==> p in unique[..i] && p !in Refs(items)
        modifies {}
      {
        var rel := unique[i];
        var count := if rel in counts then counts[rel] else 0;
        assert unique[..i + 1] == unique[..i] + [rel];
        CountedAreReferenced(items, rel);
        if count == 0 {
          toDelete := toDelete + {rel};
        }
        i := i + 1;
      }
      assert unique[..|unique|] == unique;
      assert toDelete == Refs(gone) - Refs(items);
      blobs := blobs - toDelete;
    }

    method CleanupRunFiles(ids: seq<int>)
      requires Valid()
      modifies this`runs, this`items, this`blobs
      ensures State() == RemoveRuns(old(State()), Listing(ids))
    {
      if |ids| == 0 {
        assert Listing(ids) == {};
        NothingRemovedFrom(State());
        return;
      }
      var found := ListItemsForRuns(ids);
      var toCleanup: seq<Item> := [];
      var i := 0;
      while i < |ids|
        invariant 0 <= i <= |ids|
        invariant forall it :: it in toCleanup <==> it in items && it.runID in ids[..i]
        modifies {}
      {
        if ids[i] in runs {
          var ofRun := ItemsOf(found, ids[i]);
          toCleanup := toCleanup + ofRun;
        }
        assert ids[..i + 1] == ids[..i] + [ids[i]];
        i := i + 1;
      }
      assert ids[..|ids|] == ids;
      SplitByRuns(items, Listing(ids));
      assert Refs(toCleanup) == Refs(OfRuns(items, Listing(ids))) by {
        assert forall it :: it in toCleanup <==> it in OfRuns(items, Listing(ids));
      }
      RefsSplit(items, Listing(ids));
      BlobsAreTrimmed(State(), digest);
      CleanupRuns(ids);
      CleanupTorrentBlobs(toCleanup);
    }

    /** The user deletes one run; it fails if there is no such run. */
    method DeleteRun(id: int) returns (ok: bool)
      requires Valid()
      modifies this`runs, this`items, this`blobs
      ensures ok <==> id in old(runs)
      ensures State() == if ok then RemoveRuns(old(State()), {id}) else old(State())
    {
      if id !in runs {
        return false;
      }
      var found := OfRuns(items, {id});
      assert Listing([id]) == {id};
      RefsSplit(items, {id});
      BlobsAreTrimmed(State(), digest);
      CleanupRuns([id]);
      CleanupTorrentBlobs(found);
      return true;
    }
  }

  /** The distinct blob paths of items, in order of first use. */
  method UniqueBlobs(gone: seq<Item>) returns (unique: seq<string>)
    requires forall p :: p in Refs(gone) ==> Trim(p) == p != ""
    ensures forall p :: p in unique <==> p in Refs(gone)
    ensures NoDuplicates(unique)
  {
    var seen: set<string> := {};
    unique := [];
    var i := 0;
    while i < |gone|
      invariant 0 <= i <= |gone|
      invariant forall p :: p in seen <==> p in unique
      invariant seen == Refs(gone[..i])
      invariant NoDuplicates(unique)
    {
      RefsSnoc(gone[..i], gone[i]);
      assert gone[..i + 1] == gone[..i] + [gone[i]];
      if gone[i].blob.Some? {
        assert gone[i] in gone && gone[i].blob.value in Refs(gone);
        var rel := Trim(gone[i].blob.value);
        if rel != "" && rel !in seen {
          seen := seen + {rel};
          unique := unique + [rel];
        }
      }
      i := i + 1;
    }
    assert gone[..|gone|] == gone;
  }

  method ItemsOf(found: seq<Item>, id: int) returns (r: seq<Item>)
    ensures forall it :: it in r <==> it in found && it.runID == id
  {
    r := [];
    for k := 0 to |found|
      invariant forall it :: it in r <==> it in found[..k] && it.runID == id
    {
      assert found[..k + 1] == found[..k] + [found[k]];
      if found[k].runID == id {
        r := r + [found[k]];
      }
    }
    assert found[..|found|] == found;
  }

  lemma {:induction false} NothingRemoved(items: seq<Item>)
    ensures NotOfRuns(items, {}) == items && OfRuns(items, {}) == []
  {
    if items != [] {
      NothingRemoved(items[1..]);
      assert items == [items[0]] + items[1..];
    }
  }

  lemma NothingRemovedFrom(a: Archive)
    ensures RemoveRuns(a, {}) == a
  {
    NothingRemoved(a.items);
    assert Refs([]) == {};
  }

  lemma RefsSnoc(items: seq<Item>, it: Item)
    ensures Refs(items + [it]) == Refs(items) + if it.blob.Some? then {it.blob.value} else {}
  {
    assert it in items + [it];
  }

  lemma BlobsAreTrimmed(a: Archive, digest: Digest)
    requires Sound(a, digest)
    ensures forall p :: p in a.blobs ==> Trim(p) == p != ""
  {
    forall p | p in a.blobs ensures Trim(p) == p != "" {
      BlobPathTrimmed(digest.sum(a.blobs[p]));
    }
  }
}
