/** Backup runs, their items and the content-addressed torrent blobs: what backups add and what deletions collect
    (internal/backups/service.go, internal/models/backups.go). */
module BackupArchive {
  import opened Text
  import opened Scheduler

  datatype RunRow = RunRow(instanceID: int, kind: Kind, requestedAt: int)

  datatype Item = Item(runID: int, hash: string, blob: Option<string>)

  /** The two tables and the blob directory (path to content). */
  datatype Archive = Archive(runs: map<int, RunRow>, items: seq<Item>, blobs: map<string, string>)

  // ----- blob names -----

  /** The path of the blob with a hexadecimal digest, below the data directory. */
  function BlobPath(digest: string): string {
    "backups/torrents/"
    + (if |digest| >= 6 then digest[0..2] + "/" + digest[2..4] + "/" + digest[4..6] + "/" else "")
    + digest + ".torrent"
  }

  /** SHA-256 in hexadecimal, and the torrent files that ever occur. */
  datatype Digest = Digest(sum: string -> string, contents: iset<string>)

  /** No two torrent files that occur collide. */
  ghost predicate IsDigest(digest: Digest) {
    forall a, b :: a in digest.contents && b in digest.contents && digest.sum(a) == digest.sum(b) ==> a == b
  }

  /** The simplest digest, and one with 64 characters like SHA-256. */
  ghost function Verbatim(contents: iset<string>): Digest {
    Digest(s => s, contents)
  }

  ghost function Shortened(): Digest {
    Digest(s => if |s| == 64 then s else seq(64, i => '0'), iset s: string | |s| == 64)
  }

  /** There are such digests, for any torrent files, and also with results of fixed length. */
  lemma DigestsExist(contents: iset<string>)
    ensures IsDigest(Verbatim(contents)) && Verbatim(contents).contents == contents
    ensures IsDigest(Shortened()) && forall s :: |Shortened().sum(s)| == 64
    ensures forall s: string :: |s| == 64 ==> s in Shortened().contents
  {}

  lemma BlobPathTrimmed(digest: string)
    ensures Trim(BlobPath(digest)) == BlobPath(digest) != ""
  {
    var p := BlobPath(digest);
    assert p[0] == 'b' && p[|p| - 1] == 't';
    TrimFixed(p);
  }

  lemma BlobPathInjective(d: string, e: string)
    requires BlobPath(d) == BlobPath(e)
    ensures d == e
  {
    BlobPathParts(d);
    BlobPathParts(e);
  }

  /** The digest starts behind its three directories, if it is long enough to have them. */
  lemma BlobPathParts(d: string)
    ensures var p := BlobPath(d);
            if |d| >= 6 then |p| == |d| + 34 && p[26..|p| - 8] == d else |p| == |d| + 25 && p[17..|p| - 8] == d
  {
    var p := BlobPath(d);
    var front := p[..|p| - |d| - 8];
    assert p == front + (d + ".torrent");
  }

  lemma BlobPathExample()
    ensures BlobPath("abcdef01") == "backups/torrents/ab/cd/ef/abcdef01.torrent"
  {
    var d := "abcdef01";
    assert d[0..2] == "ab" && d[2..4] == "cd" && d[4..6] == "ef";
  }

  // ----- references -----

  function Refs(items: seq<Item>): set<string> {
    set it | it in items && it.blob.Some? :: it.blob.value
  }

  function Count(items: seq<Item>, path: string): nat {
    if items == [] then 0 else Count(items[1..], path) + if items[0].blob == Some(path) then 1 else 0
  }

  function OfRuns(items: seq<Item>, ids: set<int>): seq<Item> {
    if items == [] then []
    else if items[0].runID in ids then [items[0]] + OfRuns(items[1..], ids) else OfRuns(items[1..], ids)
  }

  function NotOfRuns(items: seq<Item>, ids: set<int>): seq<Item> {
    if items == [] then []
    else if items[0].runID in ids then NotOfRuns(items[1..], ids) else [items[0]] + NotOfRuns(items[1..], ids)
  }

  lemma {:induction false} CountedAreReferenced(items: seq<Item>, path: string)
    ensures Count(items, path) > 0 <==> path in Refs(items)
  {
    if items != [] {
      CountedAreReferenced(items[1..], path);
      assert items == [items[0]] + items[1..];
      if path in Refs(items) && items[0].blob != Some(path) {
        var it :| it in items && it.blob == Some(path);
        assert it in items[1..];
      }
    }
  }

  lemma {:induction false} SplitByRuns(items: seq<Item>, ids: set<int>)
    ensures forall it :: it in OfRuns(items, ids) <==> it in items && it.runID in ids
    ensures forall it :: it in NotOfRuns(items, ids) <==> it in items && it.runID !in ids
  {
    if items != [] {
      SplitByRuns(items[1..], ids);
      assert items == [items[0]] + items[1..];
    }
  }

  lemma {:induction false} RemoveInTwoSteps(items: seq<Item>, a: set<int>, b: set<int>)
    ensures NotOfRuns(NotOfRuns(items, a), b) == NotOfRuns(items, a + b)
  {
    if items != [] {
      RemoveInTwoSteps(items[1..], a, b);
      var rest := NotOfRuns(items[1..], a);
      assert ([items[0]] + rest)[1..] == rest;
    }
  }

  // ----- the invariant -----

  /** Items belong to stored runs and their blobs exist; blobs are named after their content. */
  ghost predicate Sound(a: Archive, digest: Digest) {
    && (forall it :: it in a.items ==> it.runID in a.runs)
    && Refs(a.items) <= a.blobs.Keys
    && (forall p :: p in a.blobs ==> p == BlobPath(digest.sum(a.blobs[p])) && a.blobs[p] in digest.contents)
  }

  /** No blob outlives its last reference. */
  ghost predicate NoOrphans(a: Archive) {
    a.blobs.Keys <= Refs(a.items)
  }

  /** The archive without some runs: their items are gone, and of the blobs exactly those they alone referenced. */
  function RemoveRuns(a: Archive, ids: set<int>): Archive {
    Archive(a.runs - ids, NotOfRuns(a.items, ids),
            a.blobs - (Refs(OfRuns(a.items, ids)) - Refs(NotOfRuns(a.items, ids))))
  }

  lemma RefsSplit(items: seq<Item>, ids: set<int>)
    ensures Refs(items) == Refs(OfRuns(items, ids)) + Refs(NotOfRuns(items, ids))
  {
    SplitByRuns(items, ids);
    forall p | p in Refs(items) ensures p in Refs(OfRuns(items, ids)) + Refs(NotOfRuns(items, ids)) {
      var it :| it in items && it.blob == Some(p);
      assert it in OfRuns(items, ids) || it in NotOfRuns(items, ids);
    }
  }

  /** Removing runs keeps every blob a surviving item needs, with its content, and removes exactly those whose last
      reference was among the removed items. */
  lemma RemovalIsExact(a: Archive, ids: set<int>, digest: Digest)
    requires Sound(a, digest)
    ensures var r := RemoveRuns(a, ids);
            && Sound(r, digest)
            && (forall p :: p in Refs(r.items) ==> p in r.blobs && r.blobs[p] == a.blobs[p])
            && a.blobs.Keys - r.blobs.Keys == Refs(a.items) - Refs(r.items)
            && (NoOrphans(a) ==> NoOrphans(r))
  {
    SplitByRuns(a.items, ids);
    RefsSplit(a.items, ids);
  }

  /** Removing runs in one go or one after the other is the same. */
  lemma RemovalsCompose(a: Archive, first: set<int>, second: set<int>)
    ensures RemoveRuns(RemoveRuns(a, first), second) == RemoveRuns(a, first + second)
  {
    hide OfRuns, NotOfRuns, Refs;
    var mid := RemoveRuns(a, first);
    var both := RemoveRuns(a, first + second);
    RemoveInTwoSteps(a.items, first, second);
    RefsSplit(a.items, first);
    RefsSplit(mid.items, second);
    RefsSplit(a.items, first + second);
    DropInTwoSteps(a.blobs, Refs(OfRuns(a.items, first)), Refs(mid.items), Refs(OfRuns(mid.items, second)),
                   Refs(both.items), Refs(OfRuns(a.items, first + second)));
    assert (a.runs - first) - second == a.runs - (first + second);
  }

  lemma DropInTwoSteps(blobs: map<string, string>, gone: set<string>, mid: set<string>, later: set<string>,
                       rest: set<string>, all: set<string>)
    requires later + rest == mid && all + rest == gone + mid
    ensures (blobs - (gone - mid)) - (later - rest) == blobs - (all - rest)
  {
    assert (gone - mid) + (later - rest) == all - rest by {
      forall x ensures x in (gone - mid) + (later - rest) <==> x in all - rest {
        assert x in later || x in rest <==> x in mid;
        assert x in all || x in rest <==> x in gone || x in mid;
      }
    }
  }
}
