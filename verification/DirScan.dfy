/** The table of scanned files (internal/models/dirscan.go): one row per path of a directory, meant to follow a file by
    its id across renames. */
module DirScan {
  import opened Text
  import opened Ordering

  datatype FileData = FileData(size: int, modTime: int, status: string, matchedHash: string,
                               matchedIndexer: Option<int>)

  /** A scanned file; a file without an id has the empty one. */
  datatype File = File(directoryID: int, path: string, fileID: string, data: FileData)

  datatype Row = Row(directoryID: int, path: string, fileID: string, data: FileData, processedAt: int)

  function RowOf(f: File, now: int): Row {
    Row(f.directoryID, f.path, f.fileID, f.data, now)
  }

  // ----- the table -----

  /** UNIQUE(directory_id, file_path). */
  predicate UniquePaths(rows: map<int, Row>) {
    forall i, j :: i in rows && j in rows && rows[i].directoryID == rows[j].directoryID ==>
      rows[i].path == rows[j].path ==> i == j
  }

  /** No file id stands on two rows of a directory. */
  ghost predicate UniqueFileIDs(rows: map<int, Row>) {
    forall i, j :: i in rows && j in rows && rows[i].directoryID == rows[j].directoryID ==>
      rows[i].fileID == rows[j].fileID != "" ==> i == j
  }

  /** The rows with the file's id. */
  function Tracked(rows: map<int, Row>, f: File): set<int> {
    set id | id in rows && rows[id].directoryID == f.directoryID && rows[id].fileID == f.fileID
  }

  /** The rows with the file's path. */
  function AtPath(rows: map<int, Row>, f: File): set<int> {
    set id | id in rows && rows[id].directoryID == f.directoryID && rows[id].path == f.path
  }

  /** The table the UPDATE by file id would leave. */
  function Renamed(rows: map<int, Row>, f: File, now: int): map<int, Row> {
    map id | id in rows :: if id in Tracked(rows, f) then RowOf(f, now) else rows[id]
  }

  /** The table after the INSERT … ON CONFLICT by path. */
  function Placed(rows: map<int, Row>, nextID: int, f: File, now: int): map<int, Row> {
    if AtPath(rows, f) == {} then rows[nextID := RowOf(f, now)]
    else map id | id in rows :: if id in AtPath(rows, f) then RowOf(f, now) else rows[id]
  }

  /** The rows deleteDuplicateFileIDRows deletes; it does nothing for an empty id or an empty path. */
  function Duplicates(rows: map<int, Row>, f: File): set<int> {
    if f.directoryID <= 0 || f.fileID == "" || f.path == "" then {}
    else set id | id in Tracked(rows, f) && rows[id].path != f.path
  }

  /** The path is held by another row, or the id by several: the UPDATE by file id breaks the constraint. */
  ghost predicate Conflict(rows: map<int, Row>, f: File) {
    && Tracked(rows, f) != {}
    && (|Tracked(rows, f)| > 1 || !(AtPath(rows, f) <= Tracked(rows, f)))
  }

  predicate RenameWorks(rows: map<int, Row>, f: File, now: int) {
    f.fileID != "" && Tracked(rows, f) != {} && UniquePaths(Renamed(rows, f, now))
  }

  /** The table before duplicates are deleted. */
  function Written(rows: map<int, Row>, nextID: int, f: File, now: int): map<int, Row> {
    if RenameWorks(rows, f, now) then Renamed(rows, f, now) else Placed(rows, nextID, f, now)
  }

  /** The table after a successful call. */
  function Upserted(rows: map<int, Row>, nextID: int, f: File, now: int): map<int, Row> {
    var written := Written(rows, nextID, f, now);
    written - Duplicates(written, f)
  }

  datatype UpdateResult = Violation | Error | Affected(rows: nat)

  class DirScanStore {
    var rows: map<int, Row>
    var nextID: int
    const directories: set<int>

    constructor (directories: set<int>)
      requires forall d :: d in directories ==> d > 0
      ensures Valid() && rows == map[] && this.directories == directories
    {
      this.directories := directories;
      rows, nextID := map[], 1;
    }

    /** Rows belong to known directories, whose ids are positive; ids are never handed out twice. */
    ghost predicate Valid()
      reads this
    {
      && UniquePaths(rows)
      && (forall d :: d in directories ==> d > 0)
      && (forall id :: id in rows ==> id < nextID && rows[id].directoryID in directories)
    }

    /** UPDATE … WHERE directory_id = ? AND file_id = ?. */
    method UpdateByFileID(f: File, now: int, fails: bool) returns (r: UpdateResult)
      requires Valid()
      modifies this`rows
      ensures Valid()
      ensures r == if fails then Error
                   else if UniquePaths(Renamed(old(rows), f, now)) then Affected(|Tracked(old(rows), f)|) else Violation
      ensures rows == if r.Affected? then Renamed(old(rows), f, now) else old(rows)
    {
      if fails {
        return Error;
      }
      var renamed := Renamed(rows, f, now);
      if !UniquePaths(renamed) {
        return Violation;
      }
      var n := |Tracked(rows, f)|;
      rows := renamed;
      return Affected(n);
    }

    /** INSERT … ON CONFLICT(directory_id, file_path) DO UPDATE; fails for an unknown directory. */
    method UpsertByPath(f: File, now: int, fails: bool) returns (ok: bool)
      requires Valid()
      modifies this`rows, this`nextID
      ensures Valid()
      ensures ok <==> !fails && f.directoryID in directories
      ensures rows == if ok then Placed(old(rows), old(nextID), f, now) else old(rows)
    {
      if fails || f.directoryID !in directories {
        return false;
      }
      PlacedUnique(rows, nextID, f, now);
      var isNew := AtPath(rows, f) == {};
      rows := Placed(rows, nextID, f, now);
      if isNew {
        nextID := nextID + 1;
      }
      return true;
    }

    method DeleteDuplicates(f: File, fails: bool) returns (ok: bool)
      requires Valid()
      modifies this`rows
      ensures Valid()
      ensures ok <==> !fails || f.directoryID <= 0 || f.fileID == "" || f.path == ""
      ensures rows == if ok then old(rows) - Duplicates(old(rows), f) else old(rows)
    {
      if f.directoryID <= 0 || f.fileID == "" || f.path == "" {
        return true;
      }
      if fails {
        return false;
      }
      rows := rows - Duplicates(rows, f);
      return true;
    }

    /** Tracks the file: by its id if that works, else by its path. The flags tell which statements fail for reasons
        outside the table. */
    method UpsertFile(f: File, now: int, updateFails: bool, insertFails: bool, deleteFails: bool) returns (ok: bool)
      requires Valid()
      modifies this
      ensures Valid()
      ensures ok ==> rows == Upserted(old(rows), old(nextID), f, now)
      ensures !ok ==> rows == old(rows) || rows == Written(old(rows), old(nextID), f, now)
      ensures ok || updateFails || insertFails || deleteFails || f.directoryID !in directories
    {
      ghost var before := rows;
      if f.fileID != "" {
        var r := UpdateByFileID(f, now, updateFails);
        if r.Error? {
          return false;
        }
        if r.Affected? && r.rows > 0 {
          ok := DeleteDuplicates(f, deleteFails);
          return;
        }
        if r.Affected? {
          NothingRenamed(before, f, now);
        }
      }
      var inserted := UpsertByPath(f, now, insertFails);
      if !inserted {
        return false;
      }
      ok := DeleteDuplicates(f, deleteFails);
    }
  }

  lemma NothingRenamed(rows: map<int, Row>, f: File, now: int)
    requires |Tracked(rows, f)| == 0
    ensures Tracked(rows, f) == {} && Renamed(rows, f, now) == rows
  {}

  lemma PlacedUnique(rows: map<int, Row>, nextID: int, f: File, now: int)
    requires UniquePaths(rows) && nextID !in rows
    ensures UniquePaths(Placed(rows, nextID, f, now))
  {
    var placed := Placed(rows, nextID, f, now);
    if AtPath(rows, f) == {} {
      assert forall id :: id in rows ==> id !in AtPath(rows, f);
    } else {
      forall i, j | i in placed && j in placed && placed[i].directoryID == placed[j].directoryID
                    && placed[i].path == placed[j].path
        ensures i == j
      {
        assert rows[i].directoryID == rows[j].directoryID && rows[i].path == rows[j].path;
      }
    }
  }

  // ----- what a successful call means -----

  lemma SingleRow(s: set<int>, id: int)
    requires id in s && |s| == 1
    ensures s == {id}
  {
    assert |s - {id}| == 0;
  }

  lemma NotWithin(a: set<int>, b: set<int>)
    ensures a <= b <==> a - b == {}
  {
    if a - b == {} {
      forall x | x in a ensures x in b {
        assert x !in a - b;
      }
    }
  }

  /** One row holds a path at most. */
  lemma AtPathSingle(rows: map<int, Row>, f: File, id: int)
    requires UniquePaths(rows) && id in AtPath(rows, f)
    ensures AtPath(rows, f) == {id}
  {
    forall k | k in AtPath(rows, f) ensures k == id {
      assert rows[k].path == rows[id].path && rows[k].directoryID == rows[id].directoryID;
    }
  }

  /** The rename is refused exactly on a conflict. */
  lemma RenameRefusedOnConflict(rows: map<int, Row>, f: File, now: int)
    requires UniquePaths(rows) && f.fileID != "" && Tracked(rows, f) != {}
    ensures RenameWorks(rows, f, now) <==> !Conflict(rows, f)
  {
    var tracked, renamed := Tracked(rows, f), Renamed(rows, f, now);
    NonEmpty(tracked);
    var m :| m in tracked;
    if |tracked| > 1 {
      assert |tracked - {m}| == |tracked| - 1;
      NonEmpty(tracked - {m});
      var k :| k in tracked - {m};
      assert renamed[m] == renamed[k] && m != k;
    } else {
      SingleRow(tracked, m);
      if !(AtPath(rows, f) <= tracked) {
        NotWithin(AtPath(rows, f), tracked);
        NonEmpty(AtPath(rows, f) - tracked);
        var p :| p in AtPath(rows, f) - tracked;
        assert renamed[p].path == renamed[m].path && p != m;
      } else {
        forall i, j | i in renamed && j in renamed && renamed[i].directoryID == renamed[j].directoryID
                      && renamed[i].path == renamed[j].path
          ensures i == j
        {
          if i == m { assert j == m || j in AtPath(rows, f); }
          if j == m { assert i == m || i in AtPath(rows, f); }
        }
      }
    }
  }

  /** The row the file ends up on: the one tracked by its id, else the one at its path, else a new one. */
  ghost predicate IsHome(rows: map<int, Row>, nextID: int, f: File, now: int, home: int) {
    if RenameWorks(rows, f, now) then Tracked(rows, f) == {home}
    else if AtPath(rows, f) != {} then AtPath(rows, f) == {home}
    else home == nextID
  }

  lemma HomeExists(rows: map<int, Row>, nextID: int, f: File, now: int) returns (home: int)
    requires UniquePaths(rows)
    ensures IsHome(rows, nextID, f, now, home)
  {
    if RenameWorks(rows, f, now) {
      RenameRefusedOnConflict(rows, f, now);
      NonEmpty(Tracked(rows, f));
      home :| home in Tracked(rows, f);
      SingleRow(Tracked(rows, f), home);
    } else if AtPath(rows, f) != {} {
      NonEmpty(AtPath(rows, f));
      home :| home in AtPath(rows, f);
      AtPathSingle(rows, f, home);
    } else {
      home := nextID;
    }
  }

  /** Afterwards the file stands on its row with the new data, and every other row is an old one, unchanged. */
  lemma FileStored(rows: map<int, Row>, nextID: int, f: File, now: int, home: int)
    requires UniquePaths(rows) && nextID !in rows && IsHome(rows, nextID, f, now, home)
    ensures var after := Upserted(rows, nextID, f, now);
            && home in after
            && after[home].directoryID == f.directoryID && after[home].path == f.path && after[home].fileID == f.fileID
            && after[home].data.size == f.data.size && after[home].data.modTime == f.data.modTime
            && after[home].data.status == f.data.status && after[home].data.matchedHash == f.data.matchedHash
            && after[home].data.matchedIndexer == f.data.matchedIndexer && after[home].processedAt == now
            && AtPath(after, f) == {home}
            && (forall id :: id in after && id != home ==> id in rows && after[id] == rows[id])
  {
    var written := Written(rows, nextID, f, now);
    if RenameWorks(rows, f, now) {
      assert UniquePaths(written);
    } else {
      PlacedUnique(rows, nextID, f, now);
    }
    assert home in written && written[home] == RowOf(f, now);
    AtPathSingle(written, f, home);
    var after := Upserted(rows, nextID, f, now);
    assert forall id :: id in after ==> id in written && after[id] == written[id];
    forall id | id in AtPath(after, f) ensures id in AtPath(written, f) {}
  }

  /** Rows that share neither the id nor the path of the file stay as they are, and so do those of other directories. */
  lemma OthersUntouched(rows: map<int, Row>, nextID: int, f: File, now: int, id: int)
    requires UniquePaths(rows) && nextID !in rows && id in rows
    requires rows[id].directoryID != f.directoryID
             || (rows[id].path != f.path && (f.fileID == "" || rows[id].fileID != f.fileID))
    ensures var after := Upserted(rows, nextID, f, now); id in after && after[id] == rows[id]
  {}

  /** The file's id then stands on that row only, exactly unless the path is empty and the id could not be renamed
      to it: the deletion of duplicates leaves empty paths alone. */
  lemma OneRowPerFileID(rows: map<int, Row>, nextID: int, f: File, now: int, home: int)
    requires UniquePaths(rows) && nextID !in rows && IsHome(rows, nextID, f, now, home)
    requires f.fileID != "" && f.directoryID > 0
    ensures Tracked(Upserted(rows, nextID, f, now), f) == {home} <==> f.path != "" || !Conflict(rows, f)
  {
    var written := Written(rows, nextID, f, now);
    var after := Upserted(rows, nextID, f, now);
    FileStored(rows, nextID, f, now, home);
    if f.path != "" {
      forall id | id in Tracked(after, f) ensures id == home {
        assert after[id].path == f.path;
        assert id in AtPath(after, f);
      }
    } else if Tracked(rows, f) != {} {
      RenameRefusedOnConflict(rows, f, now);
      if Conflict(rows, f) {
        var other := TrackedElsewhere(rows, f, home);
        assert other in Tracked(after, f) && other != home;
      } else {
        forall id | id in Tracked(after, f) ensures id == home {
          assert id != home ==> id in Tracked(rows, f);
        }
      }
    } else {
      forall id | id in Tracked(after, f) ensures id == home {
        assert id != home ==> id in Tracked(rows, f);
      }
    }
  }

  /** On a conflict the id also stands on a row other than the one at the path. */
  lemma TrackedElsewhere(rows: map<int, Row>, f: File, home: int) returns (other: int)
    requires UniquePaths(rows) && Conflict(rows, f)
    requires AtPath(rows, f) != {} ==> AtPath(rows, f) == {home}
    requires AtPath(rows, f) == {} ==> home !in rows
    ensures other in Tracked(rows, f) && other != home
  {
    var tracked := Tracked(rows, f);
    NonEmpty(tracked);
    var m :| m in tracked;
    other := m;
    if m == home {
      assert |tracked - {m}| == |tracked| - 1;
      NonEmpty(tracked - {m});
      other :| other in tracked - {m};
    }
  }

  /** A rename to a free path keeps the row: same identity, new path and data, nothing else changed. */
  lemma RenameKeepsIdentity(rows: map<int, Row>, nextID: int, f: File, now: int, id: int)
    requires UniquePaths(rows) && f.fileID != "" && Tracked(rows, f) == {id} && AtPath(rows, f) <= {id}
    ensures Upserted(rows, nextID, f, now) == rows[id := RowOf(f, now)]
  {
    RenameRefusedOnConflict(rows, f, now);
    assert id in Tracked(rows, f);
    var renamed := Renamed(rows, f, now);
    assert renamed == rows[id := RowOf(f, now)];
    assert Duplicates(renamed, f) == {} by {
      forall k | k in Tracked(renamed, f) ensures k == id {
        assert k == id || k in Tracked(rows, f);
      }
    }
  }

  /** A table without repeated ids stays so, under the same condition. */
  lemma FileIDsStayUnique(rows: map<int, Row>, nextID: int, f: File, now: int)
    requires UniquePaths(rows) && UniqueFileIDs(rows) && nextID !in rows && f.directoryID > 0
    requires f.path != "" || f.fileID == "" || !Conflict(rows, f)
    ensures UniqueFileIDs(Upserted(rows, nextID, f, now))
  {
    var after := Upserted(rows, nextID, f, now);
    var home := HomeExists(rows, nextID, f, now);
    FileStored(rows, nextID, f, now, home);
    if f.fileID != "" {
      OneRowPerFileID(rows, nextID, f, now, home);
      forall i, j | i in after && j in after && after[i].directoryID == after[j].directoryID
        ensures after[i].fileID == after[j].fileID != "" ==> i == j
      {
        if after[i].fileID == f.fileID && after[i].directoryID == f.directoryID && after[j].fileID == f.fileID {
          assert i in Tracked(after, f) && j in Tracked(after, f);
        }
      }
    }
  }

  /** A path already tracked under the empty name, and a file tracked elsewhere that is moved there. */
  lemma EmptyPathKeepsDuplicate(data: FileData)
    ensures var f := File(1, "", "x", data);
            var rows := map[1 := Row(1, "a", "x", data, 0), 2 := Row(1, "", "y", data, 0)];
            UniquePaths(rows) && UniqueFileIDs(rows) && !UniqueFileIDs(Upserted(rows, 3, f, 1))
  {
    var f := File(1, "", "x", data);
    var rows := map[1 := Row(1, "a", "x", data, 0), 2 := Row(1, "", "y", data, 0)];
    assert 1 in Tracked(rows, f) && 2 in AtPath(rows, f) && 2 !in Tracked(rows, f);
    RenameRefusedOnConflict(rows, f, 1);
    var after := Upserted(rows, 3, f, 1);
    assert after[1].fileID == after[2].fileID == "x" && after[1].directoryID == after[2].directoryID;
  }

  /** Over any sequence of successful calls with real paths, no path and no file id is ever on two rows. */
  method TrackAll(store: DirScanStore, files: seq<File>, now: int)
    requires store.Valid() && UniqueFileIDs(store.rows)
    requires forall f :: f in files ==> f.path != "" && f.directoryID in store.directories
    modifies store
    ensures store.Valid() && UniqueFileIDs(store.rows)
  {
    hide Upserted, Written, UniqueFileIDs, UniquePaths;
    for i := 0 to |files|
      invariant store.Valid() && UniqueFileIDs(store.rows)
    {
      assert files[i] in files;
      FileIDsStayUnique(store.rows, store.nextID, files[i], now + i);
      var ok := store.UpsertFile(files[i], now + i, false, false, false);
    }
  }
}
