/** Backup items in the database (internal/models/backups.go): rows of string ids, read back through a join with the
    string pool. */
module BackupItems {
  import opened Text
  import opened Ordering
  import opened StringPool

  datatype BackupItem = BackupItem(
    hash: string, name: string, category: Option<string>, sizeBytes: int, archivePath: Option<string>,
    infoHashV1: Option<string>, infoHashV2: Option<string>, tags: Option<string>, blob: Option<string>)

  datatype Row = Row(
    runID: int, hash: nat, name: nat, category: Option<nat>, sizeBytes: int, archivePath: Option<nat>,
    infoHashV1: Option<nat>, infoHashV2: Option<nat>, tags: Option<nat>, blob: Option<nat>)

  // ----- what reading gives back -----

  /** Empty optional strings are stored as absent. */
  function NonEmpty(s: Option<string>): Option<string> {
    if s == Some("") then None else s
  }

  function Normal(item: BackupItem): BackupItem {
    item.(category := NonEmpty(item.category), archivePath := NonEmpty(item.archivePath),
          infoHashV1 := NonEmpty(item.infoHashV1), infoHashV2 := NonEmpty(item.infoHashV2),
          tags := NonEmpty(item.tags), blob := NonEmpty(item.blob))
  }

  /** An item reads back as given, but for optional strings that are empty, which are absent. */
  lemma NormalExactly(item: BackupItem)
    ensures var r := Normal(item);
            && r.hash == item.hash && r.name == item.name && r.sizeBytes == item.sizeBytes
            && (if item.category == Some("") then r.category == None else r.category == item.category)
            && (if item.archivePath == Some("") then r.archivePath == None else r.archivePath == item.archivePath)
            && (if item.infoHashV1 == Some("") then r.infoHashV1 == None else r.infoHashV1 == item.infoHashV1)
            && (if item.infoHashV2 == Some("") then r.infoHashV2 == None else r.infoHashV2 == item.infoHashV2)
            && (if item.tags == Some("") then r.tags == None else r.tags == item.tags)
            && (if item.blob == Some("") then r.blob == None else r.blob == item.blob)
  {}

  function NormalAll(items: seq<BackupItem>): seq<BackupItem> {
    seq(|items|, i requires 0 <= i < |items| => Normal(items[i]))
  }

  /** The pool read by id. */
  function ValuesOf(ids: map<string, nat>): map<nat, string>
    requires forall a, b :: a in ids && b in ids && ids[a] == ids[b] ==> a == b
  {
    map v | v in ids :: ids[v] := v
  }

  function TextOf(values: map<nat, string>, id: nat): string {
    if id in values then values[id] else ""
  }

  function OptionalText(values: map<nat, string>, id: Option<nat>): Option<string> {
    if id.Some? && id.value in values then Some(values[id.value]) else None
  }

  /** The view's LEFT JOIN of a row with the pool. */
  function Joined(row: Row, values: map<nat, string>): BackupItem {
    BackupItem(TextOf(values, row.hash), TextOf(values, row.name), OptionalText(values, row.category), row.sizeBytes,
               OptionalText(values, row.archivePath), OptionalText(values, row.infoHashV1),
               OptionalText(values, row.infoHashV2), OptionalText(values, row.tags), OptionalText(values, row.blob))
  }

  /** The items of a run, in row order. */
  function View(rows: seq<Row>, values: map<nat, string>, runID: int): seq<BackupItem> {
    if rows == [] then []
    else
      var front := View(rows[..|rows| - 1], values, runID);
      var last := rows[|rows| - 1];
      if last.runID == runID then front + [Joined(last, values)] else front
  }

  // ----- rows -----

  predicate KnownID(id: nat, values: map<nat, string>) {
    id in values
  }

  predicate KnownOptional(id: Option<nat>, values: map<nat, string>) {
    id.Some? ==> KnownID(id.value, values)
  }

  /** Every id of the row is in the pool. */
  predicate Resolved(row: Row, values: map<nat, string>) {
    && KnownID(row.hash, values) && KnownID(row.name, values) && KnownOptional(row.category, values)
    && KnownOptional(row.archivePath, values) && KnownOptional(row.infoHashV1, values)
    && KnownOptional(row.infoHashV2, values) && KnownOptional(row.tags, values) && KnownOptional(row.blob, values)
  }

  function IDFor(ids: map<string, nat>, s: string): nat {
    if s in ids then ids[s] else 0
  }

  /** The row written for an item. */
  function RowOf(runID: int, item: BackupItem, ids: map<string, nat>): Row {
    Row(runID, IDFor(ids, item.hash), IDFor(ids, item.name), LookupOptional(ids, item.category), item.sizeBytes,
        LookupOptional(ids, item.archivePath), LookupOptional(ids, item.infoHashV1),
        LookupOptional(ids, item.infoHashV2),
        LookupOptional(ids, item.tags), LookupOptional(ids, item.blob))
  }

  predicate Pooled(s: Option<string>, ids: map<string, nat>) {
    s.Some? && s.value != "" ==> s.value in ids
  }

  /** Every string of the item is in the pool. */
  predicate ItemPooled(item: BackupItem, ids: map<string, nat>) {
    && item.hash in ids && item.name in ids && Pooled(item.category, ids) && Pooled(item.archivePath, ids)
    && Pooled(item.infoHashV1, ids) && Pooled(item.infoHashV2, ids) && Pooled(item.tags, ids) && Pooled(item.blob, ids)
  }

  lemma OptionalRoundTrip(s: Option<string>, ids: map<string, nat>, sequence: nat)
    requires ValidIDs(ids, sequence) && Pooled(s, ids)
    ensures var values := ValuesOf(ids);
            KnownOptional(LookupOptional(ids, s), values) && OptionalText(values, LookupOptional(ids, s)) == NonEmpty(s)
  {}

  /** A written row reads back as its item. */
  lemma RowRoundTrip(runID: int, item: BackupItem, ids: map<string, nat>, sequence: nat)
    requires ValidIDs(ids, sequence) && ItemPooled(item, ids)
    ensures Resolved(RowOf(runID, item, ids), ValuesOf(ids))
    ensures Joined(RowOf(runID, item, ids), ValuesOf(ids)) == Normal(item)
  {
    hide OptionalText, LookupOptional, NonEmpty, KnownOptional;
    OptionalRoundTrip(item.category, ids, sequence);
    OptionalRoundTrip(item.archivePath, ids, sequence);
    OptionalRoundTrip(item.infoHashV1, ids, sequence);
    OptionalRoundTrip(item.infoHashV2, ids, sequence);
    OptionalRoundTrip(item.tags, ids, sequence);
    OptionalRoundTrip(item.blob, ids, sequence);
  }

  lemma OptionalStable(id: Option<nat>, values: map<nat, string>, more: map<nat, string>)
    requires KnownOptional(id, values) && forall n :: n in values ==> n in more && more[n] == values[n]
    ensures KnownOptional(id, more) && OptionalText(more, id) == OptionalText(values, id)
  {}

  lemma RowStable(row: Row, values: map<nat, string>, more: map<nat, string>)
    requires Resolved(row, values) && forall n :: n in values ==> n in more && more[n] == values[n]
    ensures Resolved(row, more) && Joined(row, more) == Joined(row, values)
  {
    hide KnownOptional, OptionalText;
    OptionalStable(row.category, values, more);
    OptionalStable(row.archivePath, values, more);
    OptionalStable(row.infoHashV1, values, more);
    OptionalStable(row.infoHashV2, values, more);
    OptionalStable(row.tags, values, more);
    OptionalStable(row.blob, values, more);
  }

  /** Strings pooled later do not change what stored rows read as. */
  lemma {:induction false} ViewStable(rows: seq<Row>, values: map<nat, string>, more: map<nat, string>, runID: int)
    requires forall row :: row in rows ==> Resolved(row, values)
    requires forall n :: n in values ==> n in more && more[n] == values[n]
    ensures View(rows, more, runID) == View(rows, values, runID)
    ensures forall row :: row in rows ==> Resolved(row, more)
  {
    hide Resolved, Joined;
    if rows != [] {
      assert rows[|rows| - 1] in rows;
      forall row | row in rows[..|rows| - 1] ensures row in rows {}
      ViewStable(rows[..|rows| - 1], values, more, runID);
      RowStable(rows[|rows| - 1], values, more);
      assert rows == rows[..|rows| - 1] + [rows[|rows| - 1]];
    }
  }

  lemma ValuesExtend(ids: map<string, nat>, after: map<string, nat>, sequence: nat, sequenceAfter: nat)
    requires ValidIDs(ids, sequence) && ValidIDs(after, sequenceAfter) && Extends(ids, after)
    ensures var values, more := ValuesOf(ids), ValuesOf(after);
            forall n :: n in values ==> n in more && more[n] == values[n]
  {}

  /** One more row: seen by its run only. */
  lemma ViewSnoc(rows: seq<Row>, row: Row, values: map<nat, string>, runID: int)
    ensures View(rows + [row], values, runID)
         == View(rows, values, runID) + if row.runID == runID then [Joined(row, values)] else []
  {
    assert (rows + [row])[..|rows|] == rows;
  }

  // ----- the store -----

  const ITEMS_PER_INSERT := 90

  function Required(items: seq<BackupItem>): set<string> {
    (set it | it in items :: it.hash) + (set it | it in items :: it.name)
  }

  function OptionalStrings(item: BackupItem): set<string> {
    set s | s in [item.category, item.archivePath, item.infoHashV1, item.infoHashV2, item.tags, item.blob]
            && s.Some? && s.value != "" :: s.value
  }

  function Optionals(items: seq<BackupItem>): set<string> {
    set it, s | it in items && s in OptionalStrings(it) :: s
  }

  /** The items have the strings the table demands. */
  predicate Complete(items: seq<BackupItem>) {
    forall it :: it in items ==> it.hash != "" && it.name != ""
  }

  class ItemStore {
    const pool: Pool
    var rows: seq<Row>

    constructor (pool: Pool)
      requires pool.Valid()
      ensures this.pool == pool && rows == [] && Valid()
    {
      this.pool := pool;
      rows := [];
    }

    ghost predicate Valid()
      reads this, pool
    {
      pool.Valid() && forall row :: row in rows ==> Resolved(row, ValuesOf(pool.ids))
    }

    ghost function Items(runID: int): seq<BackupItem>
      requires pool.Valid()
      reads this, pool
    {
      View(rows, ValuesOf(pool.ids), runID)
    }

    /** Pools every string of the items, in one batch for the required and one for the optional ones. */
    method InternItemStrings(items: seq<BackupItem>) returns (stringToID: Option<map<string, nat>>)
      requires Valid()
      modifies pool
      ensures Valid()
      ensures stringToID.Some? <==> Complete(items)
      ensures stringToID.None? ==> pool.ids == old(pool.ids) && pool.sequence == old(pool.sequence)
      ensures stringToID.Some? ==>
                && Interned(old(pool.ids), old(pool.sequence), pool.ids, pool.sequence,
                            Required(items) + Optionals(items))
                && (forall it :: it in items ==> ItemPooled(it, stringToID.value))
                && Extends(stringToID.value, pool.ids)
    {
      hide Resolved, ValidIDs, Interned, Required, Optionals, Complete, ItemPooled, NoDuplicates, Distinct, Extends,
           ValuesOf;
      ghost var before, drawn := pool.ids, pool.sequence;
      var required := CollectRequired(items);
      var optional := CollectOptionals(items);
      var requiredIDs := InternSet(pool, required);
      CompleteRequired(items);
      if requiredIDs.None? {
        return None;
      }
      ghost var middle, drawnMiddle := pool.ids, pool.sequence;
      var known := requiredIDs.value;
      OptionalsNonEmpty(items);
      if optional != {} {
        var optionalIDs := InternSet(pool, optional);
        InternedExtends(middle, drawnMiddle, pool.ids, pool.sequence, optional);
        MergeExtends(known, optionalIDs.value, middle, pool.ids);
        known := known + optionalIDs.value;
      } else {
        NothingInterned(pool.ids, pool.sequence, optional);
      }
      AllPooled(items, known);
      InternedTwice(before, drawn, middle, drawnMiddle, pool.ids, pool.sequence, Required(items), Optionals(items));
      InternedExtends(before, drawn, pool.ids, pool.sequence, Required(items) + Optionals(items));
      StillReads(rows, before, drawn, pool.ids, pool.sequence);
      return Some(known);
    }

    /** Stores the items of a run, or nothing at all if one lacks its hash or name. They read back as they were, with
        empty optional strings absent, and nothing else reads differently. */
    method InsertItems(runID: int, items: seq<BackupItem>) returns (ok: bool)
      requires Valid()
      modifies this, pool
      ensures Valid()
      ensures ok <==> Complete(items)
      ensures !ok ==> rows == old(rows) && pool.ids == old(pool.ids) && pool.sequence == old(pool.sequence)
      ensures ok ==>
              Interned(old(pool.ids), old(pool.sequence), pool.ids, pool.sequence, Required(items) + Optionals(items))
      ensures forall r :: Items(r) == old(Items(r)) + if ok && r == runID then NormalAll(items) else []
    {
      hide Resolved, Interned, Required, Optionals, ItemPooled, Extends, View, ValuesOf, RowsOf, NormalAll;
      if |items| == 0 {
        assert NormalAll(items) == [] by { NothingToRead(items); }
        NothingRequired(items);
        NothingInterned(pool.ids, pool.sequence, Required(items) + Optionals(items));
        return true;
      }
      ghost var before, ids, drawn := rows, pool.ids, pool.sequence;
      var stringToID := InternItemStrings(items);
      if stringToID.None? {
        return false;
      }
      InternedExtends(ids, drawn, pool.ids, pool.sequence, Required(items) + Optionals(items));
      StillReads(before, ids, drawn, pool.ids, pool.sequence);
      var i := 0;
      assert rows + RowsOf(runID, items[..0], stringToID.value) == rows by {
        NoRows(runID, items[..0], stringToID.value);
      }
      while i < |items|
        invariant 0 <= i <= |items|
        invariant rows == before + RowsOf(runID, items[..i], stringToID.value)
        modifies this`rows
      {
        var end := if i + ITEMS_PER_INSERT < |items| then i + ITEMS_PER_INSERT else |items|;
        var chunk := items[i..end];
        var added := RowsOfChunk(runID, chunk, stringToID.value);
        assert items[..end] == items[..i] + chunk;
        RowsConcat(runID, items[..i], chunk, stringToID.value);
        rows := rows + added;
        i := end;
      }
      assert items[..|items|] == items;
      InsertedResolved(before, runID, items, stringToID.value, pool.ids, pool.sequence);
      forall r ensures View(rows, ValuesOf(pool.ids), r)
                    == View(before, ValuesOf(pool.ids), r) + if r == runID then NormalAll(items) else []
      {
        InsertedView(before, runID, items, stringToID.value, pool.ids, pool.sequence, r);
      }
      return true;
    }

    /** The items of a run, ordered by name. */
    method ListItems(runID: int) returns (items: seq<BackupItem>)
      requires Valid()
      ensures multiset(items) == multiset(Items(runID))
      ensures forall i, j :: 0 <= i < j < |items| ==> Leq(Lower(items[i].name), Lower(items[j].name))
    {
      NameOrderIsTotal();
      SortedPermutation(ByName, View(rows, ValuesOf(pool.ids), runID));
      items := SortBy(ByName, View(rows, ValuesOf(pool.ids), runID));
      SortedNames(items);
    }
  }

  function RowsOf(runID: int, items: seq<BackupItem>, ids: map<string, nat>): seq<Row> {
    seq(|items|, i requires 0 <= i < |items| => RowOf(runID, items[i], ids))
  }

  /** The rows of one INSERT. */
  method RowsOfChunk(runID: int, chunk: seq<BackupItem>, ids: map<string, nat>) returns (rows: seq<Row>)
    requires |chunk| <= ITEMS_PER_INSERT
    ensures rows == RowsOf(runID, chunk, ids)
  {
    rows := [];
    for k := 0 to |chunk|
      invariant rows == RowsOf(runID, chunk[..k], ids)
    {
      rows := rows + [RowOf(runID, chunk[k], ids)];
    }
    assert chunk[..|chunk|] == chunk;
  }

  /** A part of the pool that has all of an item's strings is as good as the whole. */
  lemma PartSuffices(runID: int, item: BackupItem, known: map<string, nat>, ids: map<string, nat>)
    requires ItemPooled(item, known) && Extends(known, ids)
    ensures ItemPooled(item, ids) && RowOf(runID, item, known) == RowOf(runID, item, ids)
  {}

  lemma InsertedResolved(before: seq<Row>, runID: int, items: seq<BackupItem>, known: map<string, nat>,
                         ids: map<string, nat>, sequence: nat)
    requires ValidIDs(ids, sequence) && Extends(known, ids)
    requires forall it :: it in items ==> ItemPooled(it, known)
    requires forall row :: row in before ==> Resolved(row, ValuesOf(ids))
    ensures forall row :: row in before + RowsOf(runID, items, known) ==> Resolved(row, ValuesOf(ids))
  {
    hide Resolved, ItemPooled, Extends, RowOf;
    forall row | row in RowsOf(runID, items, known) ensures Resolved(row, ValuesOf(ids)) {
      var i :| 0 <= i < |items| && row == RowOf(runID, items[i], known);
      PartSuffices(runID, items[i], known, ids);
      RowRoundTrip(runID, items[i], ids, sequence);
    }
  }

  lemma NothingToRead(items: seq<BackupItem>)
    requires |items| == 0
    ensures NormalAll(items) == []
  {}

  lemma NoRows(runID: int, items: seq<BackupItem>, ids: map<string, nat>)
    requires |items| == 0
    ensures RowsOf(runID, items, ids) == []
  {}

  lemma RowsConcat(runID: int, a: seq<BackupItem>, b: seq<BackupItem>, ids: map<string, nat>)
    ensures RowsOf(runID, a + b, ids) == RowsOf(runID, a, ids) + RowsOf(runID, b, ids)
  {}

  lemma {:induction false} InsertedView(before: seq<Row>, runID: int, items: seq<BackupItem>, known: map<string, nat>,
                                        ids: map<string, nat>, sequence: nat, r: int)
    requires ValidIDs(ids, sequence) && Extends(known, ids)
    requires forall it :: it in items ==> ItemPooled(it, known)
    ensures View(before + RowsOf(runID, items, known), ValuesOf(ids), r)
         == View(before, ValuesOf(ids), r) + (if r == runID then NormalAll(items) else [])
    decreases |items|
  {
    hide Resolved, ItemPooled, Joined, Normal, Extends, ValuesOf, View;
    var values := ValuesOf(ids);
    if items == [] {
      assert before + RowsOf(runID, items, known) == before;
      assert View(before, values, r) + [] == View(before, values, r);
    } else {
      var front, last := items[..|items| - 1], items[|items| - 1];
      assert last in items && forall it :: it in front ==> it in items;
      InsertedView(before, runID, front, known, ids, sequence, r);
      PartSuffices(runID, last, known, ids);
      RowRoundTrip(runID, last, ids, sequence);
      var rows := before + RowsOf(runID, front, known);
      ViewSnoc(rows, RowOf(runID, last, known), values, r);
      assert before + RowsOf(runID, items, known) == rows + [RowOf(runID, last, known)];
      assert NormalAll(items) == NormalAll(front) + [Normal(last)];
      assert View(before, values, r) + NormalAll(front) + [Normal(last)] == View(before, values, r) + NormalAll(items);
    }
  }

  /** Strings pooled since do not change what the stored rows read as. */
  lemma StillReads(rows: seq<Row>, before: map<string, nat>, drawn: nat, after: map<string, nat>, drawnAfter: nat)
    requires ValidIDs(before, drawn) && ValidIDs(after, drawnAfter) && Extends(before, after)
    requires forall row :: row in rows ==> Resolved(row, ValuesOf(before))
    ensures forall row :: row in rows ==> Resolved(row, ValuesOf(after))
    ensures forall runID :: View(rows, ValuesOf(after), runID) == View(rows, ValuesOf(before), runID)
  {
    hide Resolved;
    ValuesExtend(before, after, drawn, drawnAfter);
    forall runID ensures View(rows, ValuesOf(after), runID) == View(rows, ValuesOf(before), runID) {
      ViewStable(rows, ValuesOf(before), ValuesOf(after), runID);
    }
    ViewStable(rows, ValuesOf(before), ValuesOf(after), 0);
  }

  /** The ids of a set of strings, in a map. */
  method InternSet(pool: Pool, wanted: set<string>) returns (r: Option<map<string, nat>>)
    requires pool.Valid()
    modifies pool
    ensures pool.Valid()
    ensures r.None? <==> "" in wanted
    ensures r.None? ==> pool.ids == old(pool.ids) && pool.sequence == old(pool.sequence)
    ensures r.Some? ==> Interned(old(pool.ids), old(pool.sequence), pool.ids, pool.sequence, wanted)
                        && r.value.Keys == wanted && Extends(r.value, pool.ids)
  {
    hide Interned, NoDuplicates, ValidIDs;
    var list := ListKeys(wanted);
    assert "" in list <==> "" in Distinct(list);
    var ids := pool.InternStrings(list);
    if ids.None? {
      return None;
    }
    var m := AddIDs(list, ids.value, pool.ids);
    return Some(m);
  }

  lemma MergeExtends(a: map<string, nat>, b: map<string, nat>, middle: map<string, nat>, ids: map<string, nat>)
    requires Extends(a, middle) && Extends(middle, ids) && Extends(b, ids)
    ensures Extends(a + b, ids)
  {}

  method CollectRequired(items: seq<BackupItem>) returns (required: set<string>)
    ensures required == Required(items)
  {
    hide Required;
    required := {};
    assert Required(items[..0]) == {} by { NothingRequired(items[..0]); }
    for i := 0 to |items|
      invariant required == Required(items[..i])
    {
      RequiredSnoc(items[..i], items[i]);
      assert items[..i + 1] == items[..i] + [items[i]];
      required := required + {items[i].hash, items[i].name};
    }
    assert items[..|items|] == items;
  }

  method CollectOptionals(items: seq<BackupItem>) returns (optional: set<string>)
    ensures optional == Optionals(items)
  {
    hide Optionals, OptionalStrings, Named;
    optional := {};
    assert Optionals(items[..0]) == {} by { NothingRequired(items[..0]); }
    for i := 0 to |items|
      invariant optional == Optionals(items[..i])
    {
      var it := items[i];
      OptionalsSnoc(items[..i], it);
      assert items[..i + 1] == items[..i] + [it];
      optional := optional + (Named(it.category) + Named(it.archivePath) + Named(it.infoHashV1) + Named(it.infoHashV2)
                              + Named(it.tags) + Named(it.blob));
    }
    assert items[..|items|] == items;
  }

  lemma NothingRequired(items: seq<BackupItem>)
    requires items == []
    ensures Required(items) == {} && Optionals(items) == {}
  {}

  function Named(s: Option<string>): set<string> {
    if s.Some? && s.value != "" then {s.value} else {}
  }

  lemma RequiredSnoc(items: seq<BackupItem>, it: BackupItem)
    ensures Required(items + [it]) == Required(items) + {it.hash, it.name}
  {
    assert it in items + [it];
    forall x | x in items ensures x in items + [it] {}
  }

  lemma OptionalsSnoc(items: seq<BackupItem>, it: BackupItem)
    ensures Optionals(items + [it]) == Optionals(items) + OptionalStrings(it)
    ensures OptionalStrings(it)
            == Named(it.category) + Named(it.archivePath) + Named(it.infoHashV1) + Named(it.infoHashV2)
                                   + Named(it.tags) + Named(it.blob)
  {
    assert it in items + [it];
    forall x | x in items ensures x in items + [it] {}
    var list := [it.category, it.archivePath, it.infoHashV1, it.infoHashV2, it.tags, it.blob];
    assert it.category in list && it.archivePath in list && it.infoHashV1 in list && it.infoHashV2 in list
           && it.tags in list && it.blob in list;
  }

  method AddIDs(list: seq<string>, ids: seq<nat>, ghost pool: map<string, nat>) returns (r: map<string, nat>)
    requires |ids| == |list| && forall i :: 0 <= i < |list| ==> list[i] in pool && ids[i] == pool[list[i]]
    ensures r.Keys == Distinct(list) && Extends(r, pool)
  {
    r := map[];
    for i := 0 to |list|
      invariant r.Keys == Distinct(list[..i]) && Extends(r, pool)
    {
      r := r[list[i] := ids[i]];
      assert list[..i + 1] == list[..i] + [list[i]];
    }
    assert list[..|list|] == list;
  }

  lemma CompleteRequired(items: seq<BackupItem>)
    ensures "" in Required(items) <==> !Complete(items)
  {
    if !Complete(items) {
      var it :| it in items && (it.hash == "" || it.name == "");
      assert it.hash in Required(items) && it.name in Required(items);
    }
  }

  lemma OptionalsNonEmpty(items: seq<BackupItem>)
    ensures "" !in Optionals(items)
  {}

  lemma AllPooled(items: seq<BackupItem>, known: map<string, nat>)
    requires known.Keys == Required(items) + Optionals(items)
    ensures forall it :: it in items ==> ItemPooled(it, known)
  {
    forall it | it in items ensures ItemPooled(it, known) {
      OptionalsSnoc([], it);
      forall s | s in OptionalStrings(it) ensures s in Optionals(items) {}
      assert it.hash in Required(items) && it.name in Required(items);
    }
  }

  lemma InternedExtends(before: map<string, nat>, drawn: nat, after: map<string, nat>, drawnAfter: nat,
                        wanted: set<string>)
    requires Interned(before, drawn, after, drawnAfter, wanted)
    ensures Extends(before, after) && after.Keys == before.Keys + wanted
  {}

  lemma InternedTwice(a: map<string, nat>, drawnA: nat, b: map<string, nat>, drawnB: nat, c: map<string, nat>,
                      drawnC: nat, first: set<string>, second: set<string>)
    requires Interned(a, drawnA, b, drawnB, first) && Interned(b, drawnB, c, drawnC, second)
    ensures Interned(a, drawnA, c, drawnC, first + second)
  {
    hide Extends;
    assert Extends(a, c) by { ExtendsTransitive(a, b, c); }
    CountTwice(a.Keys, first, second);
  }

  lemma ExtendsTransitive(a: map<string, nat>, b: map<string, nat>, c: map<string, nat>)
    requires Extends(a, b) && Extends(b, c)
    ensures Extends(a, c)
  {}

  lemma CountTwice(keys: set<string>, first: set<string>, second: set<string>)
    ensures |(first + second) - keys| == |first - keys| + |second - (keys + first)|
    ensures keys + (first + second) == keys + first + second
  {
    assert (first + second) - keys == (first - keys) + (second - (keys + first));
  }

  predicate ByName(a: BackupItem, b: BackupItem) {
    Leq(Lower(a.name), Lower(b.name))
  }

  lemma SortedNames(items: seq<BackupItem>)
    requires SortedBy(ByName, items)
    ensures forall i, j :: 0 <= i < j < |items| ==> Leq(Lower(items[i].name), Lower(items[j].name))
  {
    hide Leq, Lower;
    forall i, j | 0 <= i < j < |items| ensures Leq(Lower(items[i].name), Lower(items[j].name)) {
      assert ByName(items[i], items[j]);
    }
  }

  lemma NameOrderIsTotal()
    ensures TotalPreorder(ByName)
  {
    forall a: BackupItem, b: BackupItem ensures ByName(a, b) || ByName(b, a) {
      LeqTotal(Lower(a.name), Lower(b.name));
    }
    forall a: BackupItem, b: BackupItem, c: BackupItem | ByName(a, b) && ByName(b, c) ensures ByName(a, c) {
      LeqTransitive(Lower(a.name), Lower(b.name), Lower(c.name));
    }
  }
}
