/** The string pool (internal/dbinterface/string_pool.go): every stored string has one id, looked up and inserted in
    bounded batches. */
module StringPool {
  import opened Text
  import opened Ordering

  const MAX_PARAMS := 900

  function Distinct(s: seq<string>): set<string> {
    set v | v in s
  }

  /** The keys of a Go map in some order. */
  method ListKeys(keys: set<string>) returns (list: seq<string>)
    ensures NoDuplicates(list) && Distinct(list) == keys && |list| == |keys|
  {
    list := [];
    var left := keys;
    while left != {}
      invariant left <= keys && NoDuplicates(list) && Distinct(list) == keys - left
      invariant |list| + |left| == |keys|
    {
      var k :| k in left;
      assert k !in Distinct(list);
      assert Distinct(list + [k]) == Distinct(list) + {k};
      list, left := list + [k], left - {k};
    }
  }

  // ----- positions in a batch -----

  /** Under each non-empty value the positions where it stands. */
  ghost predicate Groups(values: seq<string>, upTo: nat, groups: map<string, seq<nat>>) {
    && (forall v :: v in groups ==> v != "" && forall i :: i in groups[v] ==> i < |values| && values[i] == v)
    && (forall i :: 0 <= i < upTo && i < |values| && values[i] != "" ==> values[i] in groups && i in groups[values[i]])
  }

  method NonEmptyPositions(values: seq<string>) returns (nonEmpty: seq<string>, positions: seq<nat>)
    ensures |nonEmpty| == |positions|
    ensures forall k :: 0 <= k < |positions| ==> positions[k] < |values| && nonEmpty[k] == values[positions[k]] != ""
    ensures forall i :: 0 <= i < |values| && values[i] != "" ==> i in positions
    ensures NoDuplicates(positions)
  {
    nonEmpty, positions := [], [];
    for i := 0 to |values|
      invariant |nonEmpty| == |positions|
      invariant forall k :: 0 <= k < |positions| ==> positions[k] < i && nonEmpty[k] == values[positions[k]] != ""
      invariant forall j :: 0 <= j < i && values[j] != "" ==> j in positions
      invariant NoDuplicates(positions)
    {
      if values[i] != "" {
        nonEmpty, positions := nonEmpty + [values[i]], positions + [i];
      }
    }
  }

  method GroupPositions(values: seq<string>) returns (groups: map<string, seq<nat>>)
    ensures Groups(values, |values|, groups)
  {
    var nonEmpty, positions := NonEmptyPositions(values);
    groups := map[];
    for k := 0 to |nonEmpty|
      invariant Groups(values, 0, groups)
      invariant forall j :: 0 <= j < k ==> nonEmpty[j] in groups && positions[j] in groups[nonEmpty[j]]
    {
      var v := nonEmpty[k];
      groups := groups[v := (if v in groups then groups[v] else []) + [positions[k]]];
    }
    forall i | 0 <= i < |values| && values[i] != "" ensures values[i] in groups && i in groups[values[i]] {
      var j :| 0 <= j < |positions| && positions[j] == i;
      assert nonEmpty[j] == values[i];
    }
  }

  // ----- the pool -----

  /** The answer for one value: the empty string never has an id. */
  function Lookup(ids: map<string, nat>, value: string): Option<nat> {
    if value != "" && value in ids then Some(ids[value]) else None
  }

  /** Distinct strings have distinct ids, none beyond the sequence. */
  ghost predicate ValidIDs(ids: map<string, nat>, sequence: nat) {
    && (forall a, b :: a in ids && b in ids && ids[a] == ids[b] ==> a == b)
    && (forall a :: a in ids ==> ids[a] <= sequence)
  }

  /** Strings keep the ids they have. */
  ghost predicate Extends(before: map<string, nat>, after: map<string, nat>) {
    forall v :: v in before ==> v in after && after[v] == before[v]
  }

  /** The answers at the positions of their values. */
  method Spread(values: seq<string>, groups: map<string, seq<nat>>, found: map<string, nat>)
    returns (results: seq<Option<nat>>)
    requires Groups(values, |values|, groups)
    ensures |results| == |values|
    ensures forall i :: 0 <= i < |values| ==>
              results[i] == if values[i] in groups && values[i] in found then Some(found[values[i]]) else None
  {
    results := seq(|values|, i => None);
    var left := groups.Keys;
    while left != {}
      invariant left <= groups.Keys && |results| == |values|
      invariant forall i :: 0 <= i < |values| ==>
                  results[i] == if values[i] in groups && values[i] !in left && values[i] in found
                                then Some(found[values[i]]) else None
    {
      var v :| v in left;
      left := left - {v};
      if v in found {
        ghost var before := results;
        for k := 0 to |groups[v]|
          invariant |results| == |values|
          invariant forall i :: 0 <= i < |values| ==>
                      results[i] == if i in groups[v][..k] then Some(found[v]) else before[i]
        {
          assert groups[v][k] in groups[v];
          results := results[groups[v][k] := Some(found[v])];
          assert groups[v][..k + 1] == groups[v][..k] + [groups[v][k]];
        }
        assert groups[v][..|groups[v]|] == groups[v];
      }
    }
  }

  /** Which values of a list have an id, and which are missing. */
  method SplitFound(list: seq<string>, answers: seq<Option<nat>>, ghost ids: map<string, nat>)
    returns (found: map<string, nat>, missing: seq<string>)
    requires |answers| == |list| && forall i :: 0 <= i < |list| ==> list[i] != "" && answers[i] == Lookup(ids, list[i])
    requires NoDuplicates(list)
    ensures forall v :: v in found <==> v in list && v in ids
    ensures forall v :: v in found ==> found[v] == ids[v]
    ensures forall v :: v in missing <==> v in list && v !in ids
    ensures NoDuplicates(missing) && Distinct(missing) == Distinct(list) - ids.Keys
  {
    found, missing := map[], [];
    for i := 0 to |list|
      invariant forall v :: v in found <==> v in list[..i] && v in ids
      invariant forall v :: v in found ==> found[v] == ids[v]
      invariant forall v :: v in missing <==> v in list[..i] && v !in ids
      invariant NoDuplicates(missing)
    {
      assert list[i] !in list[..i];
      assert list[..i + 1] == list[..i] + [list[i]];
      if answers[i].Some? {
        found := found[list[i] := answers[i].value];
      } else {
        missing := missing + [list[i]];
      }
    }
    assert list[..|list|] == list;
  }

  method AddFound(missing: seq<string>, inserted: seq<Option<nat>>, known: map<string, nat>,
                  ghost ids: map<string, nat>)
    returns (found: map<string, nat>)
    requires |inserted| == |missing|
    requires forall i :: 0 <= i < |missing| ==>
             missing[i] != "" && missing[i] in ids && inserted[i] == Lookup(ids, missing[i])
    requires forall v :: v in known ==> v in ids && known[v] == ids[v]
    ensures forall v :: v in found <==> v in known || v in missing
    ensures forall v :: v in found ==> v in ids && found[v] == ids[v]
  {
    found := known;
    for i := 0 to |missing|
      invariant forall v :: v in found <==> v in known || v in missing[..i]
      invariant forall v :: v in found ==> v in ids && found[v] == ids[v]
    {
      found := found[missing[i] := inserted[i].value];
      assert missing[..i + 1] == missing[..i] + [missing[i]];
    }
    assert missing[..|missing|] == missing;
  }

  lemma {:induction false} DistinctSize(s: seq<string>)
    requires NoDuplicates(s)
    ensures |Distinct(s)| == |s|
  {
    if s == [] {
      assert Distinct(s) == {};
    } else {
      DistinctSize(s[1..]);
      assert s == [s[0]] + s[1..];
      assert Distinct(s) == {s[0]} + Distinct(s[1..]);
      assert s[0] !in Distinct(s[1..]);
    }
  }

  /** Sorting keeps the missing values and their number. */
  lemma SortedMissing(missing: seq<string>)
    requires NoDuplicates(missing)
    ensures var sorted := SortStrings(missing);
            NoDuplicates(sorted) && Distinct(sorted) == Distinct(missing) && |sorted| == |Distinct(missing)|
  {
    var sorted := SortStrings(missing);
    SamePermutationDuplicates(sorted, missing);
    DistinctSize(sorted);
  }

  /** All that interning a set of strings does: what is pooled stays, what is missing is added, and exactly one sequence
      value is drawn for each missing string. */
  ghost predicate Interned(before: map<string, nat>, drawn: nat, after: map<string, nat>, drawnAfter: nat,
                           wanted: set<string>)
  {
    && Extends(before, after)
    && after.Keys == before.Keys + wanted
    && drawnAfter == drawn + |wanted - before.Keys|
  }

  lemma NothingInterned(ids: map<string, nat>, drawn: nat, wanted: set<string>)
    requires wanted <= ids.Keys
    ensures Interned(ids, drawn, ids, drawn, wanted)
  {
    assert wanted - ids.Keys == {};
  }

  lemma CoveredWanted(wanted: set<string>, keys: set<string>)
    requires wanted - keys == {}
    ensures wanted <= keys
  {
    forall v | v in wanted ensures v in keys {
      assert v !in wanted - keys;
    }
  }

  lemma NoneDistinct(s: seq<string>)
    requires |s| == 0
    ensures Distinct(s) == {}
  {}

  lemma MissingInterned(before: map<string, nat>, drawn: nat, after: map<string, nat>, wanted: set<string>,
                        missing: set<string>)
    requires missing == wanted - before.Keys && Extends(before, after) && after.Keys == before.Keys + missing
    ensures Interned(before, drawn, after, drawn + |missing|, wanted)
  {}

  class Pool {
    var ids: map<string, nat>
    /** The last value drawn from the id sequence: an insert draws one even if the string exists already. */
    var sequence: nat

    constructor ()
      ensures ids == map[] && sequence == 0 && Valid()
    {
      ids, sequence := map[], 0;
    }

    ghost predicate Valid()
      reads this
    {
      ValidIDs(ids, sequence)
    }

    /** One SELECT, which has `MAX_PARAMS` parameters at most. */
    method SelectChunk(chunk: seq<string>) returns (found: map<string, nat>)
      requires |chunk| <= MAX_PARAMS
      ensures found == map v | v in chunk && v in ids :: ids[v]
    {
      found := map v | v in chunk && v in ids :: ids[v];
    }

    /** The rows of the pool for the listed values, chunk by chunk. */
    method SelectIDs(list: seq<string>) returns (found: map<string, nat>)
      ensures forall v :: v in found <==> v in list && v in ids
      ensures forall v :: v in found ==> found[v] == ids[v]
    {
      found := map[];
      var i := 0;
      while i < |list|
        invariant 0 <= i <= |list|
        invariant forall v :: v in found <==> v in list[..i] && v in ids
        invariant forall v :: v in found ==> found[v] == ids[v]
      {
        var end := if i + MAX_PARAMS < |list| then i + MAX_PARAMS else |list|;
        var chunk := list[i..end];
        var rows := SelectChunk(chunk);
        found := found + rows;
        assert list[..end] == list[..i] + chunk;
        i := end;
      }
      assert list[..|list|] == list;
    }

    /** Looks up ids without creating any; each position gets the answer for its value. */
    method GetStringID(values: seq<string>) returns (results: seq<Option<nat>>)
      ensures |results| == |values|
      ensures forall i :: 0 <= i < |values| ==> results[i] == Lookup(ids, values[i])
    {
      if |values| == 0 {
        return [];
      }
      if |values| == 1 {
        if values[0] == "" || values[0] !in ids {
          return [None];
        }
        return [Some(ids[values[0]])];
      }
      results := seq(|values|, i => None);
      var groups := GroupPositions(values);
      if groups.Keys == {} {
        return;
      }
      var list := ListKeys(groups.Keys);
      var found := SelectIDs(list);
      forall v | v in groups ensures v in list {
        assert v in Distinct(list);
      }
      results := Spread(values, groups, found);
    }

    /** INSERT … ON CONFLICT DO NOTHING for one chunk. */
    method InsertChunk(chunk: seq<string>)
      requires Valid() && |chunk| <= MAX_PARAMS
      modifies this
      ensures Valid() && Extends(old(ids), ids) && ids.Keys == old(ids.Keys) + Distinct(chunk)
      ensures sequence == old(sequence) + |chunk|
    {
      for k := 0 to |chunk|
        invariant Valid() && Extends(old(ids), ids) && ids.Keys == old(ids.Keys) + Distinct(chunk[..k])
        invariant sequence == old(sequence) + k
      {
        sequence := sequence + 1;
        if chunk[k] !in ids {
          ids := ids[chunk[k] := sequence];
        }
        assert chunk[..k + 1] == chunk[..k] + [chunk[k]];
      }
      assert chunk[..|chunk|] == chunk;
    }

    method InsertMissing(missing: seq<string>)
      requires Valid()
      modifies this
      ensures Valid() && Extends(old(ids), ids) && ids.Keys == old(ids.Keys) + Distinct(missing)
      ensures sequence == old(sequence) + |missing|
    {
      var i := 0;
      assert missing[..0] == [];
      while i < |missing|
        invariant 0 <= i <= |missing|
        invariant Valid() && Extends(old(ids), ids) && ids.Keys == old(ids.Keys) + Distinct(missing[..i])
        invariant sequence == old(sequence) + i
      {
        var end := if i + MAX_PARAMS < |missing| then i + MAX_PARAMS else |missing|;
        assert missing[..end] == missing[..i] + missing[i..end];
        InsertChunk(missing[i..end]);
        i := end;
      }
      assert missing[..|missing|] == missing;
    }

    /** Inserts the missing values and reads their ids back. */
    method InsertAndFind(missing: seq<string>, known: map<string, nat>) returns (valueToID: map<string, nat>)
      requires Valid() && NoDuplicates(missing) && forall v :: v in missing ==> v != ""
      requires forall v :: v in known ==> v in ids && known[v] == ids[v]
      modifies this
      ensures Valid() && Extends(old(ids), ids) && ids.Keys == old(ids.Keys) + Distinct(missing)
      ensures sequence == old(sequence) + |Distinct(missing)|
      ensures forall v :: v in valueToID <==> v in known || v in missing
      ensures forall v :: v in valueToID ==> v in ids && valueToID[v] == ids[v]
    {
      hide NoDuplicates, ValidIDs, SortedBy;
      SortedMissing(missing);
      var sorted := SortStrings(missing);
      InsertMissing(sorted);
      var inserted := GetStringID(sorted);
      forall i | 0 <= i < |sorted| ensures sorted[i] != "" && sorted[i] in ids {
        assert sorted[i] in sorted && sorted[i] in Distinct(sorted);
      }
      valueToID := AddFound(sorted, inserted, known, ids);
    }

    /** The ids of distinct values, after inserting the missing ones. */
    method InternDistinct(list: seq<string>) returns (valueToID: map<string, nat>)
      requires Valid() && NoDuplicates(list) && forall i :: 0 <= i < |list| ==> list[i] != ""
      modifies this
      ensures Valid() && Interned(old(ids), old(sequence), ids, sequence, Distinct(list))
      ensures forall v :: v in list ==> v in valueToID && v in ids && valueToID[v] == ids[v]
    {
      hide NoDuplicates, ValidIDs, Interned, Distinct;
      var existing := GetStringID(list);
      var missing;
      valueToID, missing := SplitFound(list, existing, ids);
      if |missing| > 0 {
        valueToID := InsertAndFind(missing, valueToID);
        MissingInterned(old(ids), old(sequence), ids, Distinct(list), Distinct(missing));
      } else {
        assert Distinct(missing) == {} by { NoneDistinct(missing); }
        CoveredWanted(Distinct(list), ids.Keys);
        NothingInterned(ids, sequence, Distinct(list));
      }
    }

    /** The ids of the values, creating what is missing; the empty string is refused. */
    method InternStrings(values: seq<string>) returns (result: Option<seq<nat>>)
      requires Valid()
      modifies this
      ensures Valid()
      ensures result.None? <==> "" in values
      ensures result.None? ==> ids == old(ids) && sequence == old(sequence)
      ensures result.Some? ==> Interned(old(ids), old(sequence), ids, sequence, Distinct(values))
      ensures result.Some? ==> |result.value| == |values|
                               && forall i :: 0 <= i < |values| ==>
                                  values[i] in ids && result.value[i] == ids[values[i]]
    {
      hide NoDuplicates, ValidIDs, Interned;
      if |values| == 0 {
        NothingInterned(ids, sequence, Distinct(values));
        return Some([]);
      }
      for i := 0 to |values|
        invariant forall j :: 0 <= j < i ==> values[j] != ""
        invariant ids == old(ids) && sequence == old(sequence)
      {
        if values[i] == "" {
          return None;
        }
      }
      var list := ListKeys(set v | v in values);
      assert Distinct(list) == Distinct(values);
      forall i | 0 <= i < |list| ensures list[i] != "" {
        assert list[i] in Distinct(list);
      }
      var valueToID := InternDistinct(list);
      forall i | 0 <= i < |values| ensures values[i] in list {
        assert values[i] in Distinct(list);
      }
      return Some(seq(|values|, i requires 0 <= i < |values| => valueToID[values[i]]));
    }

    /** The ids of optional values: none for an absent or empty one. */
    method InternStringNullable(values: seq<Option<string>>) returns (results: seq<Option<nat>>)
      requires Valid()
      modifies this
      ensures Valid() && Interned(old(ids), old(sequence), ids, sequence, Present(values))
      ensures |results| == |values|
      ensures forall i :: 0 <= i < |values| ==> results[i] == LookupOptional(ids, values[i])
    {
      hide ValidIDs, Interned, NoDuplicates, Distinct, Present;
      if |values| == 1 {
        SinglePresent(values);
        if values[0].None? || values[0].value == "" {
          NothingInterned(ids, sequence, Present(values));
          return [None];
        }
        var single := InternStrings([values[0].value]);
        assert [values[0].value][0] in ids;
        return [Some(single.value[0])];
      }
      var nonEmpty, positions := PresentPositions(values);
      if |nonEmpty| == 0 {
        NoneDistinct(nonEmpty);
        NothingInterned(ids, sequence, Present(values));
        return seq(|values|, i => None);
      }
      var interned := InternStrings(nonEmpty);
      results := Place(values, nonEmpty, positions, interned.value, ids);
    }

    /** The empty string's own id, for the places where it is a value; drawn at most once. */
    method InternEmptyString() returns (id: nat)
      requires Valid()
      modifies this
      ensures Valid() && Interned(old(ids), old(sequence), ids, sequence, {""})
      ensures "" in ids && id == ids[""]
    {
      if "" in ids {
        NothingInterned(ids, sequence, {""});
        return ids[""];
      }
      assert {""} - ids.Keys == {""};
      InsertChunk([""]);
      return ids[""];
    }
  }

  function LookupOptional(ids: map<string, nat>, value: Option<string>): Option<nat> {
    if value.None? then None else Lookup(ids, value.value)
  }

  /** Interning the same strings again draws nothing and changes nothing. */
  lemma InternedOnce(before: map<string, nat>, drawn: nat, ids: map<string, nat>, sequence: nat,
                     after: map<string, nat>, drawnAfter: nat, wanted: set<string>)
    requires Interned(before, drawn, ids, sequence, wanted) && Interned(ids, sequence, after, drawnAfter, wanted)
    ensures after == ids && drawnAfter == sequence
  {
    assert wanted - ids.Keys == {};
  }

  function Present(values: seq<Option<string>>): set<string> {
    set v | v in values && v.Some? && v.value != "" :: v.value
  }

  lemma SinglePresent(values: seq<Option<string>>)
    requires |values| == 1
    ensures Present(values) == if values[0].None? || values[0].value == "" then {} else Distinct([values[0].value])
  {
    assert values == [values[0]];
  }

  method PresentPositions(values: seq<Option<string>>) returns (nonEmpty: seq<string>, positions: seq<nat>)
    ensures |nonEmpty| == |positions| && NoDuplicates(positions)
    ensures forall k :: 0 <= k < |positions| ==>
            positions[k] < |values| && values[positions[k]] == Some(nonEmpty[k]) && nonEmpty[k] != ""
    ensures forall i :: 0 <= i < |values| && values[i].Some? && values[i].value != "" ==> i in positions
    ensures Distinct(nonEmpty) == Present(values)
  {
    nonEmpty, positions := [], [];
    for i := 0 to |values|
      invariant |nonEmpty| == |positions| && NoDuplicates(positions)
      invariant forall k :: 0 <= k < |positions| ==>
                positions[k] < i && values[positions[k]] == Some(nonEmpty[k]) && nonEmpty[k] != ""
      invariant forall j :: 0 <= j < i && values[j].Some? && values[j].value != "" ==> j in positions
      invariant forall v :: v in nonEmpty <==> Some(v) in values[..i] && v != ""
    {
      assert values[..i + 1] == values[..i] + [values[i]];
      if values[i].Some? && values[i].value != "" {
        nonEmpty, positions := nonEmpty + [values[i].value], positions + [i];
      }
    }
    assert values[..|values|] == values;
    forall v | v in Present(values) ensures v in Distinct(nonEmpty) {
      assert Some(v) in values;
    }
  }

  /** The ids back at the positions of their values. */
  method Place(values: seq<Option<string>>, nonEmpty: seq<string>, positions: seq<nat>, interned: seq<nat>,
               ghost ids: map<string, nat>) returns (results: seq<Option<nat>>)
    requires |nonEmpty| == |positions| == |interned| && NoDuplicates(positions)
    requires forall k :: 0 <= k < |positions| ==>
             positions[k] < |values| && values[positions[k]] == Some(nonEmpty[k]) && nonEmpty[k] != ""
    requires forall i :: 0 <= i < |values| && values[i].Some? && values[i].value != "" ==> i in positions
    requires forall k :: 0 <= k < |nonEmpty| ==> nonEmpty[k] in ids && interned[k] == ids[nonEmpty[k]]
    ensures |results| == |values|
    ensures forall i :: 0 <= i < |values| ==>
              results[i] == LookupOptional(ids, values[i])
  {
    results := seq(|values|, i => None);
    for k := 0 to |positions|
      invariant |results| == |values|
      invariant forall i :: 0 <= i < |values| ==>
                  results[i] == if i in positions[..k] then Lookup(ids, values[i].value) else None
    {
      results := results[positions[k] := Some(interned[k])];
      assert positions[..k + 1] == positions[..k] + [positions[k]];
    }
    assert positions[..|positions|] == positions;
  }
}
