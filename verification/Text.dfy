/** String helpers the repository takes from Go's `strings`, `strconv` and `sort` packages:
    trimming, lower-casing, decimal numerals, comma lists and the bytewise order. */
module Text {

  datatype Option<+T> = None | Some(value: T)

  lemma Associate(a: string, b: string, c: string)
    ensures a + (b + c) == a + b + c
  {}

  lemma HeadAndTail(d: string, s: string)
    requires d != []
    ensures [d[0]] + (d[1..] + s) == d + s
  {}

  lemma Rejoin(s: string, n: nat)
    requires n <= |s|
    ensures s == s[..n] + s[n..]
  {}

  // ----- trimming and normalization -----

  predicate IsSpace(c: char) {
    || '\t' <= c <= '\r' || c == ' ' || c == '\U{0085}' || c == '\U{00A0}' || c == '\U{1680}'
    || '\U{2000}' <= c <= '\U{200A}' || c == '\U{2028}' || c == '\U{2029}' || c == '\U{202F}'
    || c == '\U{205F}' || c == '\U{3000}'
  }

  function TrimLeft(s: string): (r: string) {
    if s != [] && IsSpace(s[0]) then TrimLeft(s[1..]) else s
  }

  function TrimRight(s: string): (r: string) {
    if s != [] && IsSpace(s[|s| - 1]) then TrimRight(s[..|s| - 1]) else s
  }

  /** `strings.TrimSpace`. */
  function Trim(s: string): (r: string) {
    TrimRight(TrimLeft(s))
  }

  predicate Trimmed(s: string) {
    s == [] || (!IsSpace(s[0]) && !IsSpace(s[|s| - 1]))
  }

  lemma {:induction false} TrimLeftResult(s: string)
    ensures var r := TrimLeft(s); r != [] ==> !IsSpace(r[0])
    decreases |s|
  {
    if s != [] && IsSpace(s[0]) {
      TrimLeftResult(s[1..]);
    }
  }

  lemma {:induction false} TrimRightResult(s: string)
    requires s != [] ==> !IsSpace(s[0])
    ensures Trimmed(TrimRight(s))
    decreases |s|
  {
    if s != [] && IsSpace(s[|s| - 1]) {
      TrimRightResult(s[..|s| - 1]);
    }
  }

  lemma TrimResult(s: string)
    ensures Trimmed(Trim(s))
  {
    TrimLeftResult(s);
    TrimRightResult(TrimLeft(s));
  }

  /** Trimming takes white space off both ends and nothing else. */
  lemma TrimExactly(s: string) returns (left: string, right: string)
    ensures s == left + Trim(s) + right && Trimmed(Trim(s))
    ensures forall c :: c in left || c in right ==> IsSpace(c)
  {
    TrimResult(s);
    left := TrimLeftPart(s);
    right := TrimRightPart(TrimLeft(s));
    Associate(left, Trim(s), right);
  }

  lemma {:induction false} TrimLeftPart(s: string) returns (left: string)
    ensures s == left + TrimLeft(s) && forall c :: c in left ==> IsSpace(c)
  {
    left := [];
    if s != [] && IsSpace(s[0]) {
      var rest := TrimLeftPart(s[1..]);
      left := [s[0]] + rest;
      assert s == [s[0]] + s[1..];
    }
  }

  lemma {:induction false} TrimRightPart(s: string) returns (right: string)
    ensures s == TrimRight(s) + right && forall c :: c in right ==> IsSpace(c)
  {
    right := [];
    if s != [] && IsSpace(s[|s| - 1]) {
      var rest := TrimRightPart(s[..|s| - 1]);
      right := rest + [s[|s| - 1]];
      assert s == s[..|s| - 1] + [s[|s| - 1]];
    }
  }

  /** Which ASCII characters are white space, and what lower-casing makes of each character. */
  lemma SpacesAndCases(s: string, i: nat)
    requires i < |s|
    ensures s[i] as int < 128 ==> (IsSpace(s[i]) <==> s[i] in ['\t', '\n', '\U{000B}', '\U{000C}', '\r', ' '])
    ensures |Lower(s)| == |s|
    ensures Lower(s)[i] == if 'A' <= s[i] <= 'Z' then (s[i] as int + 32) as char else s[i]
  {}

  lemma TrimFixed(s: string)
    requires Trimmed(s)
    ensures Trim(s) == s
  {}

  function LowerChar(c: char): char {
    if 'A' <= c <= 'Z' then 'a' + (c - 'A') else c
  }

  function Lower(s: string): (r: string) {
    seq(|s|, i requires 0 <= i < |s| => LowerChar(s[i]))
  }

  /** `normalizeLowerTrim`: the key under which a torrent hash is stored. */
  function Normalize(s: string): (r: string) {
    Lower(Trim(s))
  }

  lemma NormalizeIdempotent(s: string)
    ensures Trimmed(Normalize(s)) && Normalize(Normalize(s)) == Normalize(s)
  {
    TrimResult(s);
    TrimFixed(Normalize(s));
  }

  // ----- decimal numerals -----

  function DigitChar(d: nat): char
    requires d < 10
  {
    '0' + d as char
  }

  predicate IsDigit(c: char) {
    '0' <= c <= '9'
  }

  /** `strconv.Itoa` on a count. */
  function Itoa(n: nat): (s: string)
    ensures s != [] && forall i :: 0 <= i < |s| ==> IsDigit(s[i])
  {
    if n < 10 then [DigitChar(n)] else Itoa(n / 10) + [DigitChar(n % 10)]
  }

  function DigitValue(c: char): nat
    requires IsDigit(c)
  {
    c as int - '0' as int
  }

  function Atoi(s: string): nat
    requires forall i :: 0 <= i < |s| ==> IsDigit(s[i])
  {
    if s == [] then 0 else 10 * Atoi(s[..|s| - 1]) + DigitValue(s[|s| - 1])
  }

  lemma {:induction false} AtoiItoa(n: nat)
    ensures Atoi(Itoa(n)) == n
  {
    if n >= 10 {
      AtoiItoa(n / 10);
      assert Itoa(n)[..|Itoa(n)| - 1] == Itoa(n / 10);
    } else {
      assert Itoa(n)[..0] == [];
    }
  }

  /** The numerals are the usual ones. */
  lemma Numerals(n: nat, d: nat)
    requires d < 10
    ensures Itoa(d) == ["0123456789"[d]]
    ensures n > 0 ==> Itoa(10 * n + d) == Itoa(n) + Itoa(d)
  {
    assert (10 * n + d) / 10 == n && (10 * n + d) % 10 == d;
    assert "0123456789"[d] == '0' + d as char;
  }

  lemma ItoaInjective(m: nat, n: nat)
    requires Itoa(m) == Itoa(n)
    ensures m == n
  {
    AtoiItoa(m);
    AtoiItoa(n);
  }

  // ----- comma lists -----

  /** `strings.Join(items, ",")`. */
  function JoinComma(items: seq<string>): string {
    if |items| == 0 then ""
    else if |items| == 1 then items[0]
    else items[0] + "," + JoinComma(items[1..])
  }

  /** `strings.Split(s, ",")`. */
  function SplitComma(s: string): (r: seq<string>)
    ensures r != []
  {
    if s == [] then [""]
    else
      var rest := SplitComma(s[1..]);
      if s[0] == ',' then [""] + rest else [[s[0]] + rest[0]] + rest[1..]
  }

  function DropBlank(parts: seq<string>): seq<string> {
    if parts == [] then []
    else if Trim(parts[0]) == "" then DropBlank(parts[1..])
    else [Trim(parts[0])] + DropBlank(parts[1..])
  }

  /** Split at commas, trim the pieces and drop the blank ones. */
  function SplitList(s: string): seq<string> {
    DropBlank(SplitComma(s))
  }

  /** An entry that survives being joined and split again. */
  predicate CleanEntry(s: string) {
    s != "" && Trimmed(s) && ',' !in s
  }

  lemma {:induction false} PartsHaveNoComma(s: string)
    ensures forall i :: 0 <= i < |SplitComma(s)| ==> ',' !in SplitComma(s)[i]
  {
    if s != [] {
      PartsHaveNoComma(s[1..]);
    }
  }

  lemma {:induction false} TrimLeftContents(s: string)
    ensures forall c :: c in TrimLeft(s) ==> c in s
  {
    if s != [] && IsSpace(s[0]) {
      TrimLeftContents(s[1..]);
    }
  }

  lemma {:induction false} TrimRightContents(s: string)
    ensures forall c :: c in TrimRight(s) ==> c in s
  {
    if s != [] && IsSpace(s[|s| - 1]) {
      TrimRightContents(s[..|s| - 1]);
    }
  }

  lemma {:induction false} DropBlankIsClean(parts: seq<string>)
    requires forall i :: 0 <= i < |parts| ==> ',' !in parts[i]
    ensures forall t :: t in DropBlank(parts) ==> CleanEntry(t)
  {
    if parts != [] {
      TrimResult(parts[0]);
      TrimLeftContents(parts[0]);
      TrimRightContents(TrimLeft(parts[0]));
      hide Trim;
      DropBlankIsClean(parts[1..]);
    }
  }

  /** Whatever is split, the pieces survive being joined and split again. */
  lemma SplitIsClean(s: string)
    ensures forall t :: t in SplitList(s) ==> CleanEntry(t)
  {
    PartsHaveNoComma(s);
    DropBlankIsClean(SplitComma(s));
  }

  lemma {:induction false} SplitPlain(s: string)
    requires ',' !in s
    ensures SplitComma(s) == [s]
    decreases |s|
  {
    if s != [] {
      SplitPlain(s[1..]);
      assert [s[0]] + s[1..] == s;
    }
  }

  lemma {:induction false} SplitAtComma(head: string, tail: string)
    requires ',' !in head
    ensures SplitComma(head + "," + tail) == [head] + SplitComma(tail)
    decreases |head|
  {
    var all := head + "," + tail;
    if head == [] {
      assert all[1..] == tail;
    } else {
      SplitAtComma(head[1..], tail);
      assert all[1..] == head[1..] + "," + tail;
      assert [head[0]] + head[1..] == head;
    }
  }

  /** Tags written to the instance as one comma list read back as the same tags. */
  lemma {:induction false} SplitJoined(items: seq<string>)
    requires forall i :: 0 <= i < |items| ==> CleanEntry(items[i])
    ensures SplitList(JoinComma(items)) == items
  {
    if |items| == 0 {
    } else {
      TrimFixed(items[0]);
      SplitPlain(items[0]);
      if |items| == 1 {
        assert DropBlank([items[0]][1..]) == [];
      } else {
        SplitJoined(items[1..]);
        SplitAtComma(items[0], JoinComma(items[1..]));
        assert ([items[0]] + SplitComma(JoinComma(items[1..])))[1..] == SplitComma(JoinComma(items[1..]));
      }
    }
  }

  // ----- the order of sort.Strings -----

  predicate Leq(a: string, b: string) {
    a == [] || (b != [] && (a[0] < b[0] || (a[0] == b[0] && Leq(a[1..], b[1..]))))
  }

  predicate Less(a: string, b: string) {
    Leq(a, b) && a != b
  }

  /** The order of Go's strings: by the first byte that differs, a proper prefix first. */
  lemma {:induction false} LeqIsByFirstDifference(a: string, b: string)
    ensures Leq(a, b) <==> a <= b || exists i :: 0 <= i < |a| && i < |b| && a[..i] == b[..i] && a[i] < b[i]
  {
    if a != [] && b != [] {
      if a[0] == b[0] {
        SameHeadOrder(a, b);
        LeqIsByFirstDifference(a[1..], b[1..]);
      } else {
        assert a[..0] == b[..0];
      }
    }
  }

  lemma SameHeadOrder(a: string, b: string)
    requires a != [] && b != [] && a[0] == b[0]
    ensures a <= b <==> a[1..] <= b[1..]
    ensures (exists i :: 0 <= i < |a| && i < |b| && a[..i] == b[..i] && a[i] < b[i])
       <==> (exists i :: 0 <= i < |a[1..]| && i < |b[1..]| && a[1..][..i] == b[1..][..i] && a[1..][i] < b[1..][i])
  {
    forall i | 0 < i < |a| && i < |b| ensures a[..i] == b[..i] <==> a[1..][..i - 1] == b[1..][..i - 1] {
      assert a[..i] == [a[0]] + a[1..][..i - 1] && b[..i] == [b[0]] + b[1..][..i - 1];
    }
    if i :| 0 <= i < |a| && i < |b| && a[..i] == b[..i] && a[i] < b[i] {
      assert a[1..][..i - 1] == b[1..][..i - 1] && a[1..][i - 1] < b[1..][i - 1];
    }
    if i :| 0 <= i < |a[1..]| && i < |b[1..]| && a[1..][..i] == b[1..][..i] && a[1..][i] < b[1..][i] {
      assert a[..i + 1] == b[..i + 1] && a[i + 1] < b[i + 1];
    }
    assert a == [a[0]] + a[1..] && b == [b[0]] + b[1..];
  }

  lemma {:induction false} LeqTotal(a: string, b: string)
    ensures Leq(a, b) || Leq(b, a)
  {
    if a != [] && b != [] && a[0] == b[0] {
      LeqTotal(a[1..], b[1..]);
    }
  }

  lemma {:induction false} LeqAntisymmetric(a: string, b: string)
    requires Leq(a, b) && Leq(b, a)
    ensures a == b
  {
    if a != [] && b != [] {
      LeqAntisymmetric(a[1..], b[1..]);
      assert a == [a[0]] + a[1..] && b == [b[0]] + b[1..];
    }
  }

  lemma {:induction false} LeqTransitive(a: string, b: string, c: string)
    requires Leq(a, b) && Leq(b, c)
    ensures Leq(a, c)
  {
    if a != [] && b != [] && c != [] && a[0] == b[0] == c[0] {
      LeqTransitive(a[1..], b[1..], c[1..]);
    }
  }
}
