/** What placeholder rewriting preserves, and when it may be applied twice. */
module PlaceholderMeaning {
  import opened Text
  import opened Dialect

  /** A query read as fixed bytes and references to arguments, numbered from 1. */
  datatype Piece = Ch(c: char) | Arg(k: nat)

  function Chars(s: string): (p: seq<Piece>)
    ensures |p| == |s| && forall i :: 0 <= i < |s| ==> p[i] == Ch(s[i])
  {
    seq(|s|, i requires 0 <= i < |s| => Ch(s[i]))
  }

  /** The SQLite reading: the i-th top-level `?` is argument i. */
  function ReadPositional(q: string, r: Region, k: nat): seq<Piece>
    requires ValidRegion(r)
    decreases |q|
  {
    if q == [] then []
    else
      var t := Next(q, r);
      if t.hole then [Arg(k + 1)] + ReadPositional(q[1..], Code, k + 1)
      else Chars(q[..t.len]) + ReadPositional(q[t.len..], t.next, k)
  }

  function DigitRun(s: string): (n: nat)
    ensures n <= |s| && (forall i :: 0 <= i < n ==> IsDigit(s[i])) && (n < |s| ==> !IsDigit(s[n]))
  {
    if s != [] && IsDigit(s[0]) then 1 + DigitRun(s[1..]) else 0
  }

  /** A `$` in code that opens no dollar quote. */
  predicate LoneDollar(q: string, r: Region)
    requires q != []
  {
    r == Code && q[0] == '$' && DollarTag(q) == ""
  }

  /** The PostgreSQL reading: a `$` and digits in code is the argument of that number. */
  function ReadNumbered(q: string, r: Region): seq<Piece>
    requires ValidRegion(r)
    decreases |q|
  {
    if q == [] then []
    else
      var n := if LoneDollar(q, r) then DigitRun(q[1..]) else 0;
      if n > 0 then [Arg(Atoi(q[1..][..n]))] + ReadNumbered(q[1..][n..], Code)
      else
        var t := Next(q, r);
        Chars(q[..t.len]) + ReadNumbered(q[t.len..], t.next)
  }

  /** A reading written down with `?` or with numbered references. */
  function Spell(p: seq<Piece>, numbered: bool): string {
    if p == [] then [] else SpellPiece(p[0], numbered) + Spell(p[1..], numbered)
  }

  function SpellPiece(piece: Piece, numbered: bool): string {
    match piece
    case Ch(c) => [c]
    case Arg(k) => if numbered then ['$'] + Itoa(k) else ['?']
  }

  function ArgsOf(p: seq<Piece>): seq<nat> {
    if p == [] then []
    else if p[0].Arg? then [p[0].k] + ArgsOf(p[1..])
    else ArgsOf(p[1..])
  }

  lemma {:induction false} SpellChars(s: string, p: seq<Piece>, numbered: bool)
    ensures Spell(Chars(s) + p, numbered) == s + Spell(p, numbered)
    decreases |s|
  {
    if s == [] {
      assert Chars(s) + p == p;
    } else {
      var all := Chars(s) + p;
      SpellChars(s[1..], p, numbered);
      assert all[0] == Ch(s[0]) && all[1..] == Chars(s[1..]) + p;
      HeadAndTail(s, Spell(p, numbered));
    }
  }

  lemma {:induction false} ArgsOfChars(s: string, p: seq<Piece>)
    ensures ArgsOf(Chars(s) + p) == ArgsOf(p)
  {
    if s == [] {
      assert Chars(s) + p == p;
    } else {
      ArgsOfChars(s[1..], p);
      assert (Chars(s) + p)[1..] == Chars(s[1..]) + p;
    }
  }

  /** Rewriting changes the placeholders and nothing else: query and result are two spellings of one
      reading. */
  lemma {:induction false} RebindSpelling(q: string, r: Region, k: nat)
    requires ValidRegion(r)
    ensures var p := ReadPositional(q, r, k);
            Spell(p, false) == q && Spell(p, true) == RebindFrom(q, r, k)
    decreases |q|
  {
    hide Next;
    if q != [] {
      var t := Next(q, r);
      if t.hole {
        RebindSpelling(q[1..], Code, k + 1);
        SpellArg(ReadPositional(q[1..], Code, k + 1), k + 1);
        Rejoin(q, 1);
        assert q[..1] == ['?'];
      } else {
        var p := ReadPositional(q[t.len..], t.next, k);
        RebindSpelling(q[t.len..], t.next, k);
        SpellChars(q[..t.len], p, false);
        SpellChars(q[..t.len], p, true);
        Rejoin(q, t.len);
      }
    }
  }

  lemma SpellArg(p: seq<Piece>, k: nat)
    ensures Spell([Arg(k)] + p, false) == ['?'] + Spell(p, false)
    ensures Spell([Arg(k)] + p, true) == ['$'] + (Itoa(k) + Spell(p, true))
  {
    assert ([Arg(k)] + p)[1..] == p;
    Associate(['$'], Itoa(k), Spell(p, true));
  }

  lemma ArgsOfArg(k: nat, p: seq<Piece>)
    ensures ArgsOf([Arg(k)] + p) == [k] + ArgsOf(p)
  {
    assert ([Arg(k)] + p)[1..] == p;
  }

  /** The arguments of that reading are numbered consecutively. */
  lemma {:induction false} NumberedInOrder(q: string, r: Region, k: nat)
    requires ValidRegion(r)
    ensures var args := ArgsOf(ReadPositional(q, r, k));
            args == seq(|args|, i => k + 1 + i)
    decreases |q|
  {
    hide Next;
    if q != [] {
      var t := Next(q, r);
      if t.hole {
        NumberedInOrder(q[1..], Code, k + 1);
        ArgsOfArg(k + 1, ReadPositional(q[1..], Code, k + 1));
      } else {
        NumberedInOrder(q[t.len..], t.next, k);
        ArgsOfChars(q[..t.len], ReadPositional(q[t.len..], t.next, k));
      }
    }
  }

  // ----- separation -----

  /** After the byte in front of `s`, tag characters run into another `?` or `$`, so that the rewritten
      text spells a dollar-quote tag. */
  predicate RunsInto(s: string) {
    var n := Run(s);
    n < |s| && (s[n] == '?' || s[n] == '$')
  }

  /** The query starts with a placeholder or a lone `$` from which such a run starts. */
  predicate CaptureAtHead(q: string, r: Region)
    requires q != [] && ValidRegion(r)
  {
    (Next(q, r).hole || LoneDollar(q, r)) && RunsInto(q[1..])
  }

  /** No top-level `?` is joined by tag characters to a top-level `?` or `$`. */
  predicate Separated(q: string, r: Region)
    requires ValidRegion(r)
    decreases |q|
  {
    q == [] || (!CaptureAtHead(q, r) && var t := Next(q, r); Separated(q[t.len..], t.next))
  }

  /** No top-level `?` is followed by a digit, which would join its number. */
  predicate NumbersEnd(q: string, r: Region)
    requires ValidRegion(r)
    decreases |q|
  {
    q == [] || (var t := Next(q, r);
                && (t.hole && 1 < |q| ==> !IsDigit(q[1]))
                && NumbersEnd(q[t.len..], t.next))
  }

  /** The query has no `$` reference of its own: its arguments are all written `?`. */
  predicate NoReferences(q: string, r: Region)
    requires ValidRegion(r)
    decreases |q|
  {
    q == [] || (var t := Next(q, r);
                && (LoneDollar(q, r) && 1 < |q| ==> !IsDigit(q[1]))
                && NoReferences(q[t.len..], t.next))
  }

  // ----- the output lexes like the query -----

  lemma OutputHead(q: string, r: Region, k: nat)
    requires ValidRegion(r)
    ensures var o := RebindFrom(q, r, k);
            (q == [] <==> o == []) && (q != [] ==> o[0] == if Next(q, r).hole then '$' else q[0])
  {
    if q != [] {
      var t := Next(q, r);
      assert q[..t.len] != [];
    }
  }

  lemma TagCharIsCopied(q: string, k: nat)
    requires q != [] && IsTagChar(q[0])
    ensures Next(q, Code) == Lexeme(1, Code, false)
    ensures RebindFrom(q, Code, k) == [q[0]] + RebindFrom(q[1..], Code, k)
  {
    assert q[..1] == [q[0]];
  }

  lemma RunCons(c: char, s: string)
    requires IsTagChar(c)
    ensures Run([c] + s) == 1 + Run(s)
  {
    assert ([c] + s)[1..] == s;
  }

  /** In code, a run of tag characters is copied, and what ends it is copied or becomes `$`. */
  lemma {:induction false} OutputRun(q: string, k: nat)
    ensures var o, n := RebindFrom(q, Code, k), Run(q);
            && Run(o) == n && (n < |q| <==> n < |o|)
            && o[..n] == q[..n]
            && (n < |q| ==> o[n] == if q[n] == '?' then '$' else q[n])
    decreases |q|
  {
    hide Next, RebindFrom;
    if q != [] && IsTagChar(q[0]) {
      var rest := RebindFrom(q[1..], Code, k);
      OutputRun(q[1..], k);
      TagCharIsCopied(q, k);
      RunCons(q[0], rest);
      assert ([q[0]] + rest)[..1 + Run(rest)] == [q[0]] + rest[..Run(rest)];
    } else if q != [] {
      OutputHead(q, Code, k);
      HoleIsQuestionMark(q);
    } else {
      OutputHead(q, Code, k);
    }
  }

  lemma HoleIsQuestionMark(q: string)
    requires q != []
    ensures Next(q, Code).hole <==> q[0] == '?'
  {}

  /** In a dollar quote, the output starts with the tag's first `m` bytes exactly when the query does. */
  lemma {:induction false} OutputDollarPrefix(q: string, tag: string, k: nat, m: nat)
    requires 2 <= |tag| && m <= |tag|
    ensures var o := RebindFrom(q, DollarQuoted(tag), k);
            (m <= |q| <==> m <= |o|) && (m <= |q| ==> o[..m] == q[..m])
    decreases |q|
  {
    var o := RebindFrom(q, DollarQuoted(tag), k);
    if q != [] && m > 0 {
      if tag <= q {
        assert o == q[..|tag|] + RebindFrom(q[|tag|..], Code, k);
      } else {
        OutputDollarPrefix(q[1..], tag, k, m - 1);
        assert o == [q[0]] + RebindFrom(q[1..], DollarQuoted(tag), k);
      }
    }
  }

  lemma TagOfPrefix(tag: string, rest: string)
    requires 2 <= |tag| && DollarTag(tag) == tag
    ensures DollarTag(tag + rest) == tag
  {
    var s := tag + rest;
    assert s[1..][..|tag| - 2] == tag[1..][..|tag| - 2];
    RunIs(s[1..], |tag| - 2);
    assert s[..|tag|] == tag;
  }

  lemma TagOfTag(q: string)
    requires DollarTag(q) != ""
    ensures DollarTag(DollarTag(q)) == DollarTag(q)
  {
    var tag := DollarTag(q);
    var n := Run(q[1..]);
    assert tag[1..] == q[1..][..n + 1];
    RunIs(tag[1..], n);
  }

  /** Two texts that agree on a lexeme and on what follows it, up to a `$` for a `?`, have the same one. */
  lemma SameLexeme(q: string, o: string, r: Region)
    requires q != [] && o != [] && ValidRegion(r)
    requires var n := Next(q, r).len;
             && n <= |o| && o[..n] == q[..n]
             && (n < |q| <==> n < |o|) && (n < |q| ==> o[n] == q[n] || (q[n] == '?' && o[n] == '$'))
    requires r.DollarQuoted? ==> (r.tag <= q <==> r.tag <= o)
    requires r == Code ==> DollarTag(q) == DollarTag(o)
    ensures Next(o, r) == Next(q, r)
  {
    var n := Next(q, r).len;
    assert o[..n][0] == q[..n][0];
    if n == 2 {
      assert o[..n][1] == q[..n][1];
    }
  }

  /** A lexeme that is copied and not captured is met again, with the same successor region. */
  lemma OutputLexeme(q: string, r: Region, k: nat)
    requires q != [] && ValidRegion(r) && !Next(q, r).hole && !CaptureAtHead(q, r)
    ensures var o, t := RebindFrom(q, r, k), Next(q, r);
            o != [] && Next(o, r) == t && LoneDollar(o, r) == LoneDollar(q, r)
            && o[..t.len] == q[..t.len] && o[t.len..] == RebindFrom(q[t.len..], t.next, k)
  {
    hide Next, RebindFrom, CaptureAtHead;
    var t := Next(q, r);
    OutputNextByte(q, r, k);
    if r.DollarQuoted? {
      OutputDollarPrefix(q, r.tag, k, |r.tag|);
    } else if r == Code {
      OutputTag(q, RebindFrom(q[t.len..], t.next, k), k);
    }
    SameLexeme(q, RebindFrom(q, r, k), r);
  }

  lemma OutputNextByte(q: string, r: Region, k: nat)
    requires q != [] && ValidRegion(r) && !Next(q, r).hole
    ensures var o, t := RebindFrom(q, r, k), Next(q, r);
            var n, rest := t.len, RebindFrom(q[t.len..], t.next, k);
            && n <= |o| && o == q[..n] + rest && o[..n] == q[..n] && o[n..] == rest
            && (n < |q| <==> n < |o|) && (n < |q| ==> o[n] == q[n] || (q[n] == '?' && o[n] == '$'))
  {
    hide Next;
    var t := Next(q, r);
    OutputHead(q[t.len..], t.next, k);
  }

  lemma OutputTag(q: string, rest: string, k: nat)
    requires q != [] && !Next(q, Code).hole && !CaptureAtHead(q, Code)
    requires var t := Next(q, Code); rest == RebindFrom(q[t.len..], t.next, k)
    ensures DollarTag(q[..Next(q, Code).len] + rest) == DollarTag(q)
  {
    var t := Next(q, Code);
    var o := q[..t.len] + rest;
    assert o[0] == q[0];
    if q[0] == '$' {
      NextAtDollar(q);
      if DollarTag(q) != "" {
        TagOfTag(q);
        TagOfPrefix(DollarTag(q), rest);
      } else {
        OutputRun(q[1..], k);
        LoneDollarStays(rest);
        assert q[..1] == ['$'];
      }
    }
  }

  lemma NextAtDollar(q: string)
    requires q != [] && q[0] == '$'
    ensures var tag := DollarTag(q);
            Next(q, Code) == (if tag != "" then Lexeme(|tag|, DollarQuoted(tag), false) else Lexeme(1, Code, false))
            && (tag != "" ==> q[..|tag|] == tag)
  {}

  lemma LoneDollarStays(rest: string)
    ensures var n := Run(rest); DollarTag(['$'] + rest) != "" <==> n < |rest| && rest[n] == '$'
  {
    assert (['$'] + rest)[1..] == rest;
  }

  /** A placeholder that is not captured becomes a lone `$` and its number. */
  lemma OutputPlaceholder(q: string, k: nat)
    requires q != [] && Next(q, Code).hole
    ensures var o, rest := RebindFrom(q, Code, k), RebindFrom(q[1..], Code, k + 1);
            && o == ['$'] + (Itoa(k + 1) + rest)
            && (CaptureAtHead(q, Code) <==> DollarTag(o) != "")
  {
    var d, rest := Itoa(k + 1), RebindFrom(q[1..], Code, k + 1);
    OutputRun(q[1..], k + 1);
    RunConcat(d, rest);
    LoneDollarStays(d + rest);
  }

  lemma RunConcat(d: string, s: string)
    requires forall i :: 0 <= i < |d| ==> IsTagChar(d[i])
    ensures Run(d + s) == |d| + Run(s)
  {
    RunIs(d + s, |d| + Run(s));
  }

  // ----- applying it twice -----

  /** Digits met in code are copied. */
  lemma {:induction false} DigitsAreCopied(d: string, s: string, j: nat)
    requires forall i :: 0 <= i < |d| ==> IsDigit(d[i])
    ensures RebindFrom(d + s, Code, j) == d + RebindFrom(s, Code, j)
    decreases |d|
  {
    if d == [] {
      assert d + s == s;
    } else {
      TagCharIsCopied(d + s, j);
      assert (d + s)[1..] == d[1..] + s;
      DigitsAreCopied(d[1..], s, j);
      HeadAndTail(d, RebindFrom(s, Code, j));
    }
  }

  lemma LoneDollarIsCopied(tail: string, j: nat)
    requires DollarTag(['$'] + tail) == ""
    ensures RebindFrom(['$'] + tail, Code, j) == ['$'] + RebindFrom(tail, Code, j)
  {
    assert (['$'] + tail)[..1] == ['$'] && (['$'] + tail)[1..] == tail;
  }

  lemma {:induction false} SecondPass(q: string, r: Region, k: nat, j: nat)
    requires ValidRegion(r) && Separated(q, r)
    ensures RebindFrom(RebindFrom(q, r, k), r, j) == RebindFrom(q, r, k)
    decreases |q|
  {
    hide Next;
    if q != [] {
      var o, t := RebindFrom(q, r, k), Next(q, r);
      if t.hole {
        SecondPass(q[1..], Code, k + 1, j);
        SecondPassPlaceholder(q, k, j);
      } else {
        OutputLexeme(q, r, k);
        SecondPass(q[t.len..], t.next, k, j);
        SecondPassCopied(o, r, t, j);
      }
    }
  }

  lemma SecondPassPlaceholder(q: string, k: nat, j: nat)
    requires q != [] && Next(q, Code).hole && !CaptureAtHead(q, Code)
    requires var rest := RebindFrom(q[1..], Code, k + 1); RebindFrom(rest, Code, j) == rest
    ensures var o := RebindFrom(q, Code, k); RebindFrom(o, Code, j) == o
  {
    hide Next;
    var d, rest := Itoa(k + 1), RebindFrom(q[1..], Code, k + 1);
    OutputPlaceholder(q, k);
    DigitsAreCopied(d, rest, j);
    LoneDollarIsCopied(d + rest, j);
  }

  lemma SecondPassCopied(o: string, r: Region, t: Lexeme, j: nat)
    requires o != [] && ValidRegion(r) && Next(o, r) == t && !t.hole
    requires RebindFrom(o[t.len..], t.next, j) == o[t.len..]
    ensures RebindFrom(o, r, j) == o
  {
    hide Next;
    assert o == o[..t.len] + o[t.len..];
  }

  /** The callers that bind twice rely on this: a separated query is bound once and for all. */
  lemma RebindIdempotent(q: string)
    requires Separated(q, Code)
    ensures Rebind(Rebind(q)) == Rebind(q)
  {
    SecondPass(q, Code, 0, 0);
  }

  /** The query has a top-level `?`. */
  predicate HasPlaceholder(q: string, r: Region)
    requires ValidRegion(r)
    decreases |q|
  {
    q != [] && var t := Next(q, r); t.hole || HasPlaceholder(q[t.len..], t.next)
  }

  lemma {:induction false} FixedIffNoPlaceholder(q: string, r: Region, k: nat)
    requires ValidRegion(r)
    ensures RebindFrom(q, r, k) == q <==> !HasPlaceholder(q, r)
    decreases |q|
  {
    hide Next;
    if q != [] {
      var t := Next(q, r);
      OutputHead(q, r, k);
      if !t.hole {
        var rest := RebindFrom(q[t.len..], t.next, k);
        FixedIffNoPlaceholder(q[t.len..], t.next, k);
        SameHead(q[..t.len], rest, q[t.len..]);
        assert q == q[..t.len] + q[t.len..];
      }
    }
  }

  lemma SameHead<T>(head: seq<T>, a: seq<T>, b: seq<T>)
    ensures head + a == head + b <==> a == b
  {
    assert (head + a)[|head|..] == a && (head + b)[|head|..] == b;
  }

  // ----- when applying it twice changes something -----

  /** The dollar-quote tag that a captured placeholder (number k + 1) or lone `$` spells in the output. */
  function CapturedTag(q: string, k: nat): string
    requires q != []
  {
    ['$'] + (if q[0] == '?' then Itoa(k + 1) else []) + q[1..][..Run(q[1..])] + ['$']
  }

  function WithoutFirst(s: string): string {
    if s == [] then [] else s[1..]
  }

  /** What is emitted after that tag; its closing `$` is the next placeholder's or the query's own. */
  function AfterCapture(q: string, k: nat): string
    requires q != []
  {
    WithoutFirst(RebindFrom(q[1..][Run(q[1..])..], Code, if q[0] == '?' then k + 1 else k))
  }

  /** The tag occurs in the text, and code with a top-level `?` follows its first occurrence. */
  predicate ClosesBeforePlaceholder(s: string, tag: string)
    decreases |s|
  {
    s != [] && if tag <= s then HasPlaceholder(s[|tag|..], Code) else ClosesBeforePlaceholder(s[1..], tag)
  }

  /** The query joins a placeholder or `$` into a tag which the text emitted later closes again, in front of a `?`
      that is then in code. Where such a join happens is read off the query; but the closing tag, and what makes the `?`
      after it code, may be spelled by placeholders rewritten later, so that half is decided on the text emitted for the
      rest. `HarmlessQueries` has conditions a caller can read off a query. */
  predicate Reopened(q: string, r: Region, k: nat)
    requires ValidRegion(r)
    decreases |q|
  {
    q != []
    && if CaptureAtHead(q, r) then ClosesBeforePlaceholder(AfterCapture(q, k), CapturedTag(q, k))
       else var t := Next(q, r); Reopened(q[t.len..], t.next, if t.hole then k + 1 else k)
  }

  lemma {:induction false} RunIsCopied(q: string, k: nat)
    ensures RebindFrom(q, Code, k) == q[..Run(q)] + RebindFrom(q[Run(q)..], Code, k)
    decreases |q|
  {
    hide RebindFrom;
    if q != [] && IsTagChar(q[0]) {
      RunIsCopied(q[1..], k);
      TagCharIsCopied(q, k);
      assert q[1..][Run(q[1..])..] == q[Run(q)..];
      HeadAndTail(q[..Run(q)], RebindFrom(q[Run(q)..], Code, k));
      assert q[..Run(q)][1..] == q[1..][..Run(q[1..])];
    } else {
      assert q[..0] == [] && q[0..] == q;
    }
  }

  /** A capture at the head: the output starts with the tag. */
  lemma CapturedOutput(q: string, r: Region, k: nat)
    requires q != [] && ValidRegion(r) && CaptureAtHead(q, r)
    ensures r == Code
    ensures var o, tag := RebindFrom(q, r, k), CapturedTag(q, k);
            o == tag + AfterCapture(q, k) && DollarTag(o) == tag
  {
    hide CaptureAtHead, DollarTag, Next, RebindFrom, Itoa;
    var o, n, j := RebindFrom(q, r, k), Run(q[1..]), if q[0] == '?' then k + 1 else k;
    var d: string := if q[0] == '?' then Itoa(k + 1) else [];
    var rest := RebindFrom(q[1..], Code, j);
    CapturedHead(q, r, k);
    RunIsCopied(q[1..], j);
    OutputHead(q[1..][n..], Code, j);
    var run, tail := q[1..][..n], RebindFrom(q[1..][n..], Code, j);
    assert tail == ['$'] + WithoutFirst(tail);
    SpelledTag(d, run, WithoutFirst(tail));
    assert rest == run + (['$'] + WithoutFirst(tail));
  }

  lemma CapturedHead(q: string, r: Region, k: nat)
    requires q != [] && ValidRegion(r) && CaptureAtHead(q, r)
    ensures r == Code && Run(q[1..]) < |q[1..]|
    ensures var j := if q[0] == '?' then k + 1 else k;
            RebindFrom(q, r, k) == ['$'] + ((if q[0] == '?' then Itoa(k + 1) else []) + RebindFrom(q[1..], Code, j))
    ensures var c := q[1..][Run(q[1..])];
            c == '?' || c == '$'
    ensures Next(q[1..][Run(q[1..])..], Code).hole <==> q[1..][Run(q[1..])] == '?'
  {
    var n := Run(q[1..]);
    HoleIsQuestionMark(q);
    HoleIsQuestionMark(q[1..][n..]);
    if q[0] != '?' {
      NextAtDollar(q);
      assert q[..1] == ['$'];
      assert [] + RebindFrom(q[1..], Code, k) == RebindFrom(q[1..], Code, k);
    }
  }

  lemma SpelledTag(d: string, run: string, after: string)
    requires forall i :: 0 <= i < |d| ==> IsTagChar(d[i])
    requires forall i :: 0 <= i < |run| ==> IsTagChar(run[i])
    ensures var o, tag := ['$'] + (d + (run + (['$'] + after))), ['$'] + d + run + ['$'];
            o == tag + after && DollarTag(o) == tag
  {
    var o, tag := ['$'] + (d + (run + (['$'] + after))), ['$'] + d + run + ['$'];
    assert o == tag + after;
    assert o[1..] == d + run + (['$'] + after);
    RunIs(o[1..], |d + run|);
    assert o[..|d + run| + 2] == tag;
  }

  /** Inside a dollar quote, a top-level `?` is reached exactly by closing the quote in front of one. */
  lemma {:induction false} QuotedPlaceholder(s: string, tag: string)
    requires 2 <= |tag|
    ensures HasPlaceholder(s, DollarQuoted(tag)) <==> ClosesBeforePlaceholder(s, tag)
    decreases |s|
  {
    if s != [] && !(tag <= s) {
      QuotedPlaceholder(s[1..], tag);
    }
  }

  lemma {:induction false} DigitsHaveNoPlaceholder(d: string, s: string)
    requires forall i :: 0 <= i < |d| ==> IsDigit(d[i])
    ensures HasPlaceholder(d + s, Code) <==> HasPlaceholder(s, Code)
    decreases |d|
  {
    if d == [] {
      assert d + s == s;
    } else {
      TagCharIsCopied(d + s, 0);
      assert (d + s)[1..] == d[1..] + s;
      DigitsHaveNoPlaceholder(d[1..], s);
    }
  }

  lemma LoneDollarThenNumber(n: nat, rest: string)
    requires DollarTag(['$'] + (Itoa(n) + rest)) == ""
    ensures HasPlaceholder(['$'] + (Itoa(n) + rest), Code) <==> HasPlaceholder(rest, Code)
  {
    var o := ['$'] + (Itoa(n) + rest);
    NextAtDollar(o);
    assert o[1..] == Itoa(n) + rest;
    DigitsHaveNoPlaceholder(Itoa(n), rest);
  }

  /** The output has a top-level `?` exactly when the query reopens a quote in front of one. */
  lemma {:induction false} OutputHasPlaceholder(q: string, r: Region, k: nat)
    requires ValidRegion(r)
    ensures HasPlaceholder(RebindFrom(q, r, k), r) <==> Reopened(q, r, k)
    decreases |q|
  {
    hide Next, CaptureAtHead, CapturedTag, AfterCapture, ClosesBeforePlaceholder;
    if q != [] {
      var o, t := RebindFrom(q, r, k), Next(q, r);
      if CaptureAtHead(q, r) {
        var tag := CapturedTag(q, k);
        CapturedOutput(q, r, k);
        CapturedTagSize(q, k);
        NextAtDollar(o);
        assert o[|tag|..] == AfterCapture(q, k);
        QuotedPlaceholder(AfterCapture(q, k), tag);
      } else if t.hole {
        OutputPlaceholder(q, k);
        LoneDollarThenNumber(k + 1, RebindFrom(q[1..], Code, k + 1));
        OutputHasPlaceholder(q[1..], Code, k + 1);
      } else {
        OutputLexeme(q, r, k);
        OutputHasPlaceholder(q[t.len..], t.next, k);
      }
    }
  }

  lemma CapturedTagSize(q: string, k: nat)
    requires q != []
    ensures 2 <= |CapturedTag(q, k)| && CapturedTag(q, k)[0] == '$'
  {}

  /** A query is bound once and for all exactly when it does not join a placeholder or `$` into a tag that the text
      emitted later closes again in front of a `?`. */
  lemma RebindIdempotentIff(q: string)
    ensures Rebind(Rebind(q)) == Rebind(q) <==> !Reopened(q, Code, 0)
  {
    hide Reopened, HasPlaceholder, RebindFrom;
    FixedIffNoPlaceholder(Rebind(q), Code, 0);
    OutputHasPlaceholder(q, Code, 0);
  }

  // ----- queries written without `$` -----

  predicate Occurs(tag: string, s: string) {
    s != [] && (tag <= s || Occurs(tag, s[1..]))
  }

  lemma {:induction false} NotClosed(s: string, tag: string)
    requires !Occurs(tag, s)
    ensures !ClosesBeforePlaceholder(s, tag)
    decreases |s|
  {
    if s != [] {
      NotClosed(s[1..], tag);
    }
  }

  /** Text without `$` in front changes nothing about where a tag occurs. */
  lemma {:induction false} OccursBehind(tag: string, a: string, s: string)
    requires tag != [] && tag[0] == '$' && '$' !in a
    ensures Occurs(tag, a + s) <==> Occurs(tag, s)
    decreases |a|
  {
    if a == [] {
      assert a + s == s;
    } else {
      assert (a + s)[0] == a[0] && a[0] in a && (a + s)[1..] == a[1..] + s;
      OccursBehind(tag, a[1..], s);
    }
  }

  lemma DigitRunIs(s: string, n: nat)
    requires n <= |s| && (forall i :: 0 <= i < n ==> IsDigit(s[i])) && (n < |s| ==> !IsDigit(s[n]))
    ensures DigitRun(s) == n
  {}

  /** Text that starts with two numbers, each ended by something else, starts with one number. */
  lemma SameNumber(m: nat, u: string, n: nat, rest: string)
    requires u != [] && !IsDigit(u[0]) && (rest != [] ==> !IsDigit(rest[0]))
    requires Itoa(m) + u <= Itoa(n) + rest
    ensures m == n
  {
    var o, d, e := Itoa(n) + rest, Itoa(m), Itoa(n);
    DigitRunIs(o, |e|);
    assert (d + u)[|d|] == u[0];
    assert forall i :: 0 <= i < |d + u| ==> o[i] == (d + u)[i];
    DigitRunIs(o, |d|);
    assert o[..|d|] == d && o[..|e|] == e;
    ItoaInjective(m, n);
  }

  /** A query without `$` spells each number once: later output does not repeat a tag that starts with an earlier
      one. */
  lemma {:induction false} NumberNotRepeated(q: string, r: Region, k: nat, m: nat, u: string)
    requires ValidRegion(r) && '$' !in q && NumbersEnd(q, r)
    requires m <= k && u != [] && !IsDigit(u[0])
    ensures !Occurs(['$'] + (Itoa(m) + u), RebindFrom(q, r, k))
    decreases |q|
  {
    hide Next, Itoa;
    var tag := ['$'] + (Itoa(m) + u);
    if q != [] {
      var t := Next(q, r);
      if t.hole {
        var d, rest := Itoa(k + 1), RebindFrom(q[1..], Code, k + 1);
        NumberNotRepeated(q[1..], Code, k + 1, m, u);
        DigitsHaveNoDollar(d);
        OccursBehind(tag, d, rest);
        OutputHead(q[1..], Code, k + 1);
        if tag <= ['$'] + (d + rest) {
          assert Itoa(m) + u == tag[1..] <= (['$'] + (d + rest))[1..] == d + rest;
          assert 1 < |q| ==> q[1..][0] == q[1];
          SameNumber(m, u, k + 1, rest);
        }
        assert (['$'] + (d + rest))[1..] == d + rest;
      } else {
        NumberNotRepeated(q[t.len..], t.next, k, m, u);
        OccursBehind(tag, q[..t.len], RebindFrom(q[t.len..], t.next, k));
      }
    }
  }

  lemma DigitsHaveNoDollar(d: string)
    requires forall i :: 0 <= i < |d| ==> IsDigit(d[i])
    ensures '$' !in d
  {
    forall i | 0 <= i < |d| ensures d[i] != '$' {
      assert IsDigit(d[i]);
    }
  }

  lemma {:induction false} NumbersEndAfterRun(q: string)
    requires NumbersEnd(q, Code)
    ensures NumbersEnd(q[Run(q)..], Code)
    decreases |q|
  {
    hide Next;
    if q != [] && IsTagChar(q[0]) {
      TagCharIsCopied(q, 0);
      NumbersEndAfterRun(q[1..]);
      assert q[1..][Run(q[1..])..] == q[Run(q)..];
    } else {
      assert q[0..] == q;
    }
  }

  /** In a query without `$`, a capture joins two placeholders. */
  lemma PlainCaptureShape(q: string, k: nat) returns (run: string, s: string)
    requires q != [] && '$' !in q && NumbersEnd(q, Code) && CaptureAtHead(q, Code)
    ensures s != [] && s[0] == '?' && |s| < |q| && '$' !in s && NumbersEnd(s[1..], Code)
    ensures !IsDigit((run + ['$'])[0])
    ensures CapturedTag(q, k) == ['$'] + (Itoa(k + 1) + (run + ['$']))
    ensures AfterCapture(q, k) == Itoa(k + 2) + RebindFrom(s[1..], Code, k + 2)
  {
    hide RebindFrom, Itoa, Next, CaptureAtHead;
    var n := Run(q[1..]);
    run, s := q[1..][..n], q[1..][n..];
    CapturedHead(q, Code, k);
    assert q[0] in q && s[0] in q;
    PlainHead(q);
    NumbersEndAfterRun(q[1..]);
    assert NumbersEnd(s[1..], Code);
    OutputOfHole(s, k + 1);
  }

  lemma PlainHead(q: string)
    requires q != [] && '$' !in q && NumbersEnd(q, Code) && CaptureAtHead(q, Code)
    ensures q[0] == '?' && NumbersEnd(q[1..], Code) && (1 < |q| ==> !IsDigit(q[1]))
  {
    assert q[0] in q;
  }

  /** What a query without `$` emits after a capture does not repeat the tag. */
  lemma PlainCapture(q: string, k: nat)
    requires q != [] && '$' !in q && NumbersEnd(q, Code) && CaptureAtHead(q, Code)
    ensures !ClosesBeforePlaceholder(AfterCapture(q, k), CapturedTag(q, k))
  {
    hide RebindFrom, Itoa, NumbersEnd, CaptureAtHead, CapturedTag, AfterCapture, Occurs, ClosesBeforePlaceholder;
    var run, s := PlainCaptureShape(q, k);
    var d, rest := Itoa(k + 2), RebindFrom(s[1..], Code, k + 2);
    var tag := ['$'] + (Itoa(k + 1) + (run + ['$']));
    NumberNotRepeated(s[1..], Code, k + 2, k + 1, run + ['$']);
    DigitsHaveNoDollar(d);
    OccursBehind(tag, d, rest);
    NotClosed(d + rest, tag);
  }

  lemma OutputOfHole(s: string, k: nat)
    requires s != [] && s[0] == '?'
    ensures RebindFrom(s, Code, k) == ['$'] + (Itoa(k + 1) + RebindFrom(s[1..], Code, k + 1))
  {}

  lemma {:induction false} PlainNotReopened(q: string, r: Region, k: nat)
    requires ValidRegion(r) && '$' !in q && NumbersEnd(q, r)
    ensures !Reopened(q, r, k)
    decreases |q|
  {
    hide Next, CaptureAtHead, AfterCapture, CapturedTag, ClosesBeforePlaceholder;
    if q != [] {
      var t := Next(q, r);
      if CaptureAtHead(q, r) {
        CapturedHead(q, r, k);
        PlainCapture(q, k);
      } else {
        PlainNotReopened(q[t.len..], t.next, if t.hole then k + 1 else k);
      }
    }
  }

  /** A query written without `$`, in which no placeholder is followed by a digit, is bound once and for all, however
      its placeholders are joined and whatever it quotes. */
  lemma RebindIdempotentPlain(q: string)
    requires '$' !in q && NumbersEnd(q, Code)
    ensures Rebind(Rebind(q)) == Rebind(q)
  {
    PlainNotReopened(q, Code, 0);
    RebindIdempotentIff(q);
  }

  /** Every `?` of the query is a placeholder, none of them quoted or commented. */
  predicate OnlyPlaceholders(q: string, r: Region)
    requires ValidRegion(r)
    decreases |q|
  {
    q == [] || (var t := Next(q, r); (t.hole || '?' !in q[..t.len]) && OnlyPlaceholders(q[t.len..], t.next))
  }

  lemma {:induction false} NoQuestionMarkLeft(q: string, r: Region, k: nat)
    requires ValidRegion(r) && OnlyPlaceholders(q, r)
    ensures '?' !in RebindFrom(q, r, k)
    decreases |q|
  {
    hide Next;
    if q != [] {
      var t := Next(q, r);
      if t.hole {
        NoQuestionMarkLeft(q[1..], Code, k + 1);
        var d := Itoa(k + 1);
        forall i | 0 <= i < |d| ensures d[i] != '?' {
          assert IsDigit(d[i]);
        }
      } else {
        NoQuestionMarkLeft(q[t.len..], t.next, k);
      }
    }
  }

  /** Even without separation, a query with no quoted `?` is bound once and for all. */
  lemma RebindIdempotentUnquoted(q: string)
    requires OnlyPlaceholders(q, Code)
    ensures Rebind(Rebind(q)) == Rebind(q)
  {
    NoQuestionMarkLeft(q, Code, 0);
    NoQuestionMark(Rebind(q), Code, 0);
  }

  /** So none of these queries reopens a quote: separated ones, ones that quote no `?`, and ones without `$` whose
      placeholders are not followed by a digit. */
  lemma HarmlessQueries(q: string)
    requires Separated(q, Code) || OnlyPlaceholders(q, Code) || ('$' !in q && NumbersEnd(q, Code))
    ensures !Reopened(q, Code, 0)
  {
    hide Separated, OnlyPlaceholders, NumbersEnd, Reopened;
    RebindIdempotentIff(q);
    if Separated(q, Code) {
      RebindIdempotent(q);
    } else if OnlyPlaceholders(q, Code) {
      RebindIdempotentUnquoted(q);
    } else {
      RebindIdempotentPlain(q);
    }
  }

  /** One byte copied, for evaluating the rewriting of a given text. */
  lemma CopyStep(c: char, tail: string, r: Region, after: Region, k: nat)
    requires ValidRegion(r) && Next([c] + tail, r) == Lexeme(1, after, false)
    ensures RebindFrom([c] + tail, r, k) == [c] + RebindFrom(tail, after, k)
    ensures HasPlaceholder(tail, after) ==> HasPlaceholder([c] + tail, r)
  {
    assert ([c] + tail)[..1] == [c] && ([c] + tail)[1..] == tail;
  }

  lemma HoleStep(tail: string, k: nat)
    ensures RebindFrom(['?'] + tail, Code, k) == ['$'] + (Itoa(k + 1) + RebindFrom(tail, Code, k + 1))
    ensures HasPlaceholder(['?'] + tail, Code)
  {
    assert (['?'] + tail)[1..] == tail;
  }

  /** A literal without quotes is copied up to its closing quote. */
  lemma {:induction false} QuotedIsCopied(s: string, k: nat)
    requires '\'' !in s
    ensures RebindFrom(s + ['\''], SingleQuoted, k) == s + ['\'']
    decreases |s|
  {
    if s == [] {
      CopyStep('\'', [], SingleQuoted, Code, k);
      assert ['\''] + [] == ['\''] && [] + ['\''] == ['\''];
    } else {
      assert s[0] in s && [s[0]] + (s[1..] + ['\'']) == s + ['\''] && (s + ['\''])[0] == s[0];
      CopyStep(s[0], s[1..] + ['\''], SingleQuoted, SingleQuoted, k);
      QuotedIsCopied(s[1..], k);
    }
  }

  /** Two adjacent placeholders and a literal that holds `s`. */
  function TwoAndLiteral(s: string): string {
    ['?'] + (['?'] + ([' '] + (['\''] + (s + ['\'']))))
  }

  lemma TwoAndLiteralOnce(s: string)
    requires '\'' !in s
    ensures Rebind(TwoAndLiteral(s)) == ['$'] + (['1'] + (['$'] + (['2'] + ([' '] + (['\''] + (s + ['\'']))))))
  {
    var quoted := s + ['\''];
    QuotedIsCopied(s, 2);
    CopyStep('\'', quoted, Code, SingleQuoted, 2);
    CopyStep(' ', ['\''] + quoted, Code, Code, 2);
    HoleStep([' '] + (['\''] + quoted), 1);
    HoleStep(['?'] + ([' '] + (['\''] + quoted)), 0);
    assert Itoa(1) == ['1'] && Itoa(2) == ['2'];
  }

  /** In front of a dollar-quoted text, a byte other than `$` is quoted too. */
  lemma QuotedByte(c: char, tail: string, tag: string)
    requires tag == ['$', '1', '$'] && c != '$' && HasPlaceholder(tail, DollarQuoted(tag))
    ensures HasPlaceholder([c] + tail, DollarQuoted(tag))
  {
    assert !(tag <= [c] + tail) by { assert ([c] + tail)[0] != tag[0]; }
    CopyStep(c, tail, DollarQuoted(tag), DollarQuoted(tag), 0);
  }

  lemma ClosingTag(tag: string, rest: string)
    requires tag == ['$', '1', '$'] && HasPlaceholder(rest, Code)
    ensures HasPlaceholder(tag + rest, DollarQuoted(tag))
  {
    assert (tag + rest)[..3] == tag && (tag + rest)[3..] == rest;
  }

  /** The output's own `$1$` is closed by the one in the literal, and what follows that is code. */
  lemma TwoAndLiteralTwice(s: string, after: string)
    requires s == ['$', '1', '$'] + after && HasPlaceholder(after + ['\''], Code)
    ensures HasPlaceholder(['$'] + (['1'] + (['$'] + (['2'] + ([' '] + (['\''] + (s + ['\''])))))), Code)
  {
    hide HasPlaceholder;
    var tag := ['$', '1', '$'];
    var quoted := s + ['\''];
    ClosingTag(tag, after + ['\'']);
    Associate(tag, after, ['\'']);
    QuotedByte('\'', quoted, tag);
    QuotedByte(' ', ['\''] + quoted, tag);
    var tail := [' '] + (['\''] + quoted);
    QuotedByte('2', tail, tag);
    OpensTag(tag, ['2'] + tail);
    assert ['$', '1', '$'] + (['2'] + tail) == ['$'] + (['1'] + (['$'] + (['2'] + tail)));
  }

  lemma OpensTag(tag: string, rest: string)
    requires tag == ['$', '1', '$'] && HasPlaceholder(rest, DollarQuoted(tag))
    ensures HasPlaceholder(tag + rest, Code)
  {
    var o := tag + rest;
    RunIs(o[1..], 1);
    assert o[..3] == tag && o[3..] == rest;
    NextAtDollar(o);
  }

  /** A query that is not bound once and for all, ``?? '$1$ ?'``: its first output opens the quote `$1$`,
      which the literal closes in front of its own `?`. */
  lemma RebindTwiceCounterexample()
    ensures var q := TwoAndLiteral(['$', '1', '$', ' ', '?']);
            Rebind(Rebind(q)) != Rebind(q) && Reopened(q, Code, 0)
  {
    var after := [' '] + ['?'];
    var s := ['$', '1', '$'] + after;
    assert s == ['$', '1', '$', ' ', '?'];
    HoleStep(['\''], 0);
    CopyStep(' ', ['?'] + ['\''], Code, Code, 0);
    assert after + ['\''] == [' '] + (['?'] + ['\'']);
    TwoAndLiteralOnce(s);
    TwoAndLiteralTwice(s, after);
    FixedIffNoPlaceholder(Rebind(TwoAndLiteral(s)), Code, 0);
    RebindIdempotentIff(TwoAndLiteral(s));
  }

  datatype Engine = SQLite | Postgres

  /** `bindQuery`. */
  function BindQuery(engine: Engine, query: string): string {
    if engine == Postgres then Rebind(query) else query
  }

  /** The call sites that bind an already bound query (execWithRetry then execDirect; getStmt then
      deleteStmt, which must name the cache entry getStmt made) see no difference exactly under that condition. */
  lemma BindTwice(engine: Engine, query: string)
    ensures BindQuery(engine, BindQuery(engine, query)) == BindQuery(engine, query)
        <==> engine == SQLite || !Reopened(query, Code, 0)
  {
    hide Reopened;
    RebindIdempotentIff(query);
  }

  // ----- the rewritten query means what the query meant -----

  lemma {:induction false} AtoiGrows(s: string, t: string)
    requires forall i :: 0 <= i < |s| ==> IsDigit(s[i])
    requires forall i :: 0 <= i < |t| ==> IsDigit(t[i])
    requires t != [] && Atoi(s) > 0
    ensures Atoi(s + t) > Atoi(s)
    decreases |t|
  {
    var u := s + t[..|t| - 1];
    assert (s + t)[..|s + t| - 1] == u;
    if |t| == 1 {
      assert u == s;
    } else {
      AtoiGrows(s, t[..|t| - 1]);
    }
  }

  lemma {:induction false} DigitRunConcat(d: string, s: string)
    requires forall i :: 0 <= i < |d| ==> IsDigit(d[i])
    ensures DigitRun(d + s) == |d| + DigitRun(s)
    decreases |d|
  {
    if d == [] {
      assert d + s == s;
    } else {
      DigitRunConcat(d[1..], s);
      assert (d + s)[1..] == d[1..] + s;
    }
  }

  /** A placeholder after a run of tag characters is read at the end of that run. */
  lemma {:induction false} PositionalRun(q: string, k: nat)
    requires Run(q) < |q| && q[Run(q)] == '?'
    ensures var p := ReadPositional(q, Code, k); Run(q) < |p| && p[Run(q)] == Arg(k + 1)
    decreases |q|
  {
    if IsTagChar(q[0]) {
      PositionalRun(q[1..], k);
      TagCharIsCopied(q, k);
      assert ReadPositional(q, Code, k) == Chars(q[..1]) + ReadPositional(q[1..], Code, k);
    }
  }

  lemma ReadNumberedLexeme(o: string, r: Region)
    requires o != [] && ValidRegion(r)
    requires LoneDollar(o, r) && 1 < |o| ==> !IsDigit(o[1])
    ensures var t := Next(o, r);
            ReadNumbered(o, r) == Chars(o[..t.len]) + ReadNumbered(o[t.len..], t.next)
  {
    hide Next;
    if LoneDollar(o, r) {
      assert DigitRun(o[1..]) == 0 by { if 1 < |o| { assert o[1..][0] == o[1]; } }
    }
  }

  lemma ReadReference(tail: string)
    requires LoneDollar(['$'] + tail, Code) && DigitRun(tail) > 0
    ensures var n := DigitRun(tail);
            ReadNumbered(['$'] + tail, Code) == [Arg(Atoi(tail[..n]))] + ReadNumbered(tail[n..], Code)
  {
    assert (['$'] + tail)[1..] == tail;
  }

  /** A number and the digits after it, if any, are read as one number. */
  lemma JoinedNumber(n: nat, rest: string)
    requires n > 0
    ensures var d, m := Itoa(n) + rest, DigitRun(rest);
            var all := DigitRun(d);
            && all > 0 && d[all..] == rest[m..] && (Atoi(d[..all]) == n <==> m == 0)
  {
    hide Itoa, Atoi, DigitRun;
    var d, m := Itoa(n), DigitRun(rest);
    AtoiItoa(n);
    DigitRunConcat(d, rest);
    assert (d + rest)[..|d| + m] == d + rest[..m] && (d + rest)[|d| + m..] == rest[m..];
    if m > 0 {
      AtoiGrows(d, rest[..m]);
    } else {
      assert d + rest[..0] == d;
    }
  }

  /** A lone `$` followed by a number is read as a reference, to another number if digits follow. */
  lemma ReadNumber(n: nat, rest: string)
    requires n > 0 && LoneDollar(['$'] + (Itoa(n) + rest), Code)
    ensures var p := ReadNumbered(['$'] + (Itoa(n) + rest), Code);
            if DigitRun(rest) > 0 then p != [] && p[0] != Arg(n)
            else p == [Arg(n)] + ReadNumbered(rest, Code)
  {
    JoinedNumber(n, rest);
    ReadReference(Itoa(n) + rest);
    assert rest[0..] == rest;
  }

  /** What the PostgreSQL side reads where a placeholder was written. */
  lemma ReadPlaceholder(q: string, k: nat)
    requires q != [] && Next(q, Code).hole
    ensures var o, rest := RebindFrom(q, Code, k), RebindFrom(q[1..], Code, k + 1);
            var p := ReadNumbered(o, Code);
            if CaptureAtHead(q, Code) || (1 < |q| && IsDigit(q[1]))
            then p != [] && p[0] != Arg(k + 1)
            else p == [Arg(k + 1)] + ReadNumbered(rest, Code)
  {
    hide Next;
    var o, rest := RebindFrom(q, Code, k), RebindFrom(q[1..], Code, k + 1);
    OutputPlaceholder(q, k);
    assert o[0] == '$';
    if CaptureAtHead(q, Code) {
      ReadTag(o);
    } else {
      ReadNumber(k + 1, rest);
      OutputHead(q[1..], Code, k + 1);
    }
  }

  lemma ReadTag(o: string)
    requires o != [] && o[0] == '$' && DollarTag(o) != ""
    ensures var p, n := ReadNumbered(o, Code), |DollarTag(o)|;
            n <= |p| && forall i :: 0 <= i < n ==> p[i] == Ch(o[i])
  {
    NextAtDollar(o);
    ReadNumberedLexeme(o, Code);
  }

  /** A lone `$` that runs into a placeholder opens a dollar quote in the output. */
  lemma ReadCapturingDollar(q: string, k: nat)
    requires q != [] && LoneDollar(q, Code) && RunsInto(q[1..])
    ensures ReadNumbered(RebindFrom(q, Code, k), Code) != ReadPositional(q, Code, k)
  {
    hide Next, RebindFrom;
    var n, rest := Run(q[1..]), RebindFrom(q[1..], Code, k);
    var o := RebindFrom(q, Code, k);
    assert q == ['$'] + q[1..];
    LoneDollarIsCopied(q[1..], k);
    OutputRun(q[1..], k);
    assert q[1..][n] == q[n + 1];
    assert q[1..][n] == '?';
    PositionalRun(q[1..], k);
    NextAtDollar(q);
    assert ReadPositional(q, Code, k) == Chars(q[..1]) + ReadPositional(q[1..], Code, k);
    assert ReadPositional(q, Code, k)[n + 1] == Arg(k + 1);
    assert o[1..] == rest && rest[n] == '$';
    ReadTag(o);
  }

  lemma OwnReferenceCopied(q: string, k: nat) returns (rest: string)
    requires 1 < |q| && LoneDollar(q, Code) && IsDigit(q[1]) && !CaptureAtHead(q, Code)
    ensures RebindFrom(q, Code, k) == ['$'] + rest && LoneDollar(['$'] + rest, Code)
    ensures rest != [] && IsDigit(rest[0])
  {
    hide Next, RebindFrom, CaptureAtHead, DollarTag;
    var o := RebindFrom(q, Code, k);
    rest := RebindFrom(q[1..], Code, k);
    NextAtDollar(q);
    OutputLexeme(q, Code, k);
    OutputHead(q[1..], Code, k);
    HoleIsQuestionMark(q[1..]);
    assert o == ['$'] + rest by { assert o == [o[0]] + o[1..]; }
    assert q[1..][0] == q[1];
  }

  lemma OwnReferencePositional(q: string, k: nat)
    requires q != [] && LoneDollar(q, Code)
    ensures var p := ReadPositional(q, Code, k); p != [] && p[0] == Ch('$')
  {
    hide Next;
    NextAtDollar(q);
    assert q[..1][0] == '$';
  }

  /** A reference of the query's own is copied, and read as an argument it was not. */
  lemma ReadOwnReference(q: string, k: nat)
    requires 1 < |q| && LoneDollar(q, Code) && IsDigit(q[1]) && !CaptureAtHead(q, Code)
    ensures ReadNumbered(RebindFrom(q, Code, k), Code) != ReadPositional(q, Code, k)
  {
    hide Next, RebindFrom, CaptureAtHead, DollarTag, Atoi, LoneDollar, ReadPositional, ReadNumbered;
    var rest := OwnReferenceCopied(q, k);
    OwnReferencePositional(q, k);
    ReadReference(rest);
  }

  /** A query means the same after rewriting exactly when all its arguments are written `?` and none of them is
      joined to a `?` or `$` by tag characters, or followed by a digit. */
  lemma {:induction false} ReadBack(q: string, r: Region, k: nat)
    requires ValidRegion(r)
    ensures ReadNumbered(RebindFrom(q, r, k), r) == ReadPositional(q, r, k)
        <==> NoReferences(q, r) && Separated(q, r) && NumbersEnd(q, r)
    decreases |q|
  {
    hide Next;
    if q != [] {
      var o, t := RebindFrom(q, r, k), Next(q, r);
      if t.hole {
        ReadPlaceholder(q, k);
        assert !LoneDollar(q, Code);
        ReadBack(q[1..], Code, k + 1);
        SameHead([Arg(k + 1)], ReadNumbered(RebindFrom(q[1..], Code, k + 1), Code),
                 ReadPositional(q[1..], Code, k + 1));
      } else if CaptureAtHead(q, r) {
        ReadCapturingDollar(q, k);
      } else if LoneDollar(q, r) && 1 < |q| && IsDigit(q[1]) {
        ReadOwnReference(q, k);
      } else {
        var rest := q[t.len..];
        ReadBack(rest, t.next, k);
        ReadBackCopied(q, r, k);
        SameHead(Chars(q[..t.len]), ReadNumbered(RebindFrom(rest, t.next, k), t.next),
                 ReadPositional(rest, t.next, k));
      }
    }
  }

  lemma ReadBackCopied(q: string, r: Region, k: nat)
    requires q != [] && ValidRegion(r) && !Next(q, r).hole && !CaptureAtHead(q, r)
    requires LoneDollar(q, r) && 1 < |q| ==> !IsDigit(q[1])
    ensures var t := Next(q, r);
            ReadNumbered(RebindFrom(q, r, k), r)
            == Chars(q[..t.len]) + ReadNumbered(RebindFrom(q[t.len..], t.next, k), t.next)
  {
    hide Next;
    var o, t := RebindFrom(q, r, k), Next(q, r);
    OutputLexeme(q, r, k);
    if LoneDollar(q, r) {
      NextAtDollar(q);
      OutputHead(q[1..], Code, k);
      assert 1 < |o| ==> o[1..][0] == o[1];
    }
    ReadNumberedLexeme(o, r);
  }

  // ----- filling in arguments -----

  /** The statement a reading stands for once every argument is put in its place; a reference to an argument that is
      not there is an error. */
  function Fill(p: seq<Piece>, args: seq<string>): Option<string> {
    if p == [] then Some("")
    else if p[0].Arg? && !(0 < p[0].k <= |args|) then None
    else
      match Fill(p[1..], args)
      case None => None
      case Some(rest) => Some((if p[0].Arg? then args[p[0].k - 1] else [p[0].c]) + rest)
  }

  /** Every reference of the reading is to one of `n` arguments. */
  predicate Within(p: seq<Piece>, n: nat) {
    forall i :: 0 <= i < |p| && p[i].Arg? ==> 0 < p[i].k <= n
  }

  function Largest(p: seq<Piece>): (n: nat)
    ensures forall i :: 0 <= i < |p| && p[i].Arg? ==> p[i].k <= n
  {
    if p == [] then 0
    else
      var rest := Largest(p[1..]);
      assert forall i :: 0 < i < |p| ==> p[i] == p[1..][i - 1];
      if p[0].Arg? && p[0].k > rest then p[0].k else rest
  }

  lemma {:induction false} FilledExactly(p: seq<Piece>, args: seq<string>)
    ensures Fill(p, args).Some? <==> Within(p, |args|)
  {
    if p != [] {
      FilledExactly(p[1..], args);
      assert forall i :: 0 < i < |p| ==> p[i] == p[1..][i - 1];
    }
  }

  lemma FilledHead(p: seq<Piece>, args: seq<string>)
    requires Within(p, |args|) && forall i :: 0 <= i < |args| ==> |args[i]| == 1
    ensures Fill(p, args).Some?
    ensures if p == [] then Fill(p, args).value == ""
            else Fill(p, args).value != ""
                 && [Fill(p, args).value[0]] == if p[0].Arg? then args[p[0].k - 1] else [p[0].c]
  {
    FilledExactly(p, args);
  }

  function OtherThan(c: char): (d: char)
    ensures d != c
  {
    if c == 'x' then 'y' else 'x'
  }

  /** Arguments that tell apart two readings which differ in their first piece. */
  function Telling(a: seq<Piece>, b: seq<Piece>, n: nat): (args: seq<string>)
    ensures |args| == n && forall i :: 0 <= i < n ==> |args[i]| == 1
  {
    var first := if b != [] && b[0].Ch? then OtherThan(b[0].c) else 'x';
    var other := if a != [] && a[0].Ch? then OtherThan(a[0].c) else 'y';
    seq(n, i requires 0 <= i < n => if a != [] && a[0] == Arg(i + 1) then [first] else [other])
  }

  lemma FirstPiecesTold(a: seq<Piece>, b: seq<Piece>, n: nat)
    requires Within(a, n) && Within(b, n)
    requires a == [] != b || b == [] != a || (a != [] && b != [] && a[0] != b[0])
    ensures Fill(a, Telling(a, b, n)) != Fill(b, Telling(a, b, n))
  {
    var args := Telling(a, b, n);
    FilledExactly(a, args);
    FilledExactly(b, args);
    FilledHead(a, args);
    FilledHead(b, args);
    hide Fill;
    if a != [] && b != [] && a[0].Arg? && b[0].Arg? {
      assert args[a[0].k - 1] == ['x'] && args[b[0].k - 1] == ['y'];
    } else if a != [] && a[0].Arg? {
      assert args[a[0].k - 1] == if b == [] then ['x'] else [OtherThan(b[0].c)];
    } else if b != [] && b[0].Arg? {
      assert args[b[0].k - 1] == if a == [] then ['y'] else [OtherThan(a[0].c)];
    }
  }

  /** Different readings without dangling references are told apart by some arguments. */
  lemma {:induction false} ReadingsTold(a: seq<Piece>, b: seq<Piece>, n: nat) returns (args: seq<string>)
    requires Within(a, n) && Within(b, n) && a != b
    ensures |args| == n && Fill(a, args) != Fill(b, args)
  {
    if a == [] || b == [] || a[0] != b[0] {
      args := Telling(a, b, n);
      FirstPiecesTold(a, b, n);
    } else {
      assert a == [a[0]] + a[1..] && b == [b[0]] + b[1..];
      args := ReadingsTold(a[1..], b[1..], n);
      FilledExactly(a, args);
      FilledExactly(b, args);
      SamePrefix(if a[0].Arg? then args[a[0].k - 1] else [a[0].c], Fill(a[1..], args).value, Fill(b[1..], args).value);
    }
  }

  lemma SamePrefix(s: string, a: string, b: string)
    requires a != b
    ensures s + a != s + b
  {
    assert (s + a)[|s|..] == a && (s + b)[|s|..] == b;
  }

  lemma {:induction false} PositionalFromOne(q: string, r: Region, k: nat)
    requires ValidRegion(r)
    ensures forall i :: 0 <= i < |ReadPositional(q, r, k)| && ReadPositional(q, r, k)[i].Arg? ==>
              ReadPositional(q, r, k)[i].k > 0
    decreases |q|
  {
    hide Next;
    if q != [] {
      var t := Next(q, r);
      PositionalFromOne(q[t.len..], t.next, if t.hole then k + 1 else k);
    }
  }

  /** For every list of arguments the result stands for the same statement as the query, exactly if the query has no
      `$` reference of its own and no placeholder that is joined to a `?` or `$` or followed by a digit. */
  lemma RebindPreservesMeaning(q: string)
    ensures (forall args :: Fill(ReadNumbered(Rebind(q), Code), args) == Fill(ReadPositional(q, Code, 0), args))
        <==> NoReferences(q, Code) && Separated(q, Code) && NumbersEnd(q, Code)
  {
    hide Fill, ReadNumbered, ReadPositional, RebindFrom, NoReferences, Separated, NumbersEnd;
    ReadBack(q, Code, 0);
    var a, b := ReadNumbered(Rebind(q), Code), ReadPositional(q, Code, 0);
    if a != b {
      var args := DifferenceShows(a, q);
    }
  }

  lemma DifferenceShows(a: seq<Piece>, q: string) returns (args: seq<string>)
    requires a != ReadPositional(q, Code, 0)
    ensures Fill(a, args) != Fill(ReadPositional(q, Code, 0), args)
  {
    hide ReadPositional, Fill;
    var b := ReadPositional(q, Code, 0);
    var n := Largest(a) + Largest(b);
    PositionalFromOne(q, Code, 0);
    if Within(a, n) {
      args := ReadingsTold(a, b, n);
    } else {
      args := seq(n, i => "");
      FilledExactly(a, args);
      FilledExactly(b, args);
    }
  }
}
