/** Placeholder rewriting for PostgreSQL (internal/database/dialect.go).

    A query is a Go string, indexed by byte; here each element of the sequence is one such byte.
    The rewriting is specified by a lexer that cuts the query into lexemes, each in a region
    (code, quoted text, comment), and all readings below share that lexer. */
module Dialect {
  import opened Text

  datatype Region =
    | Code
    | SingleQuoted
    | DoubleQuoted
    | LineComment
    | BlockComment
    | DollarQuoted(tag: string)

  /** The next `len` bytes, the region after them, and whether they are a `?` to be numbered. */
  datatype Lexeme = Lexeme(len: nat, next: Region, hole: bool)

  const DOUBLE_QUOTE := '\U{0022}'

  predicate IsTagChar(c: char) {
    'a' <= c <= 'z' || 'A' <= c <= 'Z' || '0' <= c <= '9' || c == '_'
  }

  /** Length of the longest prefix of tag characters. */
  function Run(s: string): (n: nat)
    ensures n <= |s| && (forall i :: 0 <= i < n ==> IsTagChar(s[i])) && (n < |s| ==> !IsTagChar(s[n]))
  {
    if s != [] && IsTagChar(s[0]) then 1 + Run(s[1..]) else 0
  }

  /** The dollar-quote tag `$...$` that starts `s`, or the empty string. */
  function DollarTag(s: string): (tag: string)
    ensures tag == "" || (2 <= |tag| && tag <= s)
  {
    if s != [] && s[0] == '$' then
      var n := Run(s[1..]);
      if n + 1 < |s| && s[n + 1] == '$' then s[..n + 2] else ""
    else ""
  }

  method ParseDollarQuoteTag(s: string) returns (tag: string)
    ensures tag == DollarTag(s)
  {
    if |s| < 2 || s[0] != '$' {
      return "";
    }
    var i := 1;
    while i < |s|
      invariant 1 <= i <= |s|
      invariant forall j :: 0 <= j < i - 1 ==> IsTagChar(s[1..][j])
    {
      if s[i] == '$' {
        RunIs(s[1..], i - 1);
        return s[..i + 1];
      }
      if !IsTagChar(s[i]) {
        RunIs(s[1..], i - 1);
        return "";
      }
      i := i + 1;
    }
    RunIs(s[1..], i - 1);
    return "";
  }

  lemma RunIs(s: string, n: nat)
    requires n <= |s| && (forall i :: 0 <= i < n ==> IsTagChar(s[i])) && (n < |s| ==> !IsTagChar(s[n]))
    ensures Run(s) == n
  {
  }

  predicate ValidRegion(r: Region) {
    r.DollarQuoted? ==> 2 <= |r.tag|
  }

  function Next(q: string, r: Region): (t: Lexeme)
    requires q != [] && ValidRegion(r)
    ensures 1 <= t.len <= |q| && ValidRegion(t.next)
    ensures t.hole ==> t.len == 1 && q[0] == '?' && r == Code && t.next == Code
  {
    match r
    case DollarQuoted(tag) =>
      if tag <= q then Lexeme(|tag|, Code, false) else Lexeme(1, r, false)
    case LineComment =>
      Lexeme(1, if q[0] == '\n' then Code else r, false)
    case BlockComment =>
      if ['*', '/'] <= q then Lexeme(2, Code, false) else Lexeme(1, r, false)
    case SingleQuoted =>
      if ['\'', '\''] <= q then Lexeme(2, r, false) else Lexeme(1, if q[0] == '\'' then Code else r, false)
    case DoubleQuoted =>
      if [DOUBLE_QUOTE, DOUBLE_QUOTE] <= q then Lexeme(2, r, false)
      else Lexeme(1, if q[0] == DOUBLE_QUOTE then Code else r, false)
    case Code =>
      if q[0] == '\'' then Lexeme(1, SingleQuoted, false)
      else if q[0] == DOUBLE_QUOTE then Lexeme(1, DoubleQuoted, false)
      else if "--" <= q then Lexeme(2, LineComment, false)
      else if ['/', '*'] <= q then Lexeme(2, BlockComment, false)
      else if DollarTag(q) != "" then Lexeme(|DollarTag(q)|, DollarQuoted(DollarTag(q)), false)
      else Lexeme(1, Code, q[0] == '?')
  }

  /** The rewriting of `q` met in region `r` after `k` placeholders. */
  function RebindFrom(q: string, r: Region, k: nat): string
    requires ValidRegion(r)
    decreases |q|
  {
    if q == [] then []
    else
      var t := Next(q, r);
      if t.hole then ['$'] + (Itoa(k + 1) + RebindFrom(q[1..], Code, k + 1))
      else q[..t.len] + RebindFrom(q[t.len..], t.next, k)
  }

  function Rebind(q: string): string {
    RebindFrom(q, Code, 0)
  }

  lemma {:induction false} NoQuestionMark(q: string, r: Region, k: nat)
    requires ValidRegion(r) && '?' !in q
    ensures RebindFrom(q, r, k) == q
    decreases |q|
  {
    if q != [] {
      var t := Next(q, r);
      assert q[0] in q;
      NoQuestionMark(q[t.len..], t.next, k);
      assert q == q[..t.len] + q[t.len..];
    }
  }

  function Emitted(text: string, hole: bool, k: nat): string {
    if hole then ['$'] + Itoa(k + 1) else text
  }

  lemma RebindUnfold(q: string, r: Region, k: nat)
    requires q != [] && ValidRegion(r)
    ensures var t := Next(q, r);
            RebindFrom(q, r, k) == Emitted(q[..t.len], t.hole, k)
                                   + RebindFrom(q[t.len..], t.next, if t.hole then k + 1 else k)
  {
    hide Next;
    var t := Next(q, r);
    Associate(['$'], Itoa(k + 1), RebindFrom(q[t.len..], t.next, if t.hole then k + 1 else k));
  }

  /** What one lexeme adds to the output, with `goal` the whole rewriting. */
  lemma RebindStep(out: string, q: string, r: Region, k: nat, goal: string)
    requires q != [] && ValidRegion(r) && out + RebindFrom(q, r, k) == goal
    ensures var t := Next(q, r);
            out + Emitted(q[..t.len], t.hole, k) + RebindFrom(q[t.len..], t.next, if t.hole then k + 1 else k) == goal
  {
    hide Next;
    var t := Next(q, r);
    RebindUnfold(q, r, k);
    Associate(out, Emitted(q[..t.len], t.hole, k), RebindFrom(q[t.len..], t.next, if t.hole then k + 1 else k));
  }

  /** The flags of the source loop: at most one of them is set. */
  datatype Flags = Flags(dollarQuoteTag: string, inLineComment: bool, inBlockComment: bool,
                         inSingleQuote: bool, inDoubleQuote: bool)

  predicate OneFlag(f: Flags) {
    && (f.dollarQuoteTag == "" || 2 <= |f.dollarQuoteTag|)
    && (f.dollarQuoteTag != "" ==> !f.inLineComment && !f.inBlockComment && !f.inSingleQuote && !f.inDoubleQuote)
    && (f.inLineComment ==> !f.inBlockComment && !f.inSingleQuote && !f.inDoubleQuote)
    && (f.inBlockComment ==> !f.inSingleQuote && !f.inDoubleQuote)
    && (f.inSingleQuote ==> !f.inDoubleQuote)
  }

  function RegionOf(f: Flags): (r: Region)
    requires OneFlag(f)
    ensures ValidRegion(r)
  {
    if f.dollarQuoteTag != "" then DollarQuoted(f.dollarQuoteTag)
    else if f.inLineComment then LineComment
    else if f.inBlockComment then BlockComment
    else if f.inSingleQuote then SingleQuoted
    else if f.inDoubleQuote then DoubleQuoted
    else Code
  }

  const NO_FLAGS := Flags("", false, false, false, false)

  /** One pass through the source loop's chain of branches, with `rest` the bytes from index `i` on. */
  method ScanLexeme(rest: string, flags: Flags) returns (text: string, after: Flags, hole: bool)
    requires rest != "" && OneFlag(flags)
    ensures OneFlag(after)
    ensures Next(rest, RegionOf(flags)) == Lexeme(|text|, RegionOf(after), hole)
    ensures text <= rest
  {
    var ch := rest[0];
    text, after, hole := [ch], flags, false;
    if flags.dollarQuoteTag != "" {
      if flags.dollarQuoteTag <= rest {
        text, after := flags.dollarQuoteTag, flags.(dollarQuoteTag := "");
      }
    } else if flags.inLineComment {
      if ch == '\n' {
        after := flags.(inLineComment := false);
      }
    } else if flags.inBlockComment {
      if ch == '*' && 1 < |rest| && rest[1] == '/' {
        text, after := ['*', '/'], flags.(inBlockComment := false);
      }
    } else if flags.inSingleQuote {
      if ch == '\'' {
        if 1 < |rest| && rest[1] == '\'' {
          text := ['\'', '\''];
        } else {
          after := flags.(inSingleQuote := false);
        }
      }
    } else if flags.inDoubleQuote {
      if ch == DOUBLE_QUOTE {
        if 1 < |rest| && rest[1] == DOUBLE_QUOTE {
          text := [DOUBLE_QUOTE, DOUBLE_QUOTE];
        } else {
          after := flags.(inDoubleQuote := false);
        }
      }
    } else if ch == '\'' {
      after := flags.(inSingleQuote := true);
    } else if ch == DOUBLE_QUOTE {
      after := flags.(inDoubleQuote := true);
    } else if ch == '-' && 1 < |rest| && rest[1] == '-' {
      text, after := "--", flags.(inLineComment := true);
    } else if ch == '/' && 1 < |rest| && rest[1] == '*' {
      text, after := ['/', '*'], flags.(inBlockComment := true);
    } else {
      var tag := ParseDollarQuoteTag(rest);
      if tag != "" {
        text, after := tag, flags.(dollarQuoteTag := tag);
      } else {
        hole := ch == '?';
      }
    }
  }

  method RebindQuestionToDollar(query: string) returns (result: string)
    ensures result == Rebind(query)
  {
    if query == "" || '?' !in query {
      NoQuestionMark(query, Code, 0);
      return query;
    }
    var out, param, flags, rest := "", 0, NO_FLAGS, query;
    ghost var goal := Rebind(query);
    while rest != ""
      invariant OneFlag(flags)
      invariant out + RebindFrom(rest, RegionOf(flags), param) == goal
      decreases |rest|
    {
      var text, after, hole := ScanLexeme(rest, flags);
      RebindStep(out, rest, RegionOf(flags), param, goal);
      assert text == rest[..|text|];
      out := out + Emitted(text, hole, param);
      param := if hole then param + 1 else param;
      rest, flags := rest[|text|..], after;
    }
    result := out;
  }
}
