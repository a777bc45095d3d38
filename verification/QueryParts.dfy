/** What the rewriting does to a query written part by part: an account of quoting and comments that owes nothing to the
    lexer. Every query is such a list of parts. */
module QueryParts {
  import opened Text
  import opened Dialect

  /** A part of a query. Quoted text has its quotes doubled when written. An unclosed part runs to the end. */
  datatype Part =
    | Byte(c: char)
    | Placeholder
    | Quoted(quote: char, content: string, closed: bool)
    | Line(content: string, closed: bool)
    | Block(content: string, closed: bool)
    | Dollar(tag: string, content: string, closed: bool)

  /** `content` with every quote doubled. */
  function Doubled(quote: char, content: string): string {
    if content == [] then []
    else (if content[0] == quote then [quote, quote] else [content[0]]) + Doubled(quote, content[1..])
  }

  function Written(part: Part): string {
    match part
    case Byte(c) => [c]
    case Placeholder => ['?']
    case Quoted(quote, content, closed) => [quote] + Doubled(quote, content) + if closed then [quote] else []
    case Line(content, closed) => ['-', '-'] + content + if closed then ['\n'] else []
    case Block(content, closed) => ['/', '*'] + content + if closed then ['*', '/'] else []
    case Dollar(tag, content, closed) => tag + content + if closed then tag else []
  }

  function WrittenAll(parts: seq<Part>): string {
    if parts == [] then [] else Written(parts[0]) + WrittenAll(parts[1..])
  }

  /** The query with its placeholders numbered from `k + 1`. */
  function Numbered(parts: seq<Part>, k: nat): string {
    if parts == [] then []
    else if parts[0].Placeholder? then ['$'] + Itoa(k + 1) + Numbered(parts[1..], k + 1)
    else Written(parts[0]) + Numbered(parts[1..], k)
  }

  predicate IsWordChar(c: char) {
    'A' <= c <= 'Z' || 'a' <= c <= 'z' || '0' <= c <= '9' || c == '_'
  }

  /** `$`, letters, digits and underscores, `$`. */
  predicate IsTag(tag: string) {
    && |tag| >= 2 && tag[0] == '$' && tag[|tag| - 1] == '$'
    && forall i :: 0 < i < |tag| - 1 ==> IsWordChar(tag[i])
  }

  ghost predicate StartsWithTag(s: string) {
    exists n :: 0 <= n <= |s| && IsTag(s[..n])
  }

  /** The first occurrence of `closer` in `content + closer` is the one at its end. */
  predicate FirstAtEnd(content: string, closer: string) {
    forall i :: 0 <= i < |content| ==> !(closer <= (content + closer)[i..])
  }

  predicate NowhereIn(content: string, closer: string) {
    forall i :: 0 <= i < |content| ==> !(closer <= content[i..])
  }

  /** The text of a part ends where `closer` first occurs, or at the end of the query. */
  predicate EndsRight(content: string, closer: string, closed: bool, rest: string) {
    if closed then FirstAtEnd(content, closer) else NowhereIn(content, closer) && rest == []
  }

  /** The part is what is met in code in front of `rest`. */
  ghost predicate PartFits(part: Part, rest: string) {
    match part
    case Byte(c) =>
      && c != '?' && c != '\'' && c != DOUBLE_QUOTE
      && !(['-', '-'] <= [c] + rest) && !(['/', '*'] <= [c] + rest) && !StartsWithTag([c] + rest)
    case Placeholder => true
    case Quoted(quote, _, closed) =>
      && (quote == '\'' || quote == DOUBLE_QUOTE)
      && if closed then rest == [] || rest[0] != quote else rest == []
    case Line(content, closed) => EndsRight(content, ['\n'], closed, rest)
    case Block(content, closed) => EndsRight(content, ['*', '/'], closed, rest)
    case Dollar(tag, content, closed) => IsTag(tag) && EndsRight(content, tag, closed, rest)
  }

  ghost predicate Fits(parts: seq<Part>) {
    parts == [] || (PartFits(parts[0], WrittenAll(parts[1..])) && Fits(parts[1..]))
  }

  // ----- tags -----

  /** The tag found is the one the text starts with. */
  lemma TagFound(tag: string, rest: string)
    requires IsTag(tag)
    ensures DollarTag(tag + rest) == tag
  {
    var s := tag + rest;
    RunIs(s[1..], |tag| - 2);
    assert s[..|tag|] == tag;
  }

  lemma NoTagFound(s: string)
    requires s != []
    ensures DollarTag(s) != "" <==> StartsWithTag(s)
    ensures DollarTag(s) != "" ==> IsTag(DollarTag(s))
  {
    if DollarTag(s) != "" {
      var n := Run(s[1..]) + 2;
      var tag := DollarTag(s);
      assert tag == s[..n] && n - 2 == Run(s[1..]);
      forall i | 0 < i < n - 1 ensures IsWordChar(tag[i]) {
        var j: nat := i - 1;
        assert IsTagChar(s[1..][j]);
        assert s[1..][j] == s[i] == tag[i];
      }
      assert IsTag(tag);
    }
    if StartsWithTag(s) {
      var n :| 0 <= n <= |s| && IsTag(s[..n]);
      TagFound(s[..n], s[n..]);
      assert s == s[..n] + s[n..];
    }
  }

  // ----- quoted parts are copied -----

  /** The text of a comment or dollar quote is copied through its closer, and code resumes behind it. */
  predicate Scans(r: Region, closer: string) {
    match r
    case LineComment => closer == ['\n']
    case BlockComment => closer == ['*', '/']
    case DollarQuoted(tag) => |tag| >= 2 && closer == tag
    case _ => false
  }

  lemma {:induction false} CommentCopied(content: string, closer: string, rest: string, r: Region, k: nat)
    requires Scans(r, closer) && FirstAtEnd(content, closer)
    ensures RebindFrom(content + closer + rest, r, k) == content + closer + RebindFrom(rest, Code, k)
    decreases |content|
  {
    hide RebindFrom, FirstAtEnd;
    var s := content + closer + rest;
    if content == [] {
      assert s == closer + rest;
      CloserTaken(closer, rest, r, k);
      assert content + closer == closer;
    } else {
      NotYet(content, closer, rest);
      FirstAtEndTail(content, closer);
      CommentCopied(content[1..], closer, rest, r, k);
      assert s == [content[0]] + (content[1..] + closer + rest);
      ByteTaken(s, closer, r, k);
      assert [content[0]] + (content[1..] + closer + RebindFrom(rest, Code, k))
          == content + closer + RebindFrom(rest, Code, k);
    }
  }

  lemma NotYet(content: string, closer: string, rest: string)
    requires content != [] && closer != [] && FirstAtEnd(content, closer)
    ensures !(closer <= content + closer + rest)
  {
    var t := content + closer;
    assert t[0..] == t && |closer| <= |t|;
    assert (t + rest)[..|closer|] == t[..|closer|];
  }

  lemma FirstAtEndTail(content: string, closer: string)
    requires content != [] && FirstAtEnd(content, closer)
    ensures FirstAtEnd(content[1..], closer)
  {
    forall i | 0 <= i < |content| - 1 ensures !(closer <= (content[1..] + closer)[i..]) {
      assert (content[1..] + closer)[i..] == (content + closer)[i + 1..];
    }
  }

  lemma CloserTaken(closer: string, rest: string, r: Region, k: nat)
    requires Scans(r, closer)
    ensures RebindFrom(closer + rest, r, k) == closer + RebindFrom(rest, Code, k)
  {
    var s := closer + rest;
    assert s[..|closer|] == closer && s[|closer|..] == rest;
  }

  lemma ByteTaken(s: string, closer: string, r: Region, k: nat)
    requires Scans(r, closer) && s != [] && !(closer <= s)
    ensures RebindFrom(s, r, k) == [s[0]] + RebindFrom(s[1..], r, k)
  {
    assert ['\n'] <= s <==> s[0] == '\n';
  }

  lemma {:induction false} OpenComment(content: string, closer: string, r: Region, k: nat)
    requires Scans(r, closer) && NowhereIn(content, closer)
    ensures RebindFrom(content, r, k) == content
    decreases |content|
  {
    if content != [] {
      assert content[0..] == content;
      assert forall i :: 0 <= i < |content| - 1 ==> content[1..][i..] == content[i + 1..];
      OpenComment(content[1..], closer, r, k);
      ByteTaken(content, closer, r, k);
    }
  }

  function QuotedBy(quote: char): Region {
    if quote == '\'' then SingleQuoted else DoubleQuoted
  }

  lemma {:induction false} QuotedCopied(quote: char, content: string, rest: string, k: nat)
    requires quote == '\'' || quote == DOUBLE_QUOTE
    requires rest == [] || rest[0] != quote
    ensures RebindFrom(Doubled(quote, content) + [quote] + rest, QuotedBy(quote), k)
            == Doubled(quote, content) + [quote] + RebindFrom(rest, Code, k)
    decreases |content|
  {
    hide RebindFrom;
    if content == [] {
      assert Doubled(quote, content) + [quote] == [quote];
      QuoteClosed(quote, rest, k);
    } else {
      var inner := Doubled(quote, content[1..]) + [quote] + rest;
      QuotedCopied(quote, content[1..], rest, k);
      QuotedCharCopied(quote, content[0], inner, k);
      var d, tail := DoubledChar(quote, content[0]), Doubled(quote, content[1..]);
      assert Doubled(quote, content) == d + tail;
      hide Doubled, DoubledChar;
      Regroup(d, tail, [quote], rest);
      Regroup(d, tail, [quote], RebindFrom(rest, Code, k));
    }
  }

  lemma Regroup(a: string, b: string, c: string, d: string)
    ensures a + b + c + d == a + (b + c + d)
  {}

  lemma QuoteClosed(quote: char, rest: string, k: nat)
    requires quote == '\'' || quote == DOUBLE_QUOTE
    requires rest == [] || rest[0] != quote
    ensures RebindFrom([quote] + rest, QuotedBy(quote), k) == [quote] + RebindFrom(rest, Code, k)
  {
    var s := [quote] + rest;
    assert s[1..] == rest && s[..1] == [quote];
  }

  function DoubledChar(quote: char, c: char): string {
    if c == quote then [quote, quote] else [c]
  }

  lemma QuotedCharCopied(quote: char, c: char, inner: string, k: nat)
    requires quote == '\'' || quote == DOUBLE_QUOTE
    ensures RebindFrom(DoubledChar(quote, c) + inner, QuotedBy(quote), k)
            == DoubledChar(quote, c) + RebindFrom(inner, QuotedBy(quote), k)
  {
    var d := DoubledChar(quote, c);
    var s := d + inner;
    assert s[..|d|] == d && s[|d|..] == inner;
    if c != quote {
      assert s[0] == c;
    }
  }

  lemma {:induction false} OpenQuote(quote: char, content: string, k: nat)
    requires quote == '\'' || quote == DOUBLE_QUOTE
    ensures RebindFrom(Doubled(quote, content), QuotedBy(quote), k) == Doubled(quote, content)
    decreases |content|
  {
    if content != [] {
      OpenQuote(quote, content[1..], k);
      QuotedCharCopied(quote, content[0], Doubled(quote, content[1..]), k);
    }
  }

  // ----- each part in front of the rest -----

  lemma Opens(opener: string, inner: string, r: Region, k: nat)
    requires opener + inner != [] && ValidRegion(r)
    requires Next(opener + inner, Code) == Lexeme(|opener|, r, false)
    ensures RebindFrom(opener + inner, Code, k) == opener + RebindFrom(inner, r, k)
  {
    var s := opener + inner;
    assert s[..|opener|] == opener && s[|opener|..] == inner;
    hide Next;
  }

  lemma QuoteOpens(quote: char, inner: string)
    requires quote == '\'' || quote == DOUBLE_QUOTE
    ensures Next([quote] + inner, Code) == Lexeme(1, QuotedBy(quote), false)
  {}

  lemma QuoteBound(quote: char, content: string, closed: bool, rest: string, k: nat)
    requires PartFits(Quoted(quote, content, closed), rest)
    ensures var w := Written(Quoted(quote, content, closed));
            RebindFrom(w + rest, Code, k) == w + RebindFrom(rest, Code, k)
  {
    hide RebindFrom, Next;
    var d := Doubled(quote, content);
    if closed {
      QuotedCopied(quote, content, rest, k);
      QuoteOpens(quote, d + [quote] + rest);
      Opens([quote], d + [quote] + rest, QuotedBy(quote), k);
      assert [quote] + d + [quote] + rest == [quote] + (d + [quote] + rest);
      assert [quote] + d + [quote] + RebindFrom(rest, Code, k) == [quote] + (d + [quote] + RebindFrom(rest, Code, k));
    } else {
      OpenQuote(quote, content, k);
      QuoteOpens(quote, d);
      Opens([quote], d, QuotedBy(quote), k);
      NothingLeft(k);
      assert [quote] + d + [] + rest == [quote] + d;
    }
  }

  /** A comment or dollar quote. */
  lemma CommentBound(opener: string, content: string, closer: string, closed: bool, rest: string, r: Region, k: nat)
    requires Scans(r, closer) && EndsRight(content, closer, closed, rest)
    requires opener != [] && forall inner :: Next(opener + inner, Code) == Lexeme(|opener|, r, false)
    ensures var w := opener + content + if closed then closer else [];
            RebindFrom(w + rest, Code, k) == w + RebindFrom(rest, Code, k)
  {
    hide Next, RebindFrom;
    if closed {
      CommentCopied(content, closer, rest, r, k);
      Opens(opener, content + closer + rest, r, k);
      assert opener + content + closer + rest == opener + (content + closer + rest);
      assert opener + content + closer + RebindFrom(rest, Code, k)
          == opener + (content + closer + RebindFrom(rest, Code, k));
    } else {
      OpenComment(content, closer, r, k);
      Opens(opener, content, r, k);
      assert opener + content + [] + rest == opener + content;
      assert RebindFrom(rest, Code, k) == [] by { NothingLeft(k); }
    }
  }

  lemma NothingLeft(k: nat)
    ensures RebindFrom([], Code, k) == []
  {}

  lemma ByteBound(c: char, rest: string, k: nat)
    requires PartFits(Byte(c), rest)
    ensures RebindFrom([c] + rest, Code, k) == [c] + RebindFrom(rest, Code, k)
  {
    NoTagFound([c] + rest);
    Opens([c], rest, Code, k);
  }

  /** One part in front of the rest of the query: a placeholder gets the next number, and anything else is copied, with
      code resuming right behind it. */
  lemma PartBound(part: Part, rest: string, k: nat)
    requires PartFits(part, rest)
    ensures RebindFrom(Written(part) + rest, Code, k)
            == if part.Placeholder? then ['$'] + Itoa(k + 1) + RebindFrom(rest, Code, k + 1)
               else Written(part) + RebindFrom(rest, Code, k)
  {
    match part
    case Byte(c) => ByteBound(c, rest, k);
    case Placeholder =>
      assert (['?'] + rest)[1..] == rest;
      Associate(['$'], Itoa(k + 1), RebindFrom(rest, Code, k + 1));
    case Quoted(quote, content, closed) => QuoteBound(quote, content, closed, rest, k);
    case Line(content, closed) => CommentBound(['-', '-'], content, ['\n'], closed, rest, LineComment, k);
    case Block(content, closed) => CommentBound(['/', '*'], content, ['*', '/'], closed, rest, BlockComment, k);
    case Dollar(tag, content, closed) =>
      forall inner ensures Next(tag + inner, Code) == Lexeme(|tag|, DollarQuoted(tag), false) {
        TagFound(tag, inner);
      }
      CommentBound(tag, content, tag, closed, rest, DollarQuoted(tag), k);
  }

  /** The rewriting of a query written part by part is the same parts with the placeholders numbered. */
  lemma {:induction false} PartsBound(parts: seq<Part>, k: nat)
    requires Fits(parts)
    ensures RebindFrom(WrittenAll(parts), Code, k) == Numbered(parts, k)
  {
    hide RebindFrom, Written, PartFits;
    if parts == [] {
      NothingLeft(k);
    } else {
      PartBound(parts[0], WrittenAll(parts[1..]), k);
      PartsBound(parts[1..], if parts[0].Placeholder? then k + 1 else k);
    }
  }

  // ----- every query has parts -----

  lemma {:induction false} SplitQuoted(quote: char, s: string) returns (content: string, closed: bool, rest: string)
    ensures s == Doubled(quote, content) + (if closed then [quote] else []) + rest
    ensures rest == [] || (closed && rest[0] != quote)
    decreases |s|
  {
    if s == [] {
      return [], false, [];
    }
    if s[0] == quote && (|s| == 1 || s[1] != quote) {
      assert s == [] + [quote] + s[1..];
      return [], true, s[1..];
    }
    var width := if s[0] == quote then 2 else 1;
    var front;
    front, closed, rest := SplitQuoted(quote, s[width..]);
    content := [s[0]] + front;
    assert content[1..] == front;
    assert s == s[..width] + s[width..];
    assert Doubled(quote, content) == s[..width] + Doubled(quote, front);
  }

  lemma {:induction false} SplitComment(closer: string, s: string)
    returns (content: string, closed: bool, rest: string)
    requires closer != []
    ensures s == content + (if closed then closer else []) + rest && EndsRight(content, closer, closed, rest)
    decreases |s|
  {
    if s == [] {
      return [], false, [];
    }
    if closer <= s {
      assert s == [] + closer + s[|closer|..];
      return [], true, s[|closer|..];
    }
    var front;
    front, closed, rest := SplitComment(closer, s[1..]);
    content := [s[0]] + front;
    var ending := if closed then closer else [];
    assert s == content + ending + rest;
    forall i | 0 <= i < |content| ensures !(closer <= (content + ending)[i..]) {
      if i == 0 {
        assert (content + ending)[0..] == content + ending == s[..|content + ending|];
      } else {
        assert (content + ending)[i..] == (front + ending)[i - 1..];
        assert closed || front + ending == front;
      }
    }
    assert closed || content + ending == content;
  }

  lemma SplitOpened(opener: string, closer: string, q: string)
    returns (content: string, closed: bool, rest: string)
    requires opener != [] && opener <= q && closer != []
    ensures q == opener + content + (if closed then closer else []) + rest && EndsRight(content, closer, closed, rest)
    ensures |rest| < |q|
  {
    content, closed, rest := SplitComment(closer, q[|opener|..]);
    hide EndsRight;
    assert q == opener + q[|opener|..];
  }

  /** The first part of a query. */
  lemma FirstPart(q: string) returns (part: Part, rest: string)
    requires q != []
    ensures PartFits(part, rest) && q == Written(part) + rest && |rest| < |q|
  {
    hide EndsRight, StartsWithTag, DollarTag, Doubled;
    var content, closed;
    NoTagFound(q);
    if q[0] == '?' {
      part, rest := Placeholder, q[1..];
      assert q == ['?'] + rest;
    } else if q[0] == '\'' || q[0] == DOUBLE_QUOTE {
      content, closed, rest := SplitQuoted(q[0], q[1..]);
      part := Quoted(q[0], content, closed);
      assert q == [q[0]] + q[1..];
    } else if ['-', '-'] <= q {
      content, closed, rest := SplitOpened(['-', '-'], ['\n'], q);
      part := Line(content, closed);
    } else if ['/', '*'] <= q {
      content, closed, rest := SplitOpened(['/', '*'], ['*', '/'], q);
      part := Block(content, closed);
    } else if DollarTag(q) != "" {
      content, closed, rest := SplitOpened(DollarTag(q), DollarTag(q), q);
      part := Dollar(DollarTag(q), content, closed);
    } else {
      part, rest := Byte(q[0]), q[1..];
      assert q == [q[0]] + rest;
    }
  }

  /** Every query is written part by part, so `PartsBound` says what becomes of it. */
  lemma {:induction false} EveryQueryHasParts(q: string) returns (parts: seq<Part>)
    ensures Fits(parts) && WrittenAll(parts) == q
    decreases |q|
  {
    hide PartFits, Written;
    if q == [] {
      return [];
    }
    var part, rest := FirstPart(q);
    var tail := EveryQueryHasParts(rest);
    parts := [part] + tail;
    assert parts[1..] == tail;
  }

  /** So the rewriting of any query is told by its parts. */
  lemma RebindByParts(query: string) returns (parts: seq<Part>)
    ensures Fits(parts) && WrittenAll(parts) == query && Rebind(query) == Numbered(parts, 0)
  {
    hide RebindFrom;
    parts := EveryQueryHasParts(query);
    PartsBound(parts, 0);
  }
}
