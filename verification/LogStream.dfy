/** Log capture (internal/logstream): bytes written to the log are reassembled into lines, which a ring buffer keeps
    for later. */
module LogStream {
  const DEFAULT_BUFFER_SIZE := 1000

  lemma ModOnce(x: int, size: int)
    requires 0 < size && 0 <= x < 2 * size
    ensures x % size == if x < size then x else x - size
  {
    if x >= size {
      assert x == 1 * size + (x - size);
      ModUnique(x, 1, x - size, size);
    } else {
      ModUnique(x, 0, x, size);
    }
  }

  lemma ModUnique(x: int, q: int, r: int, size: int)
    requires 0 < size && 0 <= r < size && x == q * size + r
    ensures x % size == r
  {
    var d := x / size - q;
    assert x == (x / size) * size + x % size;
    assert d * size == (x / size) * size - q * size;
    Multiple(d, size);
  }

  lemma Multiple(d: int, size: int)
    requires 0 < size
    ensures d >= 1 ==> d * size >= size
    ensures d <= -1 ==> d * size <= -size
    ensures d == 0 ==> d * size == 0
  {}

  /** The slot of the k-th newest line when the next one goes to `pos`. */
  function Slot(pos: nat, k: nat, size: nat): int {
    if k <= pos then pos - k else pos - k + size
  }

  class Hub {
    const buffer: array<string>
    const bufferSize: nat
    var writePos: nat
    var count: nat
    /** Every line received so far. */
    ghost var lines: seq<string>

    constructor (size: int)
      ensures Valid() && lines == [] && fresh(buffer)
      ensures bufferSize == if size <= 0 then DEFAULT_BUFFER_SIZE else size
    {
      var n := if size <= 0 then DEFAULT_BUFFER_SIZE else size;
      buffer := new string[n](_ => "");
      bufferSize := n;
      writePos, count, lines := 0, 0, [];
    }

    /** The buffer holds the newest lines, as many as fit, backwards from the write position. */
    ghost predicate Valid()
      reads this, buffer
    {
      && 0 < bufferSize == buffer.Length
      && writePos < bufferSize
      && count == (if |lines| < bufferSize then |lines| else bufferSize)
      && forall k :: 1 <= k <= count ==> buffer[Slot(writePos, k, bufferSize)] == lines[|lines| - k]
    }

    method Write(line: string)
      requires Valid()
      modifies this, buffer
      ensures Valid() && lines == old(lines) + [line]
    {
      var pos := writePos;
      buffer[writePos] := line;
      ModOnce(writePos + 1, bufferSize);
      writePos := (writePos + 1) % bufferSize;
      if count < bufferSize {
        count := count + 1;
      }
      lines := lines + [line];
      forall k | 1 <= k <= count ensures buffer[Slot(writePos, k, bufferSize)] == lines[|lines| - k] {
        if k > 1 {
          assert Slot(writePos, k, bufferSize) == Slot(pos, k - 1, bufferSize) != pos;
          assert old(buffer[Slot(pos, k - 1, bufferSize)]) == old(lines)[|old(lines)| - (k - 1)];
        }
      }
    }

    /** The last n lines received, oldest first; all that are kept if n is not positive or too large. */
    method History(n: int) returns (result: seq<string>)
      requires Valid()
      ensures var kept := if |lines| < bufferSize then |lines| else bufferSize;
              result == lines[|lines| - (if n <= 0 || n > kept then kept else n)..]
    {
      var m := if n <= 0 || n > count then count else n;
      if m == 0 {
        return [];
      }
      ModOnce(writePos - m + bufferSize, bufferSize);
      var start := (writePos - m + bufferSize) % bufferSize;
      result := [];
      for i := 0 to m
        invariant result == lines[|lines| - m..|lines| - m + i]
      {
        ModOnce(start + i, bufferSize);
        assert (start + i) % bufferSize == Slot(writePos, m - i, bufferSize);
        assert buffer[Slot(writePos, m - i, bufferSize)] == lines[|lines| - (m - i)];
        result := result + [buffer[(start + i) % bufferSize]];
      }
    }
  }

  // ----- lines of a byte stream -----

  /** The position of the first newline, or the end. */
  function FirstNewline(s: string): (i: nat)
    ensures i <= |s| && (forall k :: 0 <= k < i ==> s[k] != '\n') && (i < |s| ==> s[i] == '\n')
  {
    if s == [] || s[0] == '\n' then 0 else 1 + FirstNewline(s[1..])
  }

  /** The complete lines of a stream, without empty ones. */
  function CompleteLines(s: string): seq<string>
    decreases |s|
  {
    var i := FirstNewline(s);
    if i == |s| then [] else (if i == 0 then [] else [s[..i]]) + CompleteLines(s[i + 1..])
  }

  /** The unfinished line at the end of a stream. */
  function Tail(s: string): string
    decreases |s|
  {
    var i := FirstNewline(s);
    if i == |s| then s else Tail(s[i + 1..])
  }

  lemma NewlineUnique(s: string, i: nat)
    requires i <= |s| && (forall k :: 0 <= k < i ==> s[k] != '\n') && (i < |s| ==> s[i] == '\n')
    ensures FirstNewline(s) == i
  {}

  lemma FirstLine(s: string, i: nat)
    requires i < |s| && s[i] == '\n' && forall k :: 0 <= k < i ==> s[k] != '\n'
    ensures CompleteLines(s) == (if i == 0 then [] else [s[..i]]) + CompleteLines(s[i + 1..])
    ensures Tail(s) == Tail(s[i + 1..])
  {
    hide FirstNewline;
    NewlineUnique(s, i);
    var rest := s[i + 1..];
    var j := FirstNewline(s);
    assert CompleteLines(s) == (if j == 0 then [] else [s[..j]]) + CompleteLines(rest) by { hide Tail; }
    assert Tail(s) == Tail(rest) by { hide CompleteLines; }
  }

  lemma NoLine(s: string)
    requires forall k :: 0 <= k < |s| ==> s[k] != '\n'
    ensures CompleteLines(s) == [] && Tail(s) == s
  {
    NewlineUnique(s, |s|);
  }

  lemma AppendLine(a: seq<string>, b: seq<string>, c: seq<string>)
    ensures a + b + c == a + (b + c)
  {}

  /** Only the unfinished tail of what came before matters for what comes next. */
  lemma {:induction false} AppendToStream(s: string, t: string)
    ensures CompleteLines(s + t) == CompleteLines(s) + CompleteLines(Tail(s) + t)
    ensures Tail(s + t) == Tail(Tail(s) + t)
    decreases |s|
  {
    hide CompleteLines, Tail;
    var i := FirstNewline(s);
    if i < |s| {
      AppendToStream(s[i + 1..], t);
      FirstLine(s, i);
      FirstLine(s + t, i);
      assert (s + t)[..i] == s[..i];
      assert (s + t)[i + 1..] == s[i + 1..] + t;
      AppendLine(if i == 0 then [] else [s[..i]], CompleteLines(s[i + 1..]), CompleteLines(Tail(s) + t));
    } else {
      NoLine(s);
      assert [] + CompleteLines(s + t) == CompleteLines(s + t);
    }
  }

  lemma {:induction false} TailHasNoNewline(s: string)
    ensures '\n' !in Tail(s)
    decreases |s|
  {
    var i := FirstNewline(s);
    if i < |s| {
      TailHasNoNewline(s[i + 1..]);
    }
  }

  function Unlines(lines: seq<string>): string {
    if lines == [] then "" else lines[0] + "\n" + Unlines(lines[1..])
  }

  function NotBlank(lines: seq<string>): seq<string> {
    if lines == [] then [] else (if lines[0] == "" then [] else [lines[0]]) + NotBlank(lines[1..])
  }

  /** Lines that are written out with a newline each, and a tail, are read back, except for the blank ones. */
  lemma {:induction false} LinesRoundTrip(lines: seq<string>, tail: string)
    requires forall l :: l in lines ==> '\n' !in l
    requires '\n' !in tail
    ensures CompleteLines(Unlines(lines) + tail) == NotBlank(lines) && Tail(Unlines(lines) + tail) == tail
  {
    hide CompleteLines, Tail;
    var s := Unlines(lines) + tail;
    if lines == [] {
      assert s == tail;
      NoLine(s);
    } else {
      var head, rest := lines[0], Unlines(lines[1..]) + tail;
      assert head in lines && forall l :: l in lines[1..] ==> l in lines;
      LinesRoundTrip(lines[1..], tail);
      HeadOfLines(head, Unlines(lines[1..]), tail);
      FirstLine(s, |head|);
    }
  }

  /** Every stream is written that way. */
  lemma {:induction false} StreamHasLines(s: string) returns (lines: seq<string>, tail: string)
    ensures s == Unlines(lines) + tail && (forall l :: l in lines ==> '\n' !in l) && '\n' !in tail
    decreases |s|
  {
    var i := FirstNewline(s);
    if i == |s| {
      return [], s;
    }
    var rest;
    rest, tail := StreamHasLines(s[i + 1..]);
    lines := [s[..i]] + rest;
    assert s == s[..i] + "\n" + s[i + 1..];
    assert lines[1..] == rest;
  }

  lemma HeadOfLines(head: string, body: string, tail: string)
    ensures var s := head + "\n" + body + tail;
            && |head| < |s| && s[..|head|] == head && s[|head|] == '\n' && s[|head| + 1..] == body + tail
            && forall k :: 0 <= k < |head| ==> s[k] == head[k]
  {
    var s := head + "\n" + body + tail;
    assert s[..|head|] == head;
    assert s[|head| + 1..] == body + tail;
  }

  // ----- the writer -----

  /** What the underlying writer makes of a call. */
  datatype Sink = NoTarget | Accepts(n: nat) | Fails(n: nat)

  class SwitchableWriter {
    const hub: Hub
    var buf: string
    /** What was captured so far, and the lines the hub had before. */
    ghost var captured: string
    ghost const earlier: seq<string>

    constructor (hub: Hub)
      requires hub.Valid()
      ensures Valid() && captured == "" && this.hub == hub && earlier == hub.lines
    {
      this.hub := hub;
      earlier := hub.lines;
      buf, captured := "", "";
    }

    /** The hub has the complete lines of the stream, the buffer the unfinished rest. */
    ghost predicate Valid()
      reads this, hub, hub.buffer
    {
      hub.Valid() && hub.lines == earlier + CompleteLines(captured) && buf == Tail(captured)
    }

    /** Takes the buffer up to the first newline, or all of it if there is none. */
    method ReadString() returns (line: string, found: bool)
      modifies this`buf
      ensures var i := FirstNewline(old(buf));
              && found == (i < |old(buf)|)
              && line == (if found then old(buf)[..i + 1] else old(buf))
              && buf == (if found then old(buf)[i + 1..] else "")
    {
      var i := 0;
      while i < |buf| && buf[i] != '\n'
        invariant 0 <= i <= |buf| && forall k :: 0 <= k < i ==> buf[k] != '\n'
        invariant buf == old(buf)
      {
        i := i + 1;
      }
      NewlineUnique(buf, i);
      found := i < |buf|;
      if found {
        line := buf[..i + 1];
        buf := buf[i + 1..];
      } else {
        line := buf;
        buf := "";
      }
    }

    method CaptureLine(p: string)
      requires Valid()
      modifies this`buf, this`captured, hub, hub.buffer
      ensures Valid() && captured == old(captured) + p
    {
      hide CompleteLines, Tail;
      ghost var received := hub.lines;
      AppendToStream(captured, p);
      AppendLine(earlier, CompleteLines(captured), CompleteLines(buf + p));
      buf := buf + p;
      captured := captured + p;
      ghost var pending := buf;
      while true
        invariant hub.Valid()
        invariant captured == old(captured) + p
        invariant hub.lines + CompleteLines(buf) == received + CompleteLines(pending)
        invariant Tail(buf) == Tail(pending)
        decreases |buf|
      {
        ghost var before, known := buf, hub.lines;
        var line, found := ReadString();
        if !found {
          NoLine(before);
          assert known + [] == known;
          buf := buf + line;
          break;
        }
        FirstLine(before, FirstNewline(before));
        if line != "" && line[|line| - 1] == '\n' {
          line := line[..|line| - 1];
        }
        assert line == before[..FirstNewline(before)];
        AppendLine(known, [line], CompleteLines(buf));
        if line != "" {
          hub.Write(line);
        }
      }
    }

    /** Writes to the target first; what it took is captured, a failed write is not. */
    method Write(p: string, sink: Sink) returns (n: nat, ok: bool)
      requires Valid() && (!sink.NoTarget? ==> sink.n <= |p|)
      modifies this`buf, this`captured, hub, hub.buffer
      ensures Valid()
      ensures ok <==> !sink.Fails?
      ensures n == if sink.NoTarget? then 0 else sink.n
      ensures captured == if sink.Accepts? then old(captured) + p[..n] else old(captured)
    {
      match sink {
        case NoTarget => return 0, true;
        case Fails(k) => return k, false;
        case Accepts(k) =>
          CaptureLine(p[..k]);
          return k, true;
      }
    }
  }

  function Concat(chunks: seq<string>): string {
    if chunks == [] then "" else Concat(chunks[..|chunks| - 1]) + chunks[|chunks| - 1]
  }

  /** However a stream is cut into writes, the hub gets the same lines, and history shows the last of them. */
  method CaptureAll(chunks: seq<string>, size: int, n: int) returns (history: seq<string>)
    ensures var lines := CompleteLines(Concat(chunks));
            var capacity := if size <= 0 then DEFAULT_BUFFER_SIZE else size;
            var kept := if |lines| < capacity then |lines| else capacity;
            history == lines[|lines| - (if n <= 0 || n > kept then kept else n)..]
  {
    var hub := new Hub(size);
    var writer := new SwitchableWriter(hub);
    for i := 0 to |chunks|
      invariant writer.Valid() && writer.hub == hub && writer.earlier == [] && fresh(writer) && fresh(hub)
                && fresh(hub.buffer)
      invariant writer.captured == Concat(chunks[..i])
    {
      assert chunks[..i + 1][..i] == chunks[..i];
      var taken, ok := writer.Write(chunks[i], Accepts(|chunks[i]|));
      assert chunks[i][..|chunks[i]|] == chunks[i];
    }
    assert chunks[..|chunks|] == chunks;
    history := hub.History(n);
  }
}
