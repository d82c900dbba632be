/** server/src/backends/jsonlProcess.ts: cutting the child's output into lines. */
module JsonlProcess {
  import opened Options
  import opened Sequences
  import opened Utf8

  /** The complete lines of a stream, and what follows the last newline. */
  datatype Cut<T> = Cut(lines: seq<seq<T>>, rest: seq<T>)

  function Split<T(==)>(stream: seq<T>, newline: T): Cut<T> {
    if stream == [] then Cut([], [])
    else
      var before, last := Split(stream[..|stream| - 1], newline), stream[|stream| - 1];
      if last == newline then Cut(before.lines + [before.rest], [])
      else Cut(before.lines, before.rest + [last])
  }

  /** Splitting can be resumed: what is left over goes in front of what comes next. */
  lemma {:induction false} SplitResumes<T>(a: seq<T>, b: seq<T>, newline: T)
    ensures var first := Split(a, newline);
      var second := Split(first.rest + b, newline);
      Split(a + b, newline) == Cut(first.lines + second.lines, second.rest)
    decreases |b|
  {
    var first := Split(a, newline);
    if b == [] {
      RestIsUnsplit(a, newline);
      assert a + b == a && first.rest + b == first.rest;
    } else {
      var front, last := b[..|b| - 1], b[|b| - 1];
      SplitResumes(a, front, newline);
      assert (a + b)[..|a + b| - 1] == a + front;
      assert (first.rest + b)[..|first.rest + b| - 1] == first.rest + front;
    }
  }

  lemma {:induction false} RestIsUnsplit<T>(a: seq<T>, newline: T)
    ensures newline !in Split(a, newline).rest
    ensures Split(Split(a, newline).rest, newline) == Cut([], Split(a, newline).rest)
  {
    if a != [] {
      RestIsUnsplit(a[..|a| - 1], newline);
      var rest := Split(a, newline).rest;
      if rest != [] {
        assert rest[..|rest| - 1] == Split(a[..|a| - 1], newline).rest;
      }
    }
  }

  lemma {:induction false} NoNewlineNoLine<T>(a: seq<T>, newline: T)
    requires newline !in a
    ensures Split(a, newline) == Cut([], a)
  {
    if a != [] {
      NoNewlineNoLine(a[..|a| - 1], newline);
    }
  }

  lemma SplitAppend<T>(a: seq<T>, x: T, newline: T)
    ensures var before := Split(a, newline);
      Split(a + [x], newline) ==
          if x == newline then Cut(before.lines + [before.rest], []) else Cut(before.lines, before.rest + [x])
  {
    assert (a + [x])[..|a|] == a;
  }

  lemma SplitLine<T>(line: seq<T>, newline: T, tail: seq<T>)
    requires newline !in line
    ensures var after := Split(tail, newline);
      Split((line + [newline]) + tail, newline) == Cut([line] + after.lines, after.rest)
  {
    NoNewlineNoLine(line, newline);
    SplitAppend(line, newline, newline);
    SplitResumes(line + [newline], tail, newline);
    assert [] + tail == tail && [] + [line] == [line];
  }

  lemma CutAt<T>(a: seq<T>, i: nat)
    requires i < |a|
    ensures a == (a[..i] + [a[i]]) + a[i + 1..]
  {
  }

  lemma SplitAtFirst<T>(a: seq<T>, newline: T, i: nat)
    requires i < |a| && a[i] == newline && newline !in a[..i]
    ensures var tail := Split(a[i + 1..], newline);
      Split(a, newline) == Cut([a[..i]] + tail.lines, tail.rest)
  {
    SplitLine(a[..i], newline, a[i + 1..]);
    CutAt(a, i);
  }

  function Concat<T>(chunks: seq<seq<T>>): seq<T> {
    if chunks == [] then [] else Concat(chunks[..|chunks| - 1]) + chunks[|chunks| - 1]
  }

  /** Feeding chunks one by one: the lines so far and the buffer. */
  function FeedAll<T(==)>(chunks: seq<seq<T>>, newline: T): Cut<T> {
    if chunks == [] then Cut([], [])
    else
      var before := FeedAll(chunks[..|chunks| - 1], newline);
      var next := Split(before.rest + chunks[|chunks| - 1], newline);
      Cut(before.lines + next.lines, next.rest)
  }

  /** However a stream is cut into chunks, the lines are those of the whole stream, and the buffer
      holds exactly the bytes after the last newline. */
  lemma {:induction false} ChunkingDoesNotMatter<T>(chunks: seq<seq<T>>, newline: T)
    ensures FeedAll(chunks, newline) == Split(Concat(chunks), newline)
  {
    if chunks != [] {
      var front := chunks[..|chunks| - 1];
      ChunkingDoesNotMatter(front, newline);
      SplitResumes(Concat(front), chunks[|chunks| - 1], newline);
    }
  }

  function Rejoin<T>(lines: seq<seq<T>>, newline: T): seq<T> {
    if lines == [] then [] else Rejoin(lines[..|lines| - 1], newline) + lines[|lines| - 1] + [newline]
  }

  lemma RejoinAppend<T>(lines: seq<seq<T>>, line: seq<T>, newline: T)
    ensures Rejoin(lines + [line], newline) == Rejoin(lines, newline) + line + [newline]
  {
    assert (lines + [line])[..|lines|] == lines;
  }

  lemma {:induction false} LinesHoldNoNewline<T>(stream: seq<T>, newline: T)
    ensures forall line :: line in Split(stream, newline).lines ==> newline !in line
  {
    if stream != [] {
      LinesHoldNoNewline(stream[..|stream| - 1], newline);
      RestIsUnsplit(stream[..|stream| - 1], newline);
    }
  }

  lemma {:induction false} LinesRejoined<T>(stream: seq<T>, newline: T)
    ensures stream == Rejoin(Split(stream, newline).lines, newline) + Split(stream, newline).rest
  {
    if stream != [] {
      var front, last := stream[..|stream| - 1], stream[|stream| - 1];
      var before := Split(front, newline);
      LinesRejoined(front, newline);
      RejoinAppend(before.lines, before.rest, newline);
      assert stream == front + [last];
    }
  }

  /** Every stream is its lines, each with its newline, and the rest, and no line holds a newline. */
  lemma SplitLosesNothing<T>(stream: seq<T>, newline: T)
    ensures var cut := Split(stream, newline);
      && stream == Rejoin(cut.lines, newline) + cut.rest
      && forall line :: line in cut.lines ==> newline !in line
  {
    LinesRejoined(stream, newline);
    LinesHoldNoNewline(stream, newline);
  }

  function EncodeLines(lines: seq<seq<Scalar>>): seq<seq<Byte>> {
    seq(|lines|, i requires 0 <= i < |lines| => Encode(lines[i]))
  }

  /** For UTF-8 text the byte lines are the encoded text lines. */
  lemma {:induction false} SplitEncoded(text: seq<Scalar>)
    ensures var byText := Split(text, LINE_FEED);
      Split(Encode(text), NEWLINE) == Cut(EncodeLines(byText.lines), Encode(byText.rest))
  {
    if text != [] {
      var front, c := text[..|text| - 1], text[|text| - 1];
      SplitEncoded(front);
      assert text == front + [c];
      FlatMapAppend(EncodeScalar, front, c);
      AppendEncoded(Encode(front), Split(front, LINE_FEED), c, EncodeScalar(c));
    }
  }

  lemma AppendEncoded(bytes: seq<Byte>, byText: Cut<Scalar>, c: Scalar, more: seq<Byte>)
    requires Split(bytes, NEWLINE) == Cut(EncodeLines(byText.lines), Encode(byText.rest))
    requires more == EncodeScalar(c)
    ensures Split(bytes + more, NEWLINE) ==
      if c == LINE_FEED then Cut(EncodeLines(byText.lines + [byText.rest]), Encode([]))
      else Cut(EncodeLines(byText.lines), Encode(byText.rest + [c]))
  {
    NewlineStandsAlone(c);
    FlatMapAppend(EncodeScalar, byText.rest, c);
    assert EncodeLines(byText.lines + [byText.rest]) == EncodeLines(byText.lines) + [Encode(byText.rest)];
    if c == LINE_FEED {
      SplitAppend(bytes, NEWLINE, NEWLINE);
    } else {
      SplitMore(bytes, more);
    }
  }

  lemma SplitMore(bytes: seq<Byte>, more: seq<Byte>)
    requires NEWLINE !in more
    ensures Split(bytes + more, NEWLINE) == Cut(Split(bytes, NEWLINE).lines, Split(bytes, NEWLINE).rest + more)
  {
    SplitResumes(bytes, more, NEWLINE);
    RestIsUnsplit(bytes, NEWLINE);
    NoNewlineNoLine(Split(bytes, NEWLINE).rest + more, NEWLINE);
  }

  /** So each line, decoded, is the corresponding line of the text, whatever the chunks. */
  lemma DecodedLinesAreTextLines(text: seq<Scalar>, chunks: seq<seq<Byte>>, i: nat)
    requires Concat(chunks) == Encode(text) && i < |Split(text, LINE_FEED).lines|
    ensures i < |FeedAll(chunks, NEWLINE).lines|
    ensures Decode(FeedAll(chunks, NEWLINE).lines[i]) == Some(Split(text, LINE_FEED).lines[i])
  {
    ChunkingDoesNotMatter(chunks, NEWLINE);
    SplitEncoded(text);
    DecodeEncode(Split(text, LINE_FEED).lines[i]);
  }

  // ---- the object ----

  /** What a decoded and trimmed line turns out to be. */
  datatype Report = Blank | Line(json: string) | Unparseable(text: string)

  /** Blank lines are skipped. */
  function ReportsOf(interpret: seq<Byte> -> Report): seq<Byte> -> seq<Report> {
    line => if interpret(line).Blank? then [] else [interpret(line)]
  }

  function Reports(interpret: seq<Byte> -> Report, lines: seq<seq<Byte>>): seq<Report> {
    FlatMap(ReportsOf(interpret), lines)
  }

  /** Every line that is not blank is reported as what it is, in its place. */
  lemma {:induction false} EveryLineReported(interpret: seq<Byte> -> Report, lines: seq<seq<Byte>>)
    requires forall line :: line in lines ==> !interpret(line).Blank?
    ensures |Reports(interpret, lines)| == |lines|
    ensures forall i :: 0 <= i < |lines| ==> Reports(interpret, lines)[i] == interpret(lines[i])
  {
    if lines != [] {
      EveryLineReported(interpret, lines[..|lines| - 1]);
    }
  }

  /** A blank line is as good as none. */
  lemma BlankLineSkipped(interpret: seq<Byte> -> Report, a: seq<seq<Byte>>, line: seq<Byte>, b: seq<seq<Byte>>)
    requires interpret(line).Blank?
    ensures Reports(interpret, a + [line] + b) == Reports(interpret, a + b)
  {
    FlatMapConcat(ReportsOf(interpret), a + [line], b);
    FlatMapAppend(ReportsOf(interpret), a, line);
    FlatMapConcat(ReportsOf(interpret), a, b);
  }

  /** The position of the first newline, or -1. */
  method IndexOfNewline(buf: seq<Byte>) returns (idx: int)
    ensures -1 <= idx < |buf|
    ensures idx == -1 ==> NEWLINE !in buf
    ensures idx >= 0 ==> buf[idx] == NEWLINE && NEWLINE !in buf[..idx]
  {
    for i := 0 to |buf|
      invariant NEWLINE !in buf[..i]
    {
      if buf[i] == NEWLINE { return i; }
    }
    return -1;
  }

  class JsonlProcess {
    /** Decoding, trimming and parsing one line. */
    const interpret: seq<Byte> -> Report
    var buf: seq<Byte>
    var emitted: seq<Report>

    constructor (interpret: seq<Byte> -> Report)
      ensures this.interpret == interpret && buf == [] && emitted == []
    {
      this.interpret := interpret;
      buf, emitted := [], [];
    }

    method Feed(chunk: seq<Byte>)
      modifies this
      ensures buf == Split(old(buf) + chunk, NEWLINE).rest
      ensures emitted == old(emitted) + Reports(interpret, Split(old(buf) + chunk, NEWLINE).lines)
    {
      assert [] + chunk == chunk;
      var rest, reports := CutLines(interpret, if |buf| == 0 then chunk else buf + chunk);
      buf := rest;
      emitted := emitted + reports;
    }
  }

  /** The loop of `feed`, with what it emits collected. */
  method CutLines(interpret: seq<Byte> -> Report, stream: seq<Byte>) returns (buf: seq<Byte>, emitted: seq<Report>)
    ensures buf == Split(stream, NEWLINE).rest
    ensures emitted == Reports(interpret, Split(stream, NEWLINE).lines)
  {
    buf, emitted := stream, [];
    ghost var whole := Split(stream, NEWLINE);
    ghost var taken: seq<seq<Byte>> := [];
    var idx := IndexOfNewline(buf);
    while idx != -1
      invariant -1 <= idx < |buf| && (idx == -1 ==> NEWLINE !in buf)
      invariant idx >= 0 ==> buf[idx] == NEWLINE && NEWLINE !in buf[..idx]
      invariant Remains(whole, taken, buf)
      invariant emitted == Reports(interpret, taken)
      decreases |buf|
    {
      var line := buf[..idx];
      TakeLine(whole, taken, buf, idx);
      FlatMapAppend(ReportsOf(interpret), taken, line);
      taken := taken + [line];
      buf := buf[idx + 1..];
      var report := interpret(line);
      if !report.Blank? { emitted := emitted + [report]; }
      idx := IndexOfNewline(buf);
    }
    NoNewlineNoLine(buf, NEWLINE);
    assert whole.lines == taken;
  }

  /** `taken` are the lines already cut off, `buf` is still to be cut. */
  ghost predicate Remains(whole: Cut<Byte>, taken: seq<seq<Byte>>, buf: seq<Byte>) {
    whole.lines == taken + Split(buf, NEWLINE).lines && whole.rest == Split(buf, NEWLINE).rest
  }

  lemma TakeLine(whole: Cut<Byte>, taken: seq<seq<Byte>>, buf: seq<Byte>, idx: nat)
    requires Remains(whole, taken, buf)
    requires idx < |buf| && buf[idx] == NEWLINE && NEWLINE !in buf[..idx]
    ensures Remains(whole, taken + [buf[..idx]], buf[idx + 1..])
  {
    SplitAtFirst(buf, NEWLINE, idx);
  }

  /** Feeding a new process any chunks reports exactly the lines of the whole stream. */
  method FeedChunks(p: JsonlProcess, chunks: seq<seq<Byte>>)
    requires p.buf == [] && p.emitted == []
    modifies p
    ensures p.emitted == Reports(p.interpret, Split(Concat(chunks), NEWLINE).lines)
    ensures p.buf == Split(Concat(chunks), NEWLINE).rest
  {
    for i := 0 to |chunks|
      invariant p.buf == FeedAll(chunks[..i], NEWLINE).rest
      invariant p.emitted == Reports(p.interpret, FeedAll(chunks[..i], NEWLINE).lines)
    {
      ghost var before := FeedAll(chunks[..i], NEWLINE);
      p.Feed(chunks[i]);
      assert chunks[..i + 1][..i] == chunks[..i];
      FlatMapConcat(ReportsOf(p.interpret), before.lines, Split(before.rest + chunks[i], NEWLINE).lines);
    }
    assert chunks[..|chunks|] == chunks;
    ChunkingDoesNotMatter(chunks, NEWLINE);
  }
}
