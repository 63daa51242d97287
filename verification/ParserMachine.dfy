/** The line parser as a machine that reads one byte at a time, and the proof that it produces the
    closed form of `LineSpec` however its input is cut into chunks. */
module ParserMachine {
  import opened Events
  import opened LineSpec

  datatype Mode = ReadingLine | DiscardUntilNewline | PendingLimitDelimiter

  /** The parser's state: the partial line and the mode. */
  datatype Parser = Parser(buffer: Bytes, mode: Mode)

  /** Lines emitted while consuming some input, and the state afterwards. */
  datatype Outcome = Outcome(lines: seq<Line>, parser: Parser)

  const FRESH := Parser([], ReadingLine)

  const RESYNC := Parser([], DiscardUntilNewline)

  /** The states the parser can be in while its limits stay fixed. */
  predicate WellFormed(l: Limits, p: Parser)
  {
    && (p.mode.DiscardUntilNewline? ==> p.buffer == [])
    && (p.mode.PendingLimitDelimiter? ==> p.buffer == [] && l.max > 0 && l.overflow.EmitAdditionalAsNewLines?)
    && (l.max > 0 ==> |p.buffer| <= l.max)
    && (l.max > 0 && l.overflow.EmitAdditionalAsNewLines? ==> |p.buffer| < l.max)
  }

  /** A partial line has reached the limit and waits for one more byte before it is emitted. */
  predicate IsFull(l: Limits, p: Parser)
  {
    p.mode.ReadingLine? && l.max > 0 && |p.buffer| == l.max
  }

  /** Consumes one byte. */
  function Step(l: Limits, p: Parser, b: byte): (o: Outcome)
  {
    if p.mode.DiscardUntilNewline? then
      Outcome([], if b == NEWLINE then FRESH else p)
    else if p.mode.PendingLimitDelimiter? && b == NEWLINE then
      Outcome([], FRESH)
    else if l.max > 0 && |p.buffer| == l.max then
      Outcome([p.buffer], if b == NEWLINE then FRESH else RESYNC)
    else if b == NEWLINE then
      Outcome([p.buffer], FRESH)
    else if l.max > 0 && |p.buffer| + 1 == l.max && l.overflow.EmitAdditionalAsNewLines? then
      Outcome([p.buffer + [b]], Parser([], PendingLimitDelimiter))
    else
      Outcome([], Parser(p.buffer + [b], ReadingLine))
  }

  /** Consumes a byte string. */
  function Feed(l: Limits, p: Parser, bytes: Bytes): (o: Outcome)
    decreases |bytes|
  {
    if bytes == [] then Outcome([], p)
    else
      var first := Step(l, p, bytes[0]);
      var rest := Feed(l, first.parser, bytes[1..]);
      Outcome(first.lines + rest.lines, rest.parser)
  }

  /** The line flushed at end of file, if any. */
  function Flush(p: Parser): (lines: seq<Line>)
  {
    if p.mode.DiscardUntilNewline? || p.buffer == [] then [] else [p.buffer]
  }

  lemma {:induction false} FeedAppend(l: Limits, p: Parser, a: Bytes, b: Bytes)
    ensures Feed(l, p, a + b) ==
              var first := Feed(l, p, a);
              var rest := Feed(l, first.parser, b);
              Outcome(first.lines + rest.lines, rest.parser)
    decreases |a|
  {
    if a == [] {
      assert a + b == b;
      assert [] + Feed(l, p, b).lines == Feed(l, p, b).lines;
    } else {
      assert (a + b)[1..] == a[1..] + b;
      var first := Step(l, p, a[0]);
      FeedAppend(l, first.parser, a[1..], b);
      var more := Feed(l, first.parser, a[1..]);
      Assoc(first.lines, more.lines, Feed(l, more.parser, b).lines);
    }
  }

  lemma {:induction false} FeedWellFormed(l: Limits, p: Parser, bytes: Bytes)
    requires WellFormed(l, p)
    ensures WellFormed(l, Feed(l, p, bytes).parser)
    decreases |bytes|
  {
    if bytes != [] {
      FeedWellFormed(l, Step(l, p, bytes[0]).parser, bytes[1..]);
    }
  }

  /** A newline brings every reachable state back to the fresh one. */
  lemma NewlineResynchronises(l: Limits, p: Parser)
    requires WellFormed(l, p)
    ensures Step(l, p, NEWLINE).parser == FRESH
  {
  }

  // -------------------------------------------------------------------------- newline-free input

  /** While discarding, newline-free input has no effect. */
  lemma {:induction false} DiscardNothing(l: Limits, s: Bytes)
    requires NEWLINE !in s
    ensures Feed(l, RESYNC, s) == Outcome([], RESYNC)
  {
    if s != [] {
      DiscardNothing(l, s[1..]);
    }
  }

  /** While reading, newline-free input that stays below the limit is buffered. */
  lemma {:induction false} BufferScan(l: Limits, buffer: Bytes, s: Bytes)
    requires NEWLINE !in s
    requires l.max == 0 || |buffer| + |s| < l.max || (|buffer| + |s| == l.max && l.overflow.DropAdditionalData?)
    ensures Feed(l, Parser(buffer, ReadingLine), s) == Outcome([], Parser(buffer + s, ReadingLine))
    decreases |s|
  {
    if s == [] {
      assert buffer + s == buffer;
    } else {
      BufferScan(l, buffer + [s[0]], s[1..]);
      assert buffer + [s[0]] + s[1..] == buffer + s;
    }
  }

  /** In emit mode, newline-free input that reaches the limit is emitted as one line. */
  lemma EmitAtLimit(l: Limits, buffer: Bytes, s: Bytes)
    requires NEWLINE !in s && s != []
    requires l.max > 0 && l.overflow.EmitAdditionalAsNewLines? && |buffer| + |s| == l.max
    ensures Feed(l, Parser(buffer, ReadingLine), s) == Outcome([buffer + s], Parser([], PendingLimitDelimiter))
  {
    var n := |s| - 1;
    assert s == s[..n] + [s[n]];
    BufferScan(l, buffer, s[..n]);
    FeedAppend(l, Parser(buffer, ReadingLine), s[..n], [s[n]]);
    assert buffer + s[..n] + [s[n]] == buffer + s;
  }

  /** After an emission at the limit, only a newline is treated differently. */
  lemma PendingActsFresh(l: Limits, s: Bytes)
    requires s != [] && s[0] != NEWLINE
    ensures Feed(l, Parser([], PendingLimitDelimiter), s) == Feed(l, FRESH, s)
  {
  }

  /** What a fresh parser does with a newline-free segment `s`: completed by a newline it has
      rendered the segment and is fresh again, completed by end of file it has rendered it too. */
  ghost predicate Renders(l: Limits, s: Bytes)
  {
    var o := Feed(l, FRESH, s);
    var ended := Step(l, o.parser, NEWLINE);
    && o.lines + ended.lines == Render(l, s)
    && ended.parser == FRESH
    && o.lines + Flush(o.parser) == RenderLast(l, s)
  }

  lemma ShortSegmentRenders(l: Limits, s: Bytes)
    requires NEWLINE !in s
    requires l.max == 0 || |s| < l.max || (|s| == l.max && l.overflow.DropAdditionalData?)
    ensures Renders(l, s)
  {
    BufferScan(l, [], s);
    assert [] + s == s;
  }

  /** In drop mode, a segment beyond the limit is emitted truncated and the rest discarded. */
  lemma TruncateSegment(l: Limits, s: Bytes)
    requires NEWLINE !in s
    requires 0 < l.max < |s| && l.overflow.DropAdditionalData?
    ensures Feed(l, FRESH, s) == Outcome([s[..l.max]], RESYNC)
  {
    var head, tail := s[..l.max], s[l.max..];
    assert s == head + tail && [] + head == head;
    BufferScan(l, [], head);
    FeedAppend(l, FRESH, head, tail);
    DiscardNothing(l, tail[1..]);
    assert Step(l, Parser(head, ReadingLine), tail[0]) == Outcome([head], RESYNC);
  }

  /** One full piece and what follows it. */
  lemma PieceThenRest(l: Limits, s: Bytes)
    requires NEWLINE !in s
    requires 0 < l.max < |s| && l.overflow.EmitAdditionalAsNewLines?
    ensures Feed(l, FRESH, s) ==
              var rest := Feed(l, FRESH, s[l.max..]);
              Outcome([s[..l.max]] + rest.lines, rest.parser)
  {
    var head, tail := s[..l.max], s[l.max..];
    assert s == head + tail && [] + head == head;
    EmitAtLimit(l, [], head);
    FeedAppend(l, FRESH, head, tail);
    PendingActsFresh(l, tail);
  }

  lemma {:induction false} ChoppedSegmentRenders(l: Limits, s: Bytes)
    requires NEWLINE !in s
    requires l.max > 0 && l.overflow.EmitAdditionalAsNewLines?
    ensures Renders(l, s)
    decreases |s|
  {
    if |s| < l.max {
      ShortSegmentRenders(l, s);
    } else if |s| == l.max {
      EmitAtLimit(l, [], s);
      assert [] + s == s;
    } else {
      var head, tail := s[..l.max], s[l.max..];
      PieceThenRest(l, s);
      ChoppedSegmentRenders(l, tail);
      assert Pieces(tail, l.max) == Render(l, tail);
      assert Render(l, s) == Pieces(s, l.max) == [head] + Pieces(tail, l.max);
      var rest := Feed(l, FRESH, tail);
      Assoc([head], rest.lines, Flush(rest.parser));
      Assoc([head], rest.lines, Step(l, rest.parser, NEWLINE).lines);
    }
  }

  lemma SegmentRenders(l: Limits, s: Bytes)
    requires NEWLINE !in s
    ensures Renders(l, s)
  {
    if l.max > 0 && l.overflow.EmitAdditionalAsNewLines? {
      ChoppedSegmentRenders(l, s);
    } else if l.max > 0 && |s| > l.max {
      TruncateSegment(l, s);
    } else {
      ShortSegmentRenders(l, s);
    }
  }

  // ------------------------------------------------------------------------- whole byte strings

  lemma TerminatedSegment(l: Limits, segment: Bytes, rest: Bytes)
    requires NEWLINE !in segment
    ensures Feed(l, FRESH, segment + [NEWLINE] + rest) ==
              var o := Feed(l, FRESH, rest);
              Outcome(Render(l, segment) + o.lines, o.parser)
  {
    SegmentRenders(l, segment);
    var o := Feed(l, FRESH, segment);
    FeedOne(l, o.parser, NEWLINE);
    FeedAppend(l, FRESH, segment, [NEWLINE]);
    assert Feed(l, FRESH, segment + [NEWLINE]) == Outcome(Render(l, segment), FRESH);
    FeedAppend(l, FRESH, segment + [NEWLINE], rest);
  }

  lemma FeedOne(l: Limits, p: Parser, b: byte)
    ensures Feed(l, p, [b]) == Step(l, p, b)
  {
    assert Feed(l, Step(l, p, b).parser, []).lines == [];
  }

  /** A fresh parser emits the terminated segments and keeps the rest pending. */
  lemma {:induction false} FeedClosedForm(l: Limits, bytes: Bytes)
    ensures Feed(l, FRESH, bytes) ==
              var last := Feed(l, FRESH, Remainder(bytes));
              Outcome(Terminated(l, bytes) + last.lines, last.parser)
    decreases |bytes|
  {
    var i := NewlineAt(bytes);
    if i < |bytes| {
      FeedClosedForm(l, bytes[i+1..]);
      SplitAtNewline(bytes);
      TerminatedSegment(l, bytes[..i], bytes[i+1..]);
      var last := Feed(l, FRESH, Remainder(bytes)).lines;
      Assoc(Render(l, bytes[..i]), Terminated(l, bytes[i+1..]), last);
    }
  }

  /** Feeding all bytes to a fresh parser and flushing it yields the closed form. */
  lemma ParserRefinesClosedForm(l: Limits, bytes: Bytes)
    ensures var o := Feed(l, FRESH, bytes);
            o.lines + Flush(o.parser) == Lines(l, bytes)
  {
    FeedClosedForm(l, bytes);
    SegmentRenders(l, Remainder(bytes));
    var last := Feed(l, FRESH, Remainder(bytes));
    Assoc(Terminated(l, bytes), last.lines, Flush(last.parser));
  }

  /** The parser after a gap: nothing until the first newline, then as if fresh. */
  lemma {:induction false} ResyncClosedForm(l: Limits, bytes: Bytes)
    ensures Feed(l, RESYNC, bytes) ==
              match AfterNewline(bytes)
              case None => Outcome([], RESYNC)
              case Some(rest) => Feed(l, FRESH, rest)
  {
    var i := NewlineAt(bytes);
    DiscardNothing(l, bytes[..i]);
    if i == |bytes| {
      assert bytes[..i] == bytes;
    } else {
      assert bytes == bytes[..i] + bytes[i..];
      FeedAppend(l, RESYNC, bytes[..i], bytes[i..]);
    }
  }
}
