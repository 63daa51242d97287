/** Streams that close without a terminal event, as when their owner drops them. A consumer treats
    that like `Eof` and flushes the partial line, which may be only the beginning of a line. */
module CutOffLines {
  import opened Events
  import opened Subsequences
  import opened LineSpec
  import opened ParserMachine
  import opened GapParsing

  /** Closing now cuts no line off: there is no partial line, or it has reached the limit, so that it
      is emitted as it is whatever follows. */
  predicate EndsCleanly(l: Limits, p: Parser)
  {
    Flush(p) == [] || IsFull(l, p)
  }

  /** Closing after `events` has the effect of `Eof`. */
  lemma {:induction false} DriveAfter(l: Limits, p: Parser, events: seq<StreamEvent>)
    requires Ongoing(events)
    ensures var o := After(l, p, events);
            Drive(l, p, events) == Drive(l, p, events + [Eof]) == o.lines + Flush(o.parser)
    decreases |events|
  {
    OfferedAfter(l, p, events, [Eof]);
    if events != [] {
      var rest := events[1..];
      if events[0].Gap? {
        DriveAfter(l, RESYNC, rest);
      } else {
        var first := Feed(l, p, events[0].bytes);
        DriveAfter(l, first.parser, rest);
        var o := After(l, first.parser, rest);
        Assoc(first.lines, o.lines, Flush(o.parser));
      }
    }
  }

  // ------------------------------------------------------------------------- what follows the partial line

  /** The lines that any further input adds to those already emitted. */
  ghost function Rest(l: Limits, p: Parser, more: Bytes): (lines: seq<Line>)
  {
    var o := Feed(l, p, more);
    o.lines + Flush(o.parser)
  }

  lemma LinesAndRest(l: Limits, bytes: Bytes, more: Bytes)
    ensures var o := Feed(l, FRESH, bytes);
            Lines(l, bytes + more) == o.lines + Rest(l, o.parser, more)
  {
    var o := Feed(l, FRESH, bytes);
    var p := Feed(l, o.parser, more);
    FeedAppend(l, FRESH, bytes, more);
    ParserRefinesClosedForm(l, bytes + more);
    Assoc(o.lines, p.lines, Flush(p.parser));
  }

  /** A full partial line is the next line whatever follows. */
  lemma FullLineComesNext(l: Limits, p: Parser, more: Bytes)
    requires WellFormed(l, p) && IsFull(l, p)
    ensures Rest(l, p, more) != [] && Rest(l, p, more)[0] == p.buffer
  {
    if more != [] {
      assert Step(l, p, more[0]).lines == [p.buffer];
    }
  }

  /** A partial line that is not full turns into a longer one if an ordinary byte follows. */
  lemma PartialLineGrows(l: Limits, p: Parser, b: byte)
    requires WellFormed(l, p) && !EndsCleanly(l, p) && b != NEWLINE
    ensures Flush(p) == [p.buffer] && Rest(l, p, [b]) == [p.buffer + [b]]
  {
    FeedOne(l, p, b);
  }

  // ------------------------------------------------------------------------- the exact condition

  /** The parser that saw gaps flushes what the one that saw everything would, or nothing. */
  lemma ClosedParsers(l: Limits, events: seq<StreamEvent>, bytes: Bytes)
    requires Thins(events, bytes)
    ensures Ongoing(events)
    ensures var f, g := Feed(l, FRESH, bytes), After(l, FRESH, events);
            && Subsequence(g.lines, f.lines) && WellFormed(l, f.parser)
            && (g.parser == f.parser || EndsCleanly(l, g.parser))
            && Drive(l, FRESH, events) == g.lines + Flush(g.parser)
            && (!EndsCleanly(l, g.parser) ==> g.parser == f.parser)
            && (IsFull(l, g.parser) ==> g.parser == f.parser)
  {
    ThinsOngoing(events, bytes);
    AfterThinned(l, FRESH, FRESH, events, bytes);
    FeedWellFormed(l, FRESH, bytes);
    DriveAfter(l, FRESH, events);
  }

  /** The lines of a consumer whose stream closes after `events`, having lost bytes at gaps, are a
      subsequence of the lines of exactly the bytes up to there. */
  lemma ClosedLinesAreGenuine(l: Limits, events: seq<StreamEvent>, bytes: Bytes)
    requires Thins(events, bytes)
    ensures Subsequence(Drive(l, FRESH, events), Lines(l, bytes))
  {
    ThinsOngoing(events, bytes);
    GapsNeverInventLines(l, events, bytes);
    DriveAfter(l, FRESH, events);
  }

  /** If the stream closes cleanly they are also among the lines of every continuation. */
  lemma CleanEndIsGenuine(l: Limits, events: seq<StreamEvent>, bytes: Bytes, more: Bytes)
    requires Thins(events, bytes) && Ongoing(events) && EndsCleanly(l, After(l, FRESH, events).parser)
    ensures Subsequence(Drive(l, FRESH, events), Lines(l, bytes + more))
  {
    ClosedParsers(l, events, bytes);
    LinesAndRest(l, bytes, more);
    var f, g := Feed(l, FRESH, bytes), After(l, FRESH, events);
    var rest := Rest(l, f.parser, more);
    if Flush(g.parser) == [] {
      Append(g.lines, f.lines, [], rest);
    } else {
      FullLineComesNext(l, f.parser, more);
      assert Subsequence([], rest[1..]);
      Append(g.lines, f.lines, [f.parser.buffer], rest);
    }
  }

  /** If it does not, one more byte turns the flushed line into a line that no longer exists, unless
      an equal line had been completed before and was lost. */
  lemma CutOffLineIsInvented(l: Limits, events: seq<StreamEvent>, bytes: Bytes, b: byte)
    requires Thins(events, bytes) && Ongoing(events) && !EndsCleanly(l, After(l, FRESH, events).parser) && b != NEWLINE
    requires Subsequence(Drive(l, FRESH, events), Lines(l, bytes + [b]))
    ensures Subsequence(Drive(l, FRESH, events), Feed(l, FRESH, bytes).lines)
  {
    ClosedParsers(l, events, bytes);
    LinesAndRest(l, bytes, [b]);
    var f, g := Feed(l, FRESH, bytes), After(l, FRESH, events);
    PartialLineGrows(l, f.parser, b);
    LastIsElsewhere(g.lines, f.parser.buffer, f.lines, f.parser.buffer + [b]);
  }

  /** Exactly when the lines of a consumer whose stream closes after `events` are among those of every
      continuation: the stream closes cleanly, or the complete lines alone account for them. */
  lemma ClosedLinesIff(l: Limits, events: seq<StreamEvent>, bytes: Bytes)
    requires Thins(events, bytes) && Ongoing(events)
    ensures (forall more: Bytes :: Subsequence(Drive(l, FRESH, events), Lines(l, bytes + more)))
       <==> (|| EndsCleanly(l, After(l, FRESH, events).parser)
             || Subsequence(Drive(l, FRESH, events), Feed(l, FRESH, bytes).lines))
  {
    var lines := Drive(l, FRESH, events);
    if EndsCleanly(l, After(l, FRESH, events).parser) {
      forall more: Bytes ensures Subsequence(lines, Lines(l, bytes + more)) {
        CleanEndIsGenuine(l, events, bytes, more);
      }
    } else if Subsequence(lines, Feed(l, FRESH, bytes).lines) {
      forall more: Bytes ensures Subsequence(lines, Lines(l, bytes + more)) {
        LinesAndRest(l, bytes, more);
        Append(lines, Feed(l, FRESH, bytes).lines, [], Rest(l, Feed(l, FRESH, bytes).parser, more));
        assert lines + [] == lines;
      }
    } else if forall more: Bytes :: Subsequence(lines, Lines(l, bytes + more)) {
      assert Subsequence(lines, Lines(l, bytes + [0]));
      CutOffLineIsInvented(l, events, bytes, 0);
    }
  }

  /** Without gaps: exactly when the stream closes cleanly. */
  lemma ClosedWithoutGapsIff(l: Limits, chunks: seq<StreamEvent>)
    requires ChunksOnly(chunks)
    ensures Drive(l, FRESH, chunks) == Lines(l, Payload(chunks))
    ensures (forall more: Bytes :: Subsequence(Drive(l, FRESH, chunks), Lines(l, Payload(chunks) + more)))
       <==> EndsCleanly(l, Feed(l, FRESH, Payload(chunks)).parser)
  {
    var bytes := Payload(chunks);
    AfterChunks(l, FRESH, chunks);
    GapsAloneThin(chunks);
    RechunkingInvariance(l, chunks);
    DriveAfter(l, FRESH, chunks);
    ClosedLinesIff(l, chunks, bytes);
    var f := Feed(l, FRESH, bytes);
    if Subsequence(f.lines + Flush(f.parser), f.lines) {
      NotLonger(f.lines + Flush(f.parser), f.lines);
    }
  }

  lemma {:induction false} AfterChunks(l: Limits, p: Parser, chunks: seq<StreamEvent>)
    requires ChunksOnly(chunks)
    ensures After(l, p, chunks) == Feed(l, p, Payload(chunks))
    decreases |chunks|
  {
    if chunks != [] {
      var first := Feed(l, p, chunks[0].bytes);
      AfterChunks(l, first.parser, chunks[1..]);
      FeedAppend(l, p, chunks[0].bytes, Payload(chunks[1..]));
    }
  }
}
