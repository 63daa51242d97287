/** The parser driven by stream events: chunks, gaps and the end of the stream. Gaps may stand for
    lost bytes; whatever was lost, a parser that is read to the end of the stream invents no line. */
module GapParsing {
  import opened Events
  import opened Subsequences
  import opened LineSpec
  import opened ParserMachine

  /** The lines a line visitor sees while `events` are consumed from state `p`. The end of `events`
      is the closed stream, which is treated like `Eof`; a read error ends without flushing. */
  function Drive(l: Limits, p: Parser, events: seq<StreamEvent>): (lines: seq<Line>)
    decreases |events|
  {
    if events == [] then Flush(p)
    else match events[0]
      case Chunk(bytes) =>
        var o := Feed(l, p, bytes);
        o.lines + Drive(l, o.parser, events[1..])
      case Gap => Drive(l, RESYNC, events[1..])
      case Eof => Flush(p)
      case ReadError(_) => []
  }

  /** The lines offered by the time `events` have been handled and the stream goes on: the same, but
      nothing is flushed before `Eof`. */
  function Offered(l: Limits, p: Parser, events: seq<StreamEvent>): (lines: seq<Line>)
    decreases |events|
  {
    if events == [] then []
    else match events[0]
      case Chunk(bytes) =>
        var o := Feed(l, p, bytes);
        o.lines + Offered(l, o.parser, events[1..])
      case Gap => Offered(l, RESYNC, events[1..])
      case Eof => Flush(p)
      case ReadError(_) => []
  }

  predicate Ongoing(events: seq<StreamEvent>)
  {
    forall i :: 0 <= i < |events| ==> !events[i].IsTerminal()
  }

  predicate ChunksOnly(events: seq<StreamEvent>)
  {
    forall i :: 0 <= i < |events| ==> events[i].Chunk?
  }

  // ------------------------------------------------------------------------- without gaps

  lemma {:induction false} DriveChunks(l: Limits, p: Parser, events: seq<StreamEvent>)
    requires ChunksOnly(events)
    ensures Drive(l, p, events + [Eof]) ==
              var o := Feed(l, p, Payload(events));
              o.lines + Flush(o.parser)
    decreases |events|
  {
    if events == [] {
      assert events + [Eof] == [Eof];
    } else {
      assert (events + [Eof])[1..] == events[1..] + [Eof];
      var first := Feed(l, p, events[0].bytes);
      DriveChunks(l, first.parser, events[1..]);
      FeedAppend(l, p, events[0].bytes, Payload(events[1..]));
      var rest := Feed(l, first.parser, Payload(events[1..]));
      assert (first.lines + rest.lines) + Flush(rest.parser) == first.lines + (rest.lines + Flush(rest.parser));
    }
  }

  /** Chunk boundaries are invisible: the lines are a function of the bytes alone. */
  lemma RechunkingInvariance(l: Limits, events: seq<StreamEvent>)
    requires ChunksOnly(events)
    ensures Drive(l, FRESH, events + [Eof]) == Lines(l, Payload(events))
  {
    DriveChunks(l, FRESH, events);
    ParserRefinesClosedForm(l, Payload(events));
  }

  // ---------------------------------------------------------- closed form of a stream with gaps

  /** The bytes between consecutive gaps. */
  function Runs(events: seq<StreamEvent>): (runs: seq<Bytes>)
    requires Ongoing(events)
    ensures |runs| >= 1
  {
    if events == [] then [[]]
    else
      var rest := Runs(events[1..]);
      if events[0].Gap? then [[]] + rest else [events[0].bytes + rest[0]] + rest[1..]
  }

  /** The lines that overflow forces out of a segment before its end is seen. */
  function Early(l: Limits, segment: Bytes): (lines: seq<Line>)
    decreases |segment|
  {
    if l.max == 0 then []
    else if l.overflow.DropAdditionalData? then
      if |segment| > l.max then [segment[..l.max]] else []
    else
      if |segment| >= l.max then [segment[..l.max]] + Early(l, segment[l.max..]) else []
  }

  /** The lines of bytes followed by a gap: the segment cut by the gap is not flushed. */
  function Interrupted(l: Limits, bytes: Bytes): (lines: seq<Line>)
  {
    Terminated(l, bytes) + Early(l, Remainder(bytes))
  }

  /** The lines of one run; `last` tells that the stream ends after it. */
  function RunLines(l: Limits, bytes: Bytes, last: bool): (lines: seq<Line>)
  {
    if last then Lines(l, bytes) else Interrupted(l, bytes)
  }

  /** The lines of runs that each follow a gap: every run starts after its first newline. */
  function ResyncedLines(l: Limits, runs: seq<Bytes>): (lines: seq<Line>)
  {
    if runs == [] then []
    else
      (match AfterNewline(runs[0])
       case None => []
       case Some(rest) => RunLines(l, rest, |runs| == 1))
      + ResyncedLines(l, runs[1..])
  }

  lemma {:induction false} EarlyIsFed(l: Limits, s: Bytes)
    requires NEWLINE !in s
    ensures Feed(l, FRESH, s).lines == Early(l, s)
    decreases |s|
  {
    if l.max == 0 || |s| < l.max || (|s| == l.max && l.overflow.DropAdditionalData?) {
      BufferScan(l, [], s);
    } else if l.overflow.DropAdditionalData? {
      TruncateSegment(l, s);
    } else if |s| == l.max {
      EmitAtLimit(l, [], s);
      assert [] + s == s && s[..l.max] == s && s[l.max..] == [];
    } else {
      PieceThenRest(l, s);
      EarlyIsFed(l, s[l.max..]);
    }
  }

  lemma InterruptedIsFed(l: Limits, bytes: Bytes)
    ensures Feed(l, FRESH, bytes).lines == Interrupted(l, bytes)
  {
    FeedClosedForm(l, bytes);
    EarlyIsFed(l, Remainder(bytes));
  }

  /** The lines of one run from state `p`. */
  ghost function FedRun(l: Limits, p: Parser, bytes: Bytes, last: bool): seq<Line>
  {
    var o := Feed(l, p, bytes);
    o.lines + if last then Flush(o.parser) else []
  }

  ghost function FedRuns(l: Limits, runs: seq<Bytes>): seq<Line>
  {
    if runs == [] then [] else FedRun(l, RESYNC, runs[0], |runs| == 1) + FedRuns(l, runs[1..])
  }

  lemma {:induction false} DriveRuns(l: Limits, p: Parser, events: seq<StreamEvent>)
    requires Ongoing(events)
    ensures var runs := Runs(events);
            Drive(l, p, events + [Eof]) == FedRun(l, p, runs[0], |runs| == 1) + FedRuns(l, runs[1..])
    decreases |events|
  {
    if events == [] {
      assert events + [Eof] == [Eof];
    } else if events[0].Gap? {
      var rest := events[1..];
      assert (events + [Eof])[1..] == rest + [Eof];
      DriveRuns(l, RESYNC, rest);
      assert Runs(events)[1..] == Runs(rest);
    } else {
      var rest := events[1..];
      assert (events + [Eof])[1..] == rest + [Eof];
      var first := Feed(l, p, events[0].bytes);
      var runs := Runs(rest);
      DriveRuns(l, first.parser, rest);
      assert Runs(events) == [events[0].bytes + runs[0]] + runs[1..];
      ChunkThenRun(l, p, events[0].bytes, runs[0], |runs| == 1);
      Assoc(first.lines, FedRun(l, first.parser, runs[0], |runs| == 1), FedRuns(l, runs[1..]));
    }
  }

  /** A chunk at the start of a run. */
  lemma ChunkThenRun(l: Limits, p: Parser, chunk: Bytes, run: Bytes, last: bool)
    ensures var first := Feed(l, p, chunk);
            FedRun(l, p, chunk + run, last) == first.lines + FedRun(l, first.parser, run, last)
  {
    FeedAppend(l, p, chunk, run);
    var first := Feed(l, p, chunk);
    var o := Feed(l, first.parser, run);
    Assoc(first.lines, o.lines, if last then Flush(o.parser) else []);
  }

  lemma {:induction false} FedRunsClosedForm(l: Limits, runs: seq<Bytes>)
    ensures FedRuns(l, runs) == ResyncedLines(l, runs)
  {
    if runs != [] {
      FedRunsClosedForm(l, runs[1..]);
      ResyncClosedForm(l, runs[0]);
      var after := AfterNewline(runs[0]);
      if after.Some? {
        FedRunClosedForm(l, after.value, |runs| == 1);
      }
    }
  }

  lemma FedRunClosedForm(l: Limits, bytes: Bytes, last: bool)
    ensures FedRun(l, FRESH, bytes, last) == RunLines(l, bytes, last)
  {
    InterruptedIsFed(l, bytes);
    ParserRefinesClosedForm(l, bytes);
  }

  /** Each line comes from the bytes of a single run between gaps, and a run after a gap
      contributes exactly the lines of what follows its first newline. */
  lemma GapClosedForm(l: Limits, events: seq<StreamEvent>)
    requires Ongoing(events)
    ensures var runs := Runs(events);
            Drive(l, FRESH, events + [Eof]) == RunLines(l, runs[0], |runs| == 1) + ResyncedLines(l, runs[1..])
  {
    var runs := Runs(events);
    DriveRuns(l, FRESH, events);
    FedRunsClosedForm(l, runs[1..]);
    FedRunClosedForm(l, runs[0], |runs| == 1);
  }

  // ------------------------------------------------------------------------- lost bytes

  /** `events` can result from a byte string by cutting it into chunks and losing some bytes,
      possibly none, at every gap and nowhere else. */
  ghost predicate Thins(events: seq<StreamEvent>, bytes: Bytes)
    decreases |events|
  {
    if events == [] then bytes == []
    else match events[0]
      case Chunk(c) => c <= bytes && Thins(events[1..], bytes[|c|..])
      case Gap => exists k :: 0 <= k <= |bytes| && Thins(events[1..], bytes[k..])
      case Eof => false
      case ReadError(_) => false
  }

  /** The parser that saw gaps is in step with the one that saw everything, or waits to
      resynchronise. */
  predicate InStep(full: Parser, gapped: Parser)
  {
    gapped == full || gapped == RESYNC
  }

  lemma {:induction false} FeedInStep(l: Limits, full: Parser, gapped: Parser, bytes: Bytes)
    requires WellFormed(l, full) && InStep(full, gapped)
    ensures var f, g := Feed(l, full, bytes), Feed(l, gapped, bytes);
            Subsequence(g.lines, f.lines) && InStep(f.parser, g.parser) && WellFormed(l, f.parser)
    decreases |bytes|
  {
    if gapped == full {
      FeedWellFormed(l, full, bytes);
      Reflexive(Feed(l, full, bytes).lines);
    } else if bytes != [] {
      var f, g := Step(l, full, bytes[0]), Step(l, gapped, bytes[0]);
      FeedInStep(l, f.parser, g.parser, bytes[1..]);
      Append(g.lines, f.lines, Feed(l, g.parser, bytes[1..]).lines, Feed(l, f.parser, bytes[1..]).lines);
    }
  }

  /** The lines and the parser after events that do not end the stream. */
  ghost function After(l: Limits, p: Parser, events: seq<StreamEvent>): (o: Outcome)
    requires Ongoing(events)
    decreases |events|
  {
    if events == [] then Outcome([], p)
    else if events[0].Gap? then After(l, RESYNC, events[1..])
    else
      var first := Feed(l, p, events[0].bytes);
      var rest := After(l, first.parser, events[1..]);
      Outcome(first.lines + rest.lines, rest.parser)
  }

  /** What follows adds a flushed line or nothing. */
  lemma {:induction false} OfferedAfter(l: Limits, p: Parser, events: seq<StreamEvent>, end: seq<StreamEvent>)
    requires Ongoing(events) && (end == [] || (|end| == 1 && end[0].IsTerminal()))
    ensures var o := After(l, p, events);
            Offered(l, p, events + end) == o.lines + if end == [Eof] then Flush(o.parser) else []
    ensures end != [] ==> Drive(l, p, events + end) == Offered(l, p, events + end)
    decreases |events|
  {
    if events == [] {
      assert events + end == end;
    } else {
      var rest := events[1..];
      assert (events + end)[1..] == rest + end;
      if events[0].Gap? {
        OfferedAfter(l, RESYNC, rest, end);
      } else {
        var first := Feed(l, p, events[0].bytes);
        OfferedAfter(l, first.parser, rest, end);
        var o := After(l, first.parser, rest);
        Assoc(first.lines, o.lines, if end == [Eof] then Flush(o.parser) else []);
      }
    }
  }

  lemma {:induction false} ThinsOngoing(events: seq<StreamEvent>, bytes: Bytes)
    requires Thins(events, bytes)
    ensures Ongoing(events)
    decreases |events|
  {
    if events != [] {
      if events[0].Chunk? {
        ThinsOngoing(events[1..], bytes[|events[0].bytes|..]);
      } else {
        var k :| 0 <= k <= |bytes| && Thins(events[1..], bytes[k..]);
        ThinsOngoing(events[1..], bytes[k..]);
      }
      assert forall i :: 1 <= i < |events| ==> events[i] == events[1..][i-1];
    }
  }

  /** A parser that lost bytes at gaps has emitted some of the lines, and stays in step. */
  lemma {:induction false} AfterThinned(l: Limits, full: Parser, gapped: Parser, events: seq<StreamEvent>, bytes: Bytes)
    requires WellFormed(l, full) && InStep(full, gapped)
    requires Thins(events, bytes) && Ongoing(events)
    ensures var f, g := Feed(l, full, bytes), After(l, gapped, events);
            Subsequence(g.lines, f.lines) && InStep(f.parser, g.parser)
    decreases |events|
  {
    if events != [] {
      var rest := events[1..];
      if events[0].Chunk? {
        var c := events[0].bytes;
        var f, g := Feed(l, full, c), Feed(l, gapped, c);
        FeedInStep(l, full, gapped, c);
        AfterThinned(l, f.parser, g.parser, rest, bytes[|c|..]);
        assert bytes == c + bytes[|c|..];
        FeedAppend(l, full, c, bytes[|c|..]);
        Append(g.lines, f.lines, After(l, g.parser, rest).lines, Feed(l, f.parser, bytes[|c|..]).lines);
      } else {
        var k :| 0 <= k <= |bytes| && Thins(rest, bytes[k..]);
        var f := Feed(l, full, bytes[..k]);
        FeedWellFormed(l, full, bytes[..k]);
        AfterThinned(l, f.parser, RESYNC, rest, bytes[k..]);
        assert bytes == bytes[..k] + bytes[k..];
        FeedAppend(l, full, bytes[..k], bytes[k..]);
        var lines := After(l, RESYNC, rest).lines;
        Append([], f.lines, lines, Feed(l, f.parser, bytes[k..]).lines);
        assert [] + lines == lines;
      }
    }
  }

  /** A consumer that lost bytes at gaps sees a subsequence of the lines of the full stream. */
  lemma GapsNeverInventLines(l: Limits, events: seq<StreamEvent>, bytes: Bytes)
    requires Thins(events, bytes)
    ensures Subsequence(Drive(l, FRESH, events + [Eof]), Lines(l, bytes))
  {
    ThinsOngoing(events, bytes);
    AfterThinned(l, FRESH, FRESH, events, bytes);
    OfferedAfter(l, FRESH, events, [Eof]);
    ParserRefinesClosedForm(l, bytes);
    var f, g := Feed(l, FRESH, bytes), After(l, FRESH, events);
    Reflexive(Flush(f.parser));
    Append(g.lines, f.lines, Flush(g.parser), Flush(f.parser));
  }

  /** Neither does one that is still reading, or whose stream failed: the lines offered so far are a
      subsequence of the lines of any continuation. */
  lemma UnfinishedNeverInventsLines(l: Limits, events: seq<StreamEvent>, end: seq<StreamEvent>, bytes: Bytes,
                                    more: Bytes)
    requires Thins(events, bytes) && (end == [] || (|end| == 1 && end[0].ReadError?))
    ensures Subsequence(Offered(l, FRESH, events + end), Lines(l, bytes + more))
  {
    ThinsOngoing(events, bytes);
    AfterThinned(l, FRESH, FRESH, events, bytes);
    OfferedAfter(l, FRESH, events, end);
    var f, g := Feed(l, FRESH, bytes), After(l, FRESH, events);
    assert Offered(l, FRESH, events + end) == g.lines + [];
    LinesExtend(l, bytes, more);
    var rest :| Lines(l, bytes + more) == f.lines + rest;
    Append(g.lines, f.lines, [], rest);
  }

  /** Further input only adds lines to those already emitted. */
  lemma LinesExtend(l: Limits, bytes: Bytes, more: Bytes)
    ensures exists rest :: Lines(l, bytes + more) == Feed(l, FRESH, bytes).lines + rest
  {
    var first := Feed(l, FRESH, bytes);
    var second := Feed(l, first.parser, more);
    FeedAppend(l, FRESH, bytes, more);
    ParserRefinesClosedForm(l, bytes + more);
    Assoc(first.lines, second.lines, Flush(second.parser));
    assert Lines(l, bytes + more) == first.lines + (second.lines + Flush(second.parser));
  }

  /** Gaps inserted at any positions, without any loss, are a special case. */
  lemma {:induction false} GapsAloneThin(events: seq<StreamEvent>)
    requires Ongoing(events)
    ensures Thins(events, Payload(events))
  {
    if events != [] {
      GapsAloneThin(events[1..]);
      var bytes := Payload(events);
      if events[0].Chunk? {
        assert bytes[|events[0].bytes|..] == Payload(events[1..]);
      } else {
        assert bytes[0..] == Payload(events[1..]);
      }
    }
  }

  /** The gapped output on some chunks is a subsequence of the output on the same chunks. */
  lemma GapsOnlyRemoveLines(l: Limits, events: seq<StreamEvent>)
    requires Ongoing(events)
    ensures Subsequence(Drive(l, FRESH, events + [Eof]), Lines(l, Payload(events)))
  {
    GapsAloneThin(events);
    GapsNeverInventLines(l, events, Payload(events));
  }
}
