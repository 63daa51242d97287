/** Collectors end to end: what a collecting consumer of a reliable stream ends up with. */
module CollectorTheorems {
  import opened Events
  import opened LineSpec
  import opened ParserMachine
  import opened GapParsing
  import opened LineParsing
  import opened Consuming
  import opened Collecting
  import opened Coverage
  import opened Fanout
  import opened FanoutTheorems
  import opened SingleSubscriber
  import opened SingleTheorems

  // ------------------------------------------------------------------------- lines

  /** The collecting visitor, which never breaks. */
  function CollectLines(decode: Line -> Text, options: LineCollectionOptions): (onLine: OnLine<LineCollection>)
  {
    (c: LineCollection, line: Line) => (WithLine(c, decode(line), options), Continue)
  }

  function Decoded(decode: Line -> Text, lines: seq<Line>): (texts: seq<Text>)
  {
    if lines == [] then [] else [decode(lines[0])] + Decoded(decode, lines[1..])
  }

  /** Collecting line by line arrives at the closed form of all the lines. */
  lemma {:induction false} CollectVisit(decode: Line -> Text, options: LineCollectionOptions, observed: seq<Text>,
                                        lines: seq<Line>)
    ensures Visit(CollectLines(decode, options), RetainedLines(observed, options), lines)
         == (RetainedLines(observed + Decoded(decode, lines), options), Continue)
    decreases |lines|
  {
    if lines == [] {
      assert observed + Decoded(decode, lines) == observed;
    } else {
      var text := decode(lines[0]);
      OneMoreLine(observed, text, options);
      CollectVisit(decode, options, observed + [text], lines[1..]);
      Assoc(observed, [text], Decoded(decode, lines[1..]));
    }
  }

  /** What a collecting consumer of `events` ends up with. */
  function LinesCollected(l: Limits, decode: Line -> Text, options: LineCollectionOptions, events: seq<StreamEvent>)
    : (r: Result<LineCollection>)
  {
    Consumed(l, FRESH, CollectLines(decode, options), RetainedLines([], options), events)
  }

  /** Runs the consumer loop with the collecting visitor over the events of a subscription. */
  method CollectOver(events: seq<StreamEvent>, parsing: LineParsingOptions, decode: Line -> Text,
                     options: LineCollectionOptions) returns (r: Result<LineCollection>)
    requires parsing.maxLineLength > 0
    ensures r == LinesCollected(parsing.Bounds(), decode, options, events)
    ensures ReadFailure(events).None? ==>
              r == Ok(RetainedLines(Decoded(decode, Drive(parsing.Bounds(), FRESH, events)), options))
    ensures ReadFailure(events).Some? ==> r == Err(ReadFailure(events).value)
  {
    var start := LineCollection([], false);
    var visitor :=
      LineVisitor(CollectLines(decode, options), (c: LineCollection) => c, (c: LineCollection) => c);
    var adapter := new ParseLines(parsing, visitor, start);
    r := ConsumeSync(events, false, adapter);
    assert start == RetainedLines([], options);
    OutcomeIsVisit(parsing.Bounds(), FRESH, visitor, start, events);
    var lines := Drive(parsing.Bounds(), FRESH, events);
    CollectVisit(decode, options, [], lines);
    assert [] + Decoded(decode, lines) == Decoded(decode, lines);
  }

  lemma ExactCollection(l: Limits, decode: Line -> Text, options: LineCollectionOptions,
                        events: seq<StreamEvent>, bytes: Bytes)
    requires SeesExactly(l, CollectLines(decode, options), RetainedLines([], options), events, bytes)
    ensures LinesCollected(l, decode, options, events) == Ok(RetainedLines(Decoded(decode, Lines(l, bytes)), options))
  {
    CollectVisit(decode, options, [], Lines(l, bytes));
    assert [] + Decoded(decode, Lines(l, bytes)) == Decoded(decode, Lines(l, bytes));
  }

  // ------------------------------------------------------------------------- bytes

  /** What a consumer collecting raw bytes ends up with. */
  function BytesCollected(options: RawCollectionOptions, events: seq<StreamEvent>): (r: Result<ByteCollection>)
  {
    if ReadFailure(events).Some? then Err(ReadFailure(events).value) else Ok(Retained(Observed(events), options))
  }

  /** Drives a byte collector over the events of a subscription. A gap leaves it as it is. */
  method CollectBytes(options: RawCollectionOptions, events: seq<StreamEvent>) returns (r: Result<ByteCollection>)
    ensures r == BytesCollected(options, events)
  {
    var collected := new CollectedBytes();
    ghost var seen: Bytes := [];
    var unread := events;
    while unread != []
      invariant fresh(collected) && collected.View() == Retained(seen, options)
      invariant Observed(events) == seen + Observed(unread) && ReadFailure(events) == ReadFailure(unread)
      decreases |unread|
    {
      match unread[0] {
        case Chunk(bytes) =>
          Assoc(seen, bytes, Observed(unread[1..]));
          OneMoreChunk(seen, bytes, options);
          collected.PushChunk(bytes, options);
          seen := seen + bytes;
        case Gap =>
        case Eof =>
          assert seen + Observed(unread) == seen;
          return Ok(collected.View());
        case ReadError(code) =>
          return Err(code);
      }
      unread := unread[1..];
    }
    assert seen + Observed(unread) == seen;
    r := Ok(collected.View());
  }

  // ------------------------------------------------------------------------- end to end

  /** Collecting from the start of a reliable broadcast subscription to its end depends only on the
      bytes the child wrote and on the options. */
  lemma BroadcastCollectors(c: Config, s: System, h: nat, l: Limits, decode: Line -> Text,
                            lineOptions: LineCollectionOptions, rawOptions: RawCollectionOptions)
    requires ValidConfig(c) && Reachable(c, s) && h < |s.subscriptions| && c.delivery.ReliableWithBackpressure?
    requires s.subscriptions[h].from == 0 && EndsWithEof(s.subscriptions[h].received)
    ensures var events := Unlabelled(s.subscriptions[h].received);
            && LinesCollected(l, decode, lineOptions, events)
               == Ok(RetainedLines(Decoded(decode, Lines(l, s.ingested)), lineOptions))
            && BytesCollected(rawOptions, events) == Ok(Retained(s.ingested, rawOptions))
  {
    ReliableLinesAreExact(c, s, h, l, CollectLines(decode, lineOptions), RetainedLines([], lineOptions));
    ExactCollection(l, decode, lineOptions, Unlabelled(s.subscriptions[h].received), s.ingested);
  }

  /** The same of the single-subscriber backend. */
  lemma SingleSubscriberCollectors(c: Config, s: Stream, id: nat, l: Limits, decode: Line -> Text,
                                   lineOptions: LineCollectionOptions, rawOptions: RawCollectionOptions)
    requires ValidConfig(c) && CanReach(c, s) && id < |s.subscribers| && c.delivery.ReliableWithBackpressure?
    requires EndsWithEof(s.subscribers[id].received) && |s.subscribers[id].received| == |s.log|
    ensures var events := Unlabelled(s.subscribers[id].received);
            && LinesCollected(l, decode, lineOptions, events)
               == Ok(RetainedLines(Decoded(decode, Lines(l, s.ingested)), lineOptions))
            && BytesCollected(rawOptions, events) == Ok(Retained(s.ingested, rawOptions))
  {
    var from := SingleLinesAreExact(c, s, id, l, CollectLines(decode, lineOptions), RetainedLines([], lineOptions));
    ExactCollection(l, decode, lineOptions, Unlabelled(s.subscribers[id].received), s.ingested);
  }
}
