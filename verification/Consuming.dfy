/** The line adapter and the consumer loop that drives it, and waiting for a line. */
module Consuming {
  import opened Events
  import opened LineSpec
  import opened ParserMachine
  import opened GapParsing
  import opened LineParsing

  datatype Next = Continue | Break

  datatype Result<+T> = Ok(value: T) | Err(error: int)

  /** A line visitor: how its state reacts to one line. */
  type OnLine<!V> = (V, Line) -> (V, Next)

  /** Offers `lines` one by one until the visitor breaks. */
  function Visit<V>(onLine: OnLine<V>, v: V, lines: seq<Line>): (r: (V, Next))
    decreases |lines|
  {
    if lines == [] then (v, Continue)
    else
      var (w, next) := onLine(v, lines[0]);
      if next.Break? then (w, Break) else Visit(onLine, w, lines[1..])
  }

  lemma {:induction false} VisitAppend<V>(onLine: OnLine<V>, v: V, a: seq<Line>, b: seq<Line>)
    ensures Visit(onLine, v, a + b) ==
              var (w, next) := Visit(onLine, v, a);
              if next.Break? then (w, Break) else Visit(onLine, w, b)
    decreases |a|
  {
    if a == [] {
      assert a + b == b;
    } else {
      assert (a + b)[1..] == a[1..] + b;
      VisitAppend(onLine, onLine(v, a[0]).0, a[1..], b);
    }
  }

  lemma VisitOne<V>(onLine: OnLine<V>, v: V, line: Line, rest: seq<Line>)
    ensures Visit(onLine, v, [line] + rest) ==
              var (w, next) := onLine(v, line);
              if next.Break? then (w, Break) else Visit(onLine, w, rest)
  {
    assert ([line] + rest)[1..] == rest;
  }

  /** The read error that ends `events`, if that is what ends them. */
  function ReadFailure(events: seq<StreamEvent>): (e: Option<int>)
  {
    if events == [] then None
    else match events[0]
      case ReadError(code) => Some(code)
      case Eof => None
      case _ => ReadFailure(events[1..])
  }

  /** The bytes of the chunks before the event that ends the stream. */
  function Observed(events: seq<StreamEvent>): (bytes: Bytes)
  {
    if events == [] then []
    else match events[0]
      case Chunk(bytes) => bytes + Observed(events[1..])
      case Gap => Observed(events[1..])
      case Eof => []
      case ReadError(_) => []
  }

  /** The position of the event that ends the stream, or the number of events if none does. */
  function EndAt(events: seq<StreamEvent>): (n: nat)
    ensures n <= |events| && Ongoing(events[..n]) && (n < |events| ==> events[n].IsTerminal())
  {
    if events == [] || events[0].IsTerminal() then 0
    else
      var n := 1 + EndAt(events[1..]);
      assert forall i :: 0 < i < n ==> events[i] == events[1..][..n - 1][i - 1];
      n
  }

  /** What a consumer observes are the bytes of all chunks before the end, gaps or not, and it fails
      exactly if the event that ends the stream is a read error. */
  lemma {:induction false} ObservedBeforeEnd(events: seq<StreamEvent>)
    ensures var n := EndAt(events);
            && Observed(events) == Payload(events[..n])
            && ReadFailure(events) == (if n < |events| && events[n].ReadError? then Some(events[n].error) else None)
  {
    if events != [] && !events[0].IsTerminal() {
      var n := EndAt(events[1..]);
      ObservedBeforeEnd(events[1..]);
      assert events[..n + 1][1..] == events[1..][..n];
    }
  }

  /** The visitor's state after some lines, unless the stream fails before the visitor breaks. */
  function Yielded<V>(onLine: OnLine<V>, v: V, lines: seq<Line>, failure: Option<int>): (r: Result<V>)
  {
    var (w, next) := Visit(onLine, v, lines);
    if failure.Some? && next.Continue? then Err(failure.value) else Ok(w)
  }

  /** What a consumer yields that handles a whole stream. */
  function Consumed<V>(l: Limits, p: Parser, onLine: OnLine<V>, v: V, events: seq<StreamEvent>): (r: Result<V>)
  {
    Yielded(onLine, v, Drive(l, p, events), ReadFailure(events))
  }

  /** What a consumer yields that is cancelled once it has handled `events`, unless it is done by
      then: nothing is flushed. */
  function Cancelled<V>(l: Limits, p: Parser, onLine: OnLine<V>, v: V, events: seq<StreamEvent>): (r: Result<V>)
  {
    Yielded(onLine, v, Offered(l, p, events), ReadFailure(events))
  }

  /** A line visitor with its hooks for gaps and for the end of the stream. */
  datatype LineVisitor<!V> = LineVisitor(onLine: OnLine<V>, onGap: V -> V, onEof: V -> V)

  /** What a consumer yields, event by event. The end of `events` is the closed subscription or, if
      `cancelled`, the point at which the cancellation signal wins the race with the next event. */
  function ConsumerOutcome<V>(l: Limits, p: Parser, visitor: LineVisitor<V>, v: V, events: seq<StreamEvent>,
                              cancelled: bool): (r: Result<V>)
    decreases |events|
  {
    if events == [] then
      if cancelled then Ok(v) else Ok(visitor.onEof(Visit(visitor.onLine, v, Flush(p)).0))
    else match events[0]
      case Chunk(bytes) =>
        var o := Feed(l, p, bytes);
        var (w, next) := Visit(visitor.onLine, v, o.lines);
        if next.Break? then Ok(w) else ConsumerOutcome(l, o.parser, visitor, w, events[1..], cancelled)
      case Gap => ConsumerOutcome(l, RESYNC, visitor, visitor.onGap(v), events[1..], cancelled)
      case Eof => Ok(visitor.onEof(Visit(visitor.onLine, v, Flush(p)).0))
      case ReadError(code) => Err(code)
  }

  /** The visitor's hooks do nothing, as those of all visitors of the library. */
  ghost predicate WithoutHooks<V(!new)>(visitor: LineVisitor<V>)
  {
    forall v :: visitor.onGap(v) == v && visitor.onEof(v) == v
  }

  /** Without hooks, a consumer yields what the visitor makes of the parsed lines of the stream. */
  lemma {:induction false} OutcomeIsVisit<V(!new)>(l: Limits, p: Parser, visitor: LineVisitor<V>, v: V,
                                                   events: seq<StreamEvent>)
    requires WithoutHooks(visitor)
    ensures ConsumerOutcome(l, p, visitor, v, events, false) == Consumed(l, p, visitor.onLine, v, events)
    ensures ConsumerOutcome(l, p, visitor, v, events, true) == Cancelled(l, p, visitor.onLine, v, events)
    decreases |events|
  {
    if events != [] {
      var rest := events[1..];
      if events[0].Chunk? {
        var o := Feed(l, p, events[0].bytes);
        VisitAppend(visitor.onLine, v, o.lines, Drive(l, o.parser, rest));
        VisitAppend(visitor.onLine, v, o.lines, Offered(l, o.parser, rest));
        OutcomeIsVisit(l, o.parser, visitor, Visit(visitor.onLine, v, o.lines).0, rest);
      } else if events[0].Gap? {
        OutcomeIsVisit(l, RESYNC, visitor, v, rest);
      }
    }
  }

  /** Adapts a line visitor to a visitor of chunks and gaps. */
  class ParseLines<V(0)> {
    const parser: LineParser
    const options: LineParsingOptions
    const visitor: LineVisitor<V>
    var inner: V

    predicate Valid()
      reads this, parser
    {
      parser.Valid(options.Bounds())
    }

    constructor (options: LineParsingOptions, visitor: LineVisitor<V>, inner: V)
      requires options.maxLineLength > 0
      ensures Valid() && fresh(parser) && parser.View() == FRESH
      ensures this.options == options && this.visitor == visitor && this.inner == inner
    {
      this.options, this.visitor, this.inner := options, visitor, inner;
      parser := new LineParser();
    }

    /** Offers exactly the lines that the chunk completes, stopping at the first break. */
    method OnChunk(chunk: Bytes) returns (next: Next)
      requires Valid()
      modifies this, parser
      ensures Valid()
      ensures (inner, next)
           == Visit(visitor.onLine, old(inner), Feed(options.Bounds(), old(parser.View()), chunk).lines)
      ensures next.Continue? ==> parser.View() == Feed(options.Bounds(), old(parser.View()), chunk).parser
    {
      ghost var l := options.Bounds();
      var rest := chunk;
      while true
        invariant Valid()
        invariant Visit(visitor.onLine, old(inner), Feed(l, old(parser.View()), chunk).lines)
               == Visit(visitor.onLine, inner, Feed(l, parser.View(), rest).lines)
        invariant Feed(l, old(parser.View()), chunk).parser == Feed(l, parser.View(), rest).parser
        decreases |rest|, if IsFull(l, parser.View()) then 1 else 0
      {
        ghost var before := inner;
        var line;
        line, rest := parser.NextLine(rest, options);
        if line.None? {
          return Continue;
        }
        VisitOne(visitor.onLine, before, line.value, Feed(l, parser.View(), rest).lines);
        var (v, verdict) := visitor.onLine(inner, line.value);
        inner := v;
        if verdict.Break? {
          return Break;
        }
      }
    }

    method OnGap()
      requires Valid()
      modifies this, parser
      ensures Valid() && parser.View() == RESYNC && inner == visitor.onGap(old(inner))
    {
      parser.OnGap();
      inner := visitor.onGap(inner);
    }

    /** Offers the flushed line and then the end; a break is ignored since nothing follows. */
    method OnEof()
      requires Valid()
      modifies this, parser
      ensures inner == visitor.onEof(Visit(visitor.onLine, old(inner), Flush(old(parser.View()))).0)
    {
      var line := parser.Finish();
      if line.Some? {
        var (v, _) := visitor.onLine(inner, line.value);
        inner := v;
      }
      inner := visitor.onEof(inner);
    }
  }

  /** Drives the adapter over the events of a subscription until the end of the stream, a break, a
      read error or cancellation. */
  method ConsumeSync<V(0)>(events: seq<StreamEvent>, cancelled: bool, adapter: ParseLines<V>) returns (r: Result<V>)
    requires adapter.Valid()
    modifies adapter, adapter.parser
    ensures r == ConsumerOutcome(adapter.options.Bounds(), old(adapter.parser.View()), adapter.visitor,
                                 old(adapter.inner), events, cancelled)
  {
    ghost var l := adapter.options.Bounds();
    var unread := events;
    while true
      invariant adapter.Valid()
      invariant ConsumerOutcome(l, old(adapter.parser.View()), adapter.visitor, old(adapter.inner), events, cancelled)
             == ConsumerOutcome(l, adapter.parser.View(), adapter.visitor, adapter.inner, unread, cancelled)
      decreases |unread|
    {
      if unread == [] {
        if !cancelled {
          adapter.OnEof();
        }
        break;
      }
      match unread[0] {
        case Chunk(bytes) =>
          var next := adapter.OnChunk(bytes);
          if next.Break? {
            break;
          }
        case Gap => adapter.OnGap();
        case Eof =>
          adapter.OnEof();
          break;
        case ReadError(code) => return Err(code);
      }
      unread := unread[1..];
    }
    r := Ok(adapter.inner);
  }

  // ------------------------------------------------------------------------- waiting for a line

  /** The line waiter's state; `consulted` records the lines its predicate was asked about. */
  datatype WaitState = WaitState(matched: bool, consulted: seq<Line>)

  /** The line waiter: breaks at the first line whose decoded text is accepted. */
  function WaitForLine<T>(decode: Line -> T, accepts: T -> bool): (onLine: OnLine<WaitState>)
  {
    (w: WaitState, line: Line) =>
      if accepts(decode(line)) then (WaitState(true, w.consulted + [line]), Break)
      else (WaitState(w.matched, w.consulted + [line]), Continue)
  }

  predicate NoneAccepted<T>(decode: Line -> T, accepts: T -> bool, lines: seq<Line>)
  {
    forall i :: 0 <= i < |lines| ==> !accepts(decode(lines[i]))
  }

  /** The first line whose decoded text is accepted, or the number of lines. */
  function FirstAccepted<T>(decode: Line -> T, accepts: T -> bool, lines: seq<Line>): (k: nat)
    ensures k <= |lines| && NoneAccepted(decode, accepts, lines[..k])
    ensures k < |lines| ==> accepts(decode(lines[k]))
  {
    if lines == [] || accepts(decode(lines[0])) then 0 else 1 + FirstAccepted(decode, accepts, lines[1..])
  }

  /** The waiter breaks at the first accepted line and asks about no line after it. */
  lemma {:induction false} WaitVisit<T>(decode: Line -> T, accepts: T -> bool, asked: seq<Line>, lines: seq<Line>)
    ensures Visit(WaitForLine(decode, accepts), WaitState(false, asked), lines) ==
              var k := FirstAccepted(decode, accepts, lines);
              if k < |lines| then (WaitState(true, asked + lines[..k+1]), Break)
              else (WaitState(false, asked + lines), Continue)
    decreases |lines|
  {
    if lines == [] {
      assert asked + lines == asked;
    } else if accepts(decode(lines[0])) {
      assert lines[..0+1] == [lines[0]];
    } else {
      var k := FirstAccepted(decode, accepts, lines[1..]);
      WaitVisit(decode, accepts, asked + [lines[0]], lines[1..]);
      assert asked + [lines[0]] + lines[1..] == asked + lines;
      if k < |lines[1..]| {
        assert asked + [lines[0]] + lines[1..][..k+1] == asked + lines[..k+2];
      }
    }
  }

  /** Waiting over a whole stream: it reports a match exactly if some parsed line (including the one
      flushed at the end) is accepted, having asked about the lines up to the first match and no
      further, and fails exactly if the stream fails before any match. */
  lemma {:induction false} LineWaiting<T>(l: Limits, decode: Line -> T, accepts: T -> bool, events: seq<StreamEvent>)
    ensures Consumed(l, FRESH, WaitForLine(decode, accepts), WaitState(false, []), events) ==
              var lines := Drive(l, FRESH, events);
              var k := FirstAccepted(decode, accepts, lines);
              if k < |lines| then Ok(WaitState(true, lines[..k+1]))
              else if ReadFailure(events).Some? then Err(ReadFailure(events).value)
              else Ok(WaitState(false, lines))
  {
    var lines := Drive(l, FRESH, events);
    var k := FirstAccepted(decode, accepts, lines);
    WaitVisit(decode, accepts, [], lines);
    assert [] + lines == lines;
    if k < |lines| {
      assert [] + lines[..k+1] == lines[..k+1];
    }
  }

  /** Runs the consumer loop with the line waiter over the events of a subscription. */
  method WaitOver<T>(events: seq<StreamEvent>, options: LineParsingOptions, decode: Line -> T, accepts: T -> bool)
    returns (r: Result<WaitState>)
    requires options.maxLineLength > 0
    ensures var lines := Drive(options.Bounds(), FRESH, events);
            var k := FirstAccepted(decode, accepts, lines);
            r == if k < |lines| then Ok(WaitState(true, lines[..k+1]))
                 else if ReadFailure(events).Some? then Err(ReadFailure(events).value)
                 else Ok(WaitState(false, lines))
  {
    var visitor := LineVisitor(WaitForLine(decode, accepts), (w: WaitState) => w, (w: WaitState) => w);
    var adapter := new ParseLines(options, visitor, WaitState(false, []));
    r := ConsumeSync(events, false, adapter);
    OutcomeIsVisit(options.Bounds(), FRESH, visitor, WaitState(false, []), events);
    LineWaiting(options.Bounds(), decode, accepts, events);
  }
}
