/** The chunk-at-a-time line parser with its two buffers, refining the byte machine. */
module LineParsing {
  import opened Events
  import opened LineSpec
  import opened ParserMachine

  datatype LineParsingOptions = LineParsingOptions(
    maxLineLength: nat,
    overflowBehavior: LineOverflowBehavior,
    bufferCompactionThreshold: Option<nat>)
  {
    function Bounds(): Limits {
      Limits(maxLineLength, overflowBehavior)
    }
  }

  /** A growable buffer: its contents and the size of its allocation. */
  datatype BytesMut = BytesMut(bytes: Bytes, capacity: nat)

  const EMPTY_BUFFER := BytesMut([], 0)

  /** Appends to a buffer. How far the allocation grows is up to the allocator. */
  method ExtendFromSlice(buffer: BytesMut, slice: Bytes) returns (extended: BytesMut)
    ensures extended.bytes == buffer.bytes + slice
    ensures extended.capacity >= buffer.capacity && extended.capacity >= |extended.bytes|
  {
    var capacity: nat :| capacity >= buffer.capacity + |buffer.bytes| + |slice|;
    extended := BytesMut(buffer.bytes + slice, capacity);
  }

  ghost predicate Suffix(rest: Bytes, whole: Bytes)
  {
    |rest| <= |whole| && rest == whole[|whole| - |rest|..]
  }

  lemma SuffixOfSuffix(rest: Bytes, middle: Bytes, whole: Bytes)
    requires Suffix(rest, middle) && Suffix(middle, whole)
    ensures Suffix(rest, whole)
  {
  }

  ghost function Prepend(line: Line, o: Outcome): Outcome
  {
    Outcome([line] + o.lines, o.parser)
  }

  // ------------------------------------------------------------- one lemma per branch of the loop

  lemma SkipToNewline(l: Limits, chunk: Bytes, pos: nat)
    requires pos == NewlineAt(chunk) < |chunk|
    ensures Feed(l, RESYNC, chunk) == Feed(l, FRESH, chunk[pos+1..])
  {
    ResyncClosedForm(l, chunk);
  }

  lemma SkipDelimiter(l: Limits, chunk: Bytes)
    requires chunk != [] && chunk[0] == NEWLINE
    ensures Feed(l, Parser([], PendingLimitDelimiter), chunk) == Feed(l, FRESH, chunk[1..])
  {
    var rest := Feed(l, FRESH, chunk[1..]);
    assert [] + rest.lines == rest.lines;
  }

  lemma EmitFullLine(l: Limits, p: Parser, chunk: Bytes)
    requires WellFormed(l, p) && IsFull(l, p) && chunk != []
    ensures Feed(l, p, chunk) == Prepend(p.buffer, Feed(l, RESYNC, chunk))
  {
    var after := Step(l, p, chunk[0]).parser;
    assert Step(l, RESYNC, chunk[0]) == Outcome([], after);
    var rest := Feed(l, after, chunk[1..]);
    assert [] + rest.lines == rest.lines;
  }

  lemma EndLine(l: Limits, buffer: Bytes, scan: Bytes, chunk: Bytes, pos: nat)
    requires scan <= chunk && pos == NewlineAt(scan) < |scan|
    requires l.max == 0 || |buffer| + |scan| <= l.max
    ensures Feed(l, Parser(buffer, ReadingLine), chunk) == Prepend(buffer + scan[..pos], Feed(l, FRESH, chunk[pos+1..]))
  {
    var p, head := Parser(buffer, ReadingLine), scan[..pos];
    assert chunk[..pos] == head;
    NewlineAtUnique(chunk, pos);
    SplitAtNewline(chunk);
    BufferScan(l, buffer, head);
    FeedOne(l, Parser(buffer + head, ReadingLine), NEWLINE);
    FeedAppend(l, p, head, [NEWLINE]);
    assert Feed(l, p, head + [NEWLINE]) == Outcome([buffer + head], FRESH);
    FeedAppend(l, p, head + [NEWLINE], chunk[pos+1..]);
  }

  lemma KeepScanning(l: Limits, buffer: Bytes, scan: Bytes, chunk: Bytes)
    requires scan <= chunk && NEWLINE !in scan
    requires l.max == 0 || |buffer| + |scan| < l.max || (|buffer| + |scan| == l.max && l.overflow.DropAdditionalData?)
    ensures Feed(l, Parser(buffer, ReadingLine), chunk) == Feed(l, Parser(buffer + scan, ReadingLine), chunk[|scan|..])
  {
    assert chunk == scan + chunk[|scan|..];
    BufferScan(l, buffer, scan);
    FeedAppend(l, Parser(buffer, ReadingLine), scan, chunk[|scan|..]);
    var rest := Feed(l, Parser(buffer + scan, ReadingLine), chunk[|scan|..]);
    assert [] + rest.lines == rest.lines;
  }

  lemma EmitScanned(l: Limits, buffer: Bytes, scan: Bytes, chunk: Bytes)
    requires scan <= chunk && NEWLINE !in scan && scan != []
    requires l.max > 0 && l.overflow.EmitAdditionalAsNewLines? && |buffer| + |scan| == l.max
    ensures Feed(l, Parser(buffer, ReadingLine), chunk)
         == Prepend(buffer + scan, Feed(l, Parser([], PendingLimitDelimiter), chunk[|scan|..]))
  {
    assert chunk == scan + chunk[|scan|..];
    EmitAtLimit(l, buffer, scan);
    FeedAppend(l, Parser(buffer, ReadingLine), scan, chunk[|scan|..]);
  }

  // ------------------------------------------------------------------------- the parser

  class LineParser {
    var lineBuffer: BytesMut
    var emitted: BytesMut
    var mode: Mode

    /** What determines future output: the partial line and the mode, not the buffers' sizes. */
    function View(): (p: Parser)
      reads this
    {
      Parser(lineBuffer.bytes, mode)
    }

    /** Holds as long as every call uses the same limits. */
    predicate Valid(l: Limits)
      reads this
    {
      WellFormed(l, View())
    }

    constructor ()
      ensures View() == FRESH
      ensures forall l :: Valid(l)
    {
      lineBuffer, emitted, mode := EMPTY_BUFFER, EMPTY_BUFFER, ReadingLine;
    }

    method OnGap()
      modifies this
      ensures View() == RESYNC
      ensures forall l :: Valid(l)
      ensures emitted == old(emitted)
    {
      lineBuffer := lineBuffer.(bytes := []);
      mode := DiscardUntilNewline;
    }

    /** Returns the next line and the unconsumed rest of `chunk`. With a line, the whole chunk
        yields that line followed by what the rest yields; without one, the chunk is used up and
        yields no line. A call that consumes no input turns a full buffer into an empty one. */
    method NextLine(chunk: Bytes, options: LineParsingOptions) returns (line: Option<Line>, rest: Bytes)
      requires Valid(options.Bounds())
      modifies this
      ensures Valid(options.Bounds())
      ensures Suffix(rest, chunk)
      ensures line.None? ==> rest == [] && Feed(options.Bounds(), old(View()), chunk) == Outcome([], View())
      ensures line.Some? ==>
                Feed(options.Bounds(), old(View()), chunk) == Prepend(line.value, Feed(options.Bounds(), View(), rest))
      ensures line.Some? ==>
                !IsFull(options.Bounds(), View()) && (|rest| < |chunk| || IsFull(options.Bounds(), old(View())))
    {
      ghost var l := options.Bounds();
      CompactIfNeeded(options.bufferCompactionThreshold);
      rest := chunk;
      while rest != []
        invariant Valid(l)
        invariant Suffix(rest, chunk)
        invariant Feed(l, old(View()), chunk) == Feed(l, View(), rest)
        invariant |rest| == |chunk| && IsFull(l, View()) ==> IsFull(l, old(View()))
        decreases |rest|, if mode.ReadingLine? then 0 else 1
      {
        ghost var unread := rest;
        if !mode.ReadingLine? {
          rest := LeaveMode(rest, options);
          SuffixOfSuffix(rest, unread, chunk);
        } else {
          line, rest := ScanLine(rest, options);
          SuffixOfSuffix(rest, unread, chunk);
          if line.Some? {
            return;
          }
        }
      }
      line := None;
    }

    /** The part of `NextLine`'s loop body that discards input: up to and including a newline after a
        gap or a dropped rest of a line, and at most a newline after a line that filled the limit. */
    method LeaveMode(chunk: Bytes, options: LineParsingOptions) returns (rest: Bytes)
      requires Valid(options.Bounds()) && !mode.ReadingLine? && chunk != []
      modifies this
      ensures Valid(options.Bounds()) && Suffix(rest, chunk)
      ensures Feed(options.Bounds(), old(View()), chunk) == Feed(options.Bounds(), View(), rest)
      ensures View() == FRESH || rest == []
    {
      ghost var l := options.Bounds();
      if mode.DiscardUntilNewline? {
        var pos := NewlineAt(chunk);
        if pos < |chunk| {
          SkipToNewline(l, chunk, pos);
          mode := ReadingLine;
          rest := chunk[pos+1..];
        } else {
          assert chunk[..pos] == chunk;
          DiscardNothing(l, chunk);
          rest := [];
        }
      } else {
        mode := ReadingLine;
        if chunk[0] == NEWLINE {
          SkipDelimiter(l, chunk);
          rest := chunk[1..];
        } else {
          PendingActsFresh(l, chunk);
          rest := chunk;
        }
      }
    }

    /** The part of `NextLine`'s loop body that reads line content. Without a line, the input up to
        `rest` has been buffered. */
    method ScanLine(chunk: Bytes, options: LineParsingOptions) returns (line: Option<Line>, rest: Bytes)
      requires Valid(options.Bounds()) && mode.ReadingLine? && chunk != []
      modifies this
      ensures Valid(options.Bounds())
      ensures Suffix(rest, chunk)
      ensures line.None? ==>
                |rest| < |chunk| && Feed(options.Bounds(), old(View()), chunk) == Feed(options.Bounds(), View(), rest)
      ensures line.Some? ==>
                Feed(options.Bounds(), old(View()), chunk) == Prepend(line.value, Feed(options.Bounds(), View(), rest))
      ensures !IsFull(options.Bounds(), View()) || line.None?
      ensures |rest| < |chunk| || IsFull(options.Bounds(), old(View()))
    {
      if options.maxLineLength != 0 && |lineBuffer.bytes| == options.maxLineLength {
        EmitFullLine(options.Bounds(), View(), chunk);
        mode := match options.overflowBehavior
          case DropAdditionalData => DiscardUntilNewline
          case EmitAdditionalAsNewLines => PendingLimitDelimiter;
        var text := EmitBufferedLine();
        return Some(text), chunk;
      }
      line, rest := ScanContent(chunk, options);
    }

    /** The part of `ScanLine` for a buffer below the limit. */
    method ScanContent(chunk: Bytes, options: LineParsingOptions) returns (line: Option<Line>, rest: Bytes)
      requires Valid(options.Bounds()) && mode.ReadingLine? && chunk != [] && !IsFull(options.Bounds(), View())
      modifies this
      ensures Valid(options.Bounds())
      ensures Suffix(rest, chunk) && |rest| < |chunk|
      ensures line.None? ==> Feed(options.Bounds(), old(View()), chunk) == Feed(options.Bounds(), View(), rest)
      ensures line.Some? ==>
                Feed(options.Bounds(), old(View()), chunk) == Prepend(line.value, Feed(options.Bounds(), View(), rest))
      ensures line.Some? ==> !IsFull(options.Bounds(), View())
    {
      ghost var l, before := options.Bounds(), lineBuffer.bytes;
      var remaining := if options.maxLineLength == 0 then |chunk| else options.maxLineLength - |lineBuffer.bytes|;
      var scanLength := Min(remaining, |chunk|);
      var scan := chunk[..scanLength];
      var pos := NewlineAt(scan);

      if pos < |scan| {
        EndLine(l, before, scan, chunk, pos);
        if lineBuffer.bytes == [] {
          assert [] + scan[..pos] == scan[..pos];
          return Some(scan[..pos]), chunk[pos+1..];
        }
        lineBuffer := ExtendFromSlice(lineBuffer, scan[..pos]);
        var text := EmitBufferedLine();
        return Some(text), chunk[pos+1..];
      }

      assert scan[..pos] == scan;
      lineBuffer := ExtendFromSlice(lineBuffer, scan);
      rest := chunk[scanLength..];
      if options.maxLineLength != 0 && |lineBuffer.bytes| == options.maxLineLength
         && options.overflowBehavior.EmitAdditionalAsNewLines? {
        EmitScanned(l, before, scan, chunk);
        mode := PendingLimitDelimiter;
        var text := EmitBufferedLine();
        return Some(text), rest;
      }
      KeepScanning(l, before, scan, chunk);
      line := None;
    }

    /** Flushes an unterminated last line. */
    method Finish() returns (line: Option<Line>)
      modifies this
      ensures Flush(old(View())) == if line.Some? then [line.value] else []
      ensures View() == if line.Some? then Parser([], old(mode)) else old(View())
    {
      if mode.DiscardUntilNewline? || lineBuffer.bytes == [] {
        line := None;
      } else {
        var text := EmitBufferedLine();
        line := Some(text);
      }
    }

    /** Releases over-sized allocations. Only an empty line buffer may be replaced. */
    method CompactIfNeeded(threshold: Option<nat>)
      modifies this
      ensures View() == old(View())
      ensures threshold.None? ==> lineBuffer == old(lineBuffer) && emitted == old(emitted)
      ensures threshold.Some? ==> emitted.capacity <= threshold.value
      ensures threshold.Some? && View().buffer == [] ==> lineBuffer.capacity <= threshold.value
    {
      if threshold.Some? {
        if lineBuffer.bytes == [] && lineBuffer.capacity > threshold.value {
          lineBuffer := EMPTY_BUFFER;
        }
        if emitted.capacity > threshold.value {
          emitted := EMPTY_BUFFER;
        }
      }
    }

    /** Swaps the two buffers and clears the new line buffer, which keeps its allocation. */
    method EmitBufferedLine() returns (line: Line)
      modifies this
      ensures line == old(View()).buffer == emitted.bytes
      ensures View() == Parser([], old(mode))
      ensures emitted.capacity == old(lineBuffer.capacity) && lineBuffer.capacity == old(emitted.capacity)
    {
      lineBuffer, emitted := emitted, lineBuffer;
      lineBuffer := lineBuffer.(bytes := []);
      line := emitted.bytes;
    }
  }
}
