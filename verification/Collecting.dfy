/** Bounded in-memory collectors for raw bytes and for lines. */
module Collecting {
  import opened Events
  import opened Subsequences

  datatype CollectionOverflowBehavior = DropAdditionalData | DropOldestData

  datatype RawCollectionOptions =
    | Bounded(maxBytes: nat, overflowBehavior: CollectionOverflowBehavior)
    | TrustedUnbounded

  datatype LineCollectionOptions =
    | BoundedLines(maxBytes: nat, maxLines: nat, overflowBehavior: CollectionOverflowBehavior)
    | TrustedUnboundedLines

  function Monus(a: nat, b: nat): nat {
    if a < b then 0 else a - b
  }

  // ------------------------------------------------------------------------- bytes

  /** A byte collection: retained bytes and whether any were discarded. */
  datatype ByteCollection = ByteCollection(bytes: Bytes, truncated: bool)

  /** The first or the last `maxBytes` bytes of everything observed. */
  function Retained(observed: Bytes, options: RawCollectionOptions): (c: ByteCollection)
  {
    match options
    case TrustedUnbounded => ByteCollection(observed, false)
    case Bounded(maxBytes, DropAdditionalData) =>
      ByteCollection(observed[..Min(maxBytes, |observed|)], |observed| > maxBytes)
    case Bounded(maxBytes, DropOldestData) =>
      ByteCollection(observed[Monus(|observed|, maxBytes)..], |observed| > maxBytes)
  }

  /** A byte collection is the beginning or the end of everything observed, as long as allowed, and is
      marked truncated exactly if something is missing. */
  lemma RetainedIsMaximal(observed: Bytes, options: RawCollectionOptions)
    ensures var c := Retained(observed, options);
            && |c.bytes| == (if options.Bounded? then Min(options.maxBytes, |observed|) else |observed|)
            && (options.Bounded? && options.overflowBehavior.DropOldestData? ==>
                  c.bytes == observed[|observed| - |c.bytes|..])
            && (options.Bounded? && options.overflowBehavior.DropAdditionalData? ==> c.bytes <= observed)
            && (c.truncated <==> c.bytes != observed)
  {
  }

  /** A collection after one more chunk, in any state it can be in. */
  function WithChunk(c: ByteCollection, chunk: Bytes, options: RawCollectionOptions): (d: ByteCollection)
  {
    var all := c.bytes + chunk;
    match options
    case TrustedUnbounded => ByteCollection(all, c.truncated)
    case Bounded(maxBytes, DropAdditionalData) =>
      var kept := if |c.bytes| >= maxBytes then c.bytes else all[..Min(maxBytes, |all|)];
      ByteCollection(kept, c.truncated || |kept| < |all|)
    case Bounded(maxBytes, DropOldestData) =>
      ByteCollection(all[Monus(|all|, maxBytes)..], c.truncated || |all| > maxBytes)
  }

  /** Chunk by chunk, a collection stays the closed form of everything observed. */
  lemma OneMoreChunk(observed: Bytes, chunk: Bytes, options: RawCollectionOptions)
    ensures WithChunk(Retained(observed, options), chunk, options) == Retained(observed + chunk, options)
  {
    var all := observed + chunk;
    if options.Bounded? {
      var m := Monus(|observed|, options.maxBytes);
      if options.overflowBehavior.DropOldestData? {
        assert observed[m..] + chunk == all[m..];
        var n := Monus(|all[m..]|, options.maxBytes);
        assert all[m..][n..] == all[m + n..];
      } else if m == 0 {
        assert observed[..Min(options.maxBytes, |observed|)] == observed;
        assert |observed| == options.maxBytes ==> all[..options.maxBytes] == observed;
      } else {
        assert observed[..options.maxBytes] == all[..options.maxBytes];
      }
    }
  }

  class CollectedBytes {
    var bytes: Bytes
    var truncated: bool

    function View(): (c: ByteCollection)
      reads this
    {
      ByteCollection(bytes, truncated)
    }

    constructor ()
      ensures forall options :: View() == Retained([], options)
    {
      bytes, truncated := [], false;
    }

    method PushChunk(chunk: Bytes, options: RawCollectionOptions)
      modifies this
      ensures View() == WithChunk(old(View()), chunk, options)
    {
      match options {
        case TrustedUnbounded =>
          bytes := bytes + chunk;
        case Bounded(maxBytes, DropAdditionalData) =>
          var remaining := Monus(maxBytes, |bytes|);
          if |chunk| > remaining {
            truncated := true;
          }
          bytes := bytes + chunk[..Min(remaining, |chunk|)];
        case Bounded(maxBytes, DropOldestData) =>
          if |chunk| > maxBytes {
            bytes := chunk[|chunk| - maxBytes..];
            truncated := true;
            return;
          }
          var required := |bytes| + |chunk|;
          if required > maxBytes {
            bytes := bytes[required - maxBytes..];
            truncated := true;
          }
          bytes := bytes + chunk;
      }
    }
  }

  // ------------------------------------------------------------------------- lines

  /** Decoded text of a line, as UTF-8 bytes. */
  type Text = Bytes

  /** A line collection: retained lines and whether any were discarded. */
  datatype LineCollection = LineCollection(lines: seq<Text>, truncated: bool)

  function TotalBytes(lines: seq<Text>): (n: nat)
  {
    if lines == [] then 0 else |lines[0]| + TotalBytes(lines[1..])
  }

  lemma {:induction false} TotalBytesAppend(a: seq<Text>, b: seq<Text>)
    ensures TotalBytes(a + b) == TotalBytes(a) + TotalBytes(b)
  {
    if a == [] {
      assert a + b == b;
    } else {
      TotalBytesAppend(a[1..], b);
      assert (a + b)[1..] == a[1..] + b;
    }
  }

  predicate Fits(lines: seq<Text>, maxBytes: nat, maxLines: nat)
  {
    |lines| <= maxLines && TotalBytes(lines) <= maxBytes
  }

  /** The longest suffix within both limits. */
  function LongestFit(lines: seq<Text>, maxBytes: nat, maxLines: nat): (suffix: seq<Text>)
    ensures Fits(suffix, maxBytes, maxLines) && |suffix| <= |lines|
  {
    if Fits(lines, maxBytes, maxLines) then lines else LongestFit(lines[1..], maxBytes, maxLines)
  }

  /** The longest fit is a suffix, and no longer suffix is within the limits. */
  lemma {:induction false} LongestFitIsLongest(lines: seq<Text>, maxBytes: nat, maxLines: nat)
    ensures var fit := LongestFit(lines, maxBytes, maxLines);
            && fit == lines[|lines| - |fit|..]
            && forall k :: 0 <= k < |lines| - |fit| ==> !Fits(lines[k..], maxBytes, maxLines)
  {
    var fit := LongestFit(lines, maxBytes, maxLines);
    assert lines[0..] == lines;
    if !Fits(lines, maxBytes, maxLines) {
      LongestFitIsLongest(lines[1..], maxBytes, maxLines);
      assert fit == lines[1..][|lines| - 1 - |fit|..] == lines[|lines| - |fit|..];
      forall k | 0 < k < |lines| - |fit| ensures !Fits(lines[k..], maxBytes, maxLines) {
        assert lines[1..][k-1..] == lines[k..];
      }
    }
  }

  /** The lines that could be retained on their own. */
  function Individually(lines: seq<Text>, maxBytes: nat): (fitting: seq<Text>)
  {
    if lines == [] then []
    else
      var rest := Individually(lines[..|lines| - 1], maxBytes);
      var last := lines[|lines| - 1];
      if |last| <= maxBytes then rest + [last] else rest
  }

  /** Keeps a line exactly if it still fits after the lines kept before it. */
  function Greedy(lines: seq<Text>, maxBytes: nat, maxLines: nat): (kept: seq<Text>)
    ensures Fits(kept, maxBytes, maxLines)
  {
    if lines == [] then []
    else
      var kept := Greedy(lines[..|lines| - 1], maxBytes, maxLines);
      var last := lines[|lines| - 1];
      if Fits(kept + [last], maxBytes, maxLines) then kept + [last] else kept
  }

  /** The lines retained of everything observed. */
  function RetainedLines(observed: seq<Text>, options: LineCollectionOptions): (c: LineCollection)
  {
    var lines := match options
      case TrustedUnboundedLines => observed
      case BoundedLines(maxBytes, maxLines, DropAdditionalData) => Greedy(observed, maxBytes, maxLines)
      case BoundedLines(maxBytes, maxLines, DropOldestData) =>
        LongestFit(Individually(observed, maxBytes), maxBytes, maxLines);
    LineCollection(lines, |lines| < |observed|)
  }

  /** The greedy collection keeps the order of the lines and never gives a kept line up. */
  lemma {:induction false} GreedyNeverEvicts(observed: seq<Text>, more: seq<Text>, maxBytes: nat, maxLines: nat)
    ensures Greedy(observed, maxBytes, maxLines) <= Greedy(observed + more, maxBytes, maxLines)
    decreases |more|
  {
    if more == [] {
      assert observed + more == observed;
    } else {
      var n := |more| - 1;
      GreedyNeverEvicts(observed, more[..n], maxBytes, maxLines);
      assert (observed + more)[..|observed + more| - 1] == observed + more[..n];
    }
  }

  lemma {:induction false} GreedyIsSubsequence(observed: seq<Text>, maxBytes: nat, maxLines: nat)
    ensures Subsequence(Greedy(observed, maxBytes, maxLines), observed)
  {
    if observed != [] {
      var n := |observed| - 1;
      var kept := Greedy(observed[..n], maxBytes, maxLines);
      GreedyIsSubsequence(observed[..n], maxBytes, maxLines);
      assert observed == observed[..n] + [observed[n]];
      Append(kept, observed[..n], [observed[n]], [observed[n]]);
      Append(kept, observed[..n], [], [observed[n]]);
      assert kept + [] == kept;
    }
  }

  /** The lines left after evicting from the front until `line` can be kept behind them. */
  function RoomFor(lines: seq<Text>, line: Text, maxBytes: nat, maxLines: nat): (kept: seq<Text>)
    requires |line| <= maxBytes && maxLines > 0
    ensures |kept| <= |lines|
  {
    if |lines| >= maxLines || |line| > Monus(maxBytes, TotalBytes(lines)) then
      RoomFor(lines[1..], line, maxBytes, maxLines)
    else lines
  }

  /** A collection after one more line, in any state it can be in. */
  function WithLine(c: LineCollection, line: Text, options: LineCollectionOptions): (d: LineCollection)
  {
    match options
    case TrustedUnboundedLines => LineCollection(c.lines + [line], c.truncated)
    case BoundedLines(maxBytes, maxLines, DropAdditionalData) =>
      if |c.lines| < maxLines && |line| <= Monus(maxBytes, TotalBytes(c.lines)) then
        LineCollection(c.lines + [line], c.truncated)
      else LineCollection(c.lines, true)
    case BoundedLines(maxBytes, maxLines, DropOldestData) =>
      if maxLines == 0 || |line| > maxBytes then LineCollection(c.lines, true)
      else
        var kept := RoomFor(c.lines, line, maxBytes, maxLines);
        LineCollection(kept + [line], c.truncated || |kept| < |c.lines|)
  }

  /** Line by line, a collection stays the closed form of everything observed. */
  lemma OneMoreLine(observed: seq<Text>, line: Text, options: LineCollectionOptions)
    ensures WithLine(RetainedLines(observed, options), line, options) == RetainedLines(observed + [line], options)
  {
    var c := RetainedLines(observed, options);
    match options
    case TrustedUnboundedLines =>
    case BoundedLines(maxBytes, maxLines, DropAdditionalData) =>
      GreedyOneMore(observed, line, maxBytes, maxLines);
      TotalBytesOneMore(c.lines, line);
    case BoundedLines(maxBytes, maxLines, DropOldestData) =>
      NewestOneMore(observed, line, maxBytes, maxLines);
      if maxLines > 0 && |line| <= maxBytes {
        RoomForLongestFit(c.lines, line, maxBytes, maxLines);
      }
  }

  lemma TotalBytesOneMore(lines: seq<Text>, line: Text)
    ensures TotalBytes(lines + [line]) == TotalBytes(lines) + |line|
  {
    TotalBytesAppend(lines, [line]);
    assert TotalBytes([line]) == |line| + TotalBytes([]);
  }

  /** Of a collection within its byte limit, eviction keeps as much as the limits allow. */
  lemma {:induction false} RoomForLongestFit(lines: seq<Text>, line: Text, maxBytes: nat, maxLines: nat)
    requires |line| <= maxBytes && maxLines > 0 && TotalBytes(lines) <= maxBytes
    ensures RoomFor(lines, line, maxBytes, maxLines) + [line] == LongestFit(lines + [line], maxBytes, maxLines)
  {
    if |lines| >= maxLines || |line| > Monus(maxBytes, TotalBytes(lines)) {
      EvictOne(lines, line, maxBytes, maxLines);
      RoomForLongestFit(lines[1..], line, maxBytes, maxLines);
    } else {
      TotalBytesOneMore(lines, line);
    }
  }

  /** One more line, evicting from the front until it fits. */
  lemma {:induction false} LongestFitStep(lines: seq<Text>, line: Text, maxBytes: nat, maxLines: nat)
    requires |line| <= maxBytes && maxLines > 0
    ensures LongestFit(lines + [line], maxBytes, maxLines)
         == LongestFit(LongestFit(lines, maxBytes, maxLines) + [line], maxBytes, maxLines)
  {
    if !Fits(lines, maxBytes, maxLines) {
      TotalBytesAppend(lines, [line]);
      assert !Fits(lines + [line], maxBytes, maxLines);
      assert (lines + [line])[1..] == lines[1..] + [line];
      LongestFitStep(lines[1..], line, maxBytes, maxLines);
    }
  }

  /** One more line under the policy that keeps the first output. */
  lemma GreedyOneMore(observed: seq<Text>, line: Text, maxBytes: nat, maxLines: nat)
    ensures var options := BoundedLines(maxBytes, maxLines, DropAdditionalData);
            var c := RetainedLines(observed, options);
            RetainedLines(observed + [line], options) ==
              if Fits(c.lines + [line], maxBytes, maxLines) then LineCollection(c.lines + [line], c.truncated)
              else LineCollection(c.lines, true)
  {
    assert (observed + [line])[..|observed + [line]| - 1] == observed;
    GreedyShrinks(observed, maxBytes, maxLines);
  }

  /** One more line under the policy that keeps the newest output. */
  lemma {:induction false} NewestOneMore(observed: seq<Text>, line: Text, maxBytes: nat, maxLines: nat)
    ensures var options := BoundedLines(maxBytes, maxLines, DropOldestData);
            var c, d := RetainedLines(observed, options), RetainedLines(observed + [line], options);
            if maxLines == 0 || |line| > maxBytes then d == LineCollection(c.lines, true)
            else
              && d.lines == LongestFit(c.lines + [line], maxBytes, maxLines)
              && d.truncated == (c.truncated || |d.lines| <= |c.lines|)
  {
    assert (observed + [line])[..|observed + [line]| - 1] == observed;
    var fitting := Individually(observed, maxBytes);
    IndividuallyShrinks(observed, maxBytes);
    if maxLines == 0 {
      assert LongestFit(fitting, maxBytes, 0) == [];
      assert LongestFit(Individually(observed + [line], maxBytes), maxBytes, 0) == [];
    } else if |line| <= maxBytes {
      LongestFitStep(fitting, line, maxBytes, maxLines);
    }
  }

  lemma {:induction false} GreedyShrinks(observed: seq<Text>, maxBytes: nat, maxLines: nat)
    ensures |Greedy(observed, maxBytes, maxLines)| <= |observed|
  {
    if observed != [] {
      GreedyShrinks(observed[..|observed| - 1], maxBytes, maxLines);
    }
  }

  lemma {:induction false} IndividuallyShrinks(observed: seq<Text>, maxBytes: nat)
    ensures |Individually(observed, maxBytes)| <= |observed|
  {
    if observed != [] {
      IndividuallyShrinks(observed[..|observed| - 1], maxBytes);
    }
  }

  /** A line that does not fit behind the kept lines costs the oldest of them. */
  lemma {:induction false} EvictOne(lines: seq<Text>, line: Text, maxBytes: nat, maxLines: nat)
    requires |line| <= maxBytes && maxLines > 0
    requires |lines| >= maxLines || |line| > Monus(maxBytes, TotalBytes(lines))
    ensures lines != []
    ensures LongestFit(lines + [line], maxBytes, maxLines) == LongestFit(lines[1..] + [line], maxBytes, maxLines)
  {
    TotalBytesOneMore(lines, line);
    assert (lines + [line])[1..] == lines[1..] + [line];
  }

  class CollectedLines {
    var lines: seq<Text>
    var truncated: bool
    var retainedBytes: nat

    predicate Valid()
      reads this
    {
      retainedBytes == TotalBytes(lines)
    }

    function View(): (c: LineCollection)
      reads this
    {
      LineCollection(lines, truncated)
    }

    constructor ()
      ensures Valid()
      ensures forall options :: View() == RetainedLines([], options)
    {
      lines, truncated, retainedBytes := [], false, 0;
    }

    method PushBack(line: Text)
      requires Valid()
      modifies this
      ensures Valid() && lines == old(lines) + [line] && truncated == old(truncated)
    {
      TotalBytesAppend(lines, [line]);
      retainedBytes := retainedBytes + |line|;
      lines := lines + [line];
    }

    method PopFront() returns (line: Option<Text>)
      requires Valid()
      modifies this
      ensures Valid() && truncated == old(truncated)
      ensures old(lines) == [] ==> line.None? && lines == []
      ensures old(lines) != [] ==> line == Some(old(lines)[0]) && lines == old(lines)[1..]
    {
      if lines == [] {
        return None;
      }
      line := Some(lines[0]);
      retainedBytes := retainedBytes - |lines[0]|;
      lines := lines[1..];
    }

    /** Evicts from the front until `line` fits. It always finds a line to evict. */
    method MakeRoom(line: Text, maxBytes: nat, maxLines: nat)
      requires Valid() && |line| <= maxBytes && maxLines > 0
      modifies this
      ensures Valid()
      ensures lines == RoomFor(old(lines), line, maxBytes, maxLines)
      ensures truncated == (old(truncated) || |lines| < |old(lines)|)
    {
      while |lines| >= maxLines || |line| > Monus(maxBytes, retainedBytes)
        invariant Valid()
        invariant RoomFor(old(lines), line, maxBytes, maxLines) == RoomFor(lines, line, maxBytes, maxLines)
        invariant |lines| <= |old(lines)|
        invariant truncated == (old(truncated) || |lines| < |old(lines)|)
        decreases |lines|
      {
        var evicted := PopFront();
        assert evicted.Some?;
        truncated := true;
      }
    }

    method PushLine(line: Text, options: LineCollectionOptions)
      requires Valid()
      modifies this
      ensures Valid()
      ensures View() == WithLine(old(View()), line, options)
    {
      match options {
        case TrustedUnboundedLines =>
          PushBack(line);
        case BoundedLines(maxBytes, maxLines, DropAdditionalData) =>
          if |lines| >= maxLines || |line| > maxBytes || |line| > Monus(maxBytes, retainedBytes) {
            truncated := true;
            return;
          }
          PushBack(line);
        case BoundedLines(maxBytes, maxLines, DropOldestData) =>
          if maxLines == 0 {
            truncated := true;
            return;
          }
          if |line| > maxBytes {
            truncated := true;
            return;
          }
          MakeRoom(line, maxBytes, maxLines);
          PushBack(line);
      }
    }
  }
}
