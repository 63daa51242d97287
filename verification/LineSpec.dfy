/** What the line parser should produce, stated on a whole byte string without any parser state:
    split at newlines, then limit each segment to the configured maximum length. */
module LineSpec {
  import opened Events

  type Line = Bytes

  datatype LineOverflowBehavior = DropAdditionalData | EmitAdditionalAsNewLines

  /** The part of the parsing options that determines output; a `max` of zero means unlimited. */
  datatype Limits = Limits(max: nat, overflow: LineOverflowBehavior)

  /** Position of the first newline of `s`, or `|s|` if there is none. */
  function NewlineAt(s: Bytes): (i: nat)
    ensures i <= |s|
    ensures i < |s| ==> s[i] == NEWLINE
    ensures NEWLINE !in s[..i]
  {
    if s == [] then 0
    else if s[0] == NEWLINE then 0
    else
      var i := 1 + NewlineAt(s[1..]);
      assert s[..i] == [s[0]] + s[1..][..i-1];
      i
  }

  lemma {:induction false} SplitAtNewline(s: Bytes)
    requires NewlineAt(s) < |s|
    ensures var i := NewlineAt(s);
            s == s[..i] + [NEWLINE] + s[i+1..]
  {
    SplitAt(s, NewlineAt(s));
  }

  lemma NewlineAtUnique(s: Bytes, i: nat)
    requires i <= |s| && NEWLINE !in s[..i]
    requires i < |s| ==> s[i] == NEWLINE
    ensures NewlineAt(s) == i
  {
  }

  /** `segment` chopped into pieces of `max` bytes; the last piece is never empty unless the
      segment is. */
  function Pieces(segment: Bytes, max: nat): (lines: seq<Line>)
    requires max > 0
    decreases |segment|
  {
    if |segment| <= max then [segment] else [segment[..max]] + Pieces(segment[max..], max)
  }

  /** The lines that one newline-free segment is rendered as. */
  function Render(l: Limits, segment: Bytes): (lines: seq<Line>)
  {
    if l.max == 0 || |segment| <= l.max then [segment]
    else match l.overflow
      case DropAdditionalData => [segment[..l.max]]
      case EmitAdditionalAsNewLines => Pieces(segment, l.max)
  }

  /** The lines of the newline-terminated segments of `bytes`. */
  function Terminated(l: Limits, bytes: Bytes): (lines: seq<Line>)
    decreases |bytes|
  {
    var i := NewlineAt(bytes);
    if i == |bytes| then [] else Render(l, bytes[..i]) + Terminated(l, bytes[i+1..])
  }

  /** The bytes after the last newline. */
  function Remainder(bytes: Bytes): (rest: Bytes)
    ensures NEWLINE !in rest
    decreases |bytes|
  {
    var i := NewlineAt(bytes);
    if i == |bytes| then assert bytes[..i] == bytes; bytes else Remainder(bytes[i+1..])
  }

  /** The lines an unterminated last segment is rendered as: none if it is empty. */
  function RenderLast(l: Limits, segment: Bytes): (lines: seq<Line>)
  {
    if segment == [] then [] else Render(l, segment)
  }

  /** The lines of a complete byte string. */
  function Lines(l: Limits, bytes: Bytes): (lines: seq<Line>)
  {
    Terminated(l, bytes) + RenderLast(l, Remainder(bytes))
  }

  /** The bytes after the first newline; `None` if there is no newline to resynchronise at. */
  function AfterNewline(bytes: Bytes): (rest: Option<Bytes>)
  {
    var i := NewlineAt(bytes);
    if i == |bytes| then None else Some(bytes[i+1..])
  }

  /** `bytes` with its newlines removed. */
  function WithoutNewlines(bytes: Bytes): (rest: Bytes)
  {
    if bytes == [] then []
    else (if bytes[0] == NEWLINE then [] else [bytes[0]]) + WithoutNewlines(bytes[1..])
  }

  // ---------------------------------------------------------------- properties of the closed form

  lemma {:induction false} WithoutNewlinesAppend(a: Bytes, b: Bytes)
    ensures WithoutNewlines(a + b) == WithoutNewlines(a) + WithoutNewlines(b)
  {
    if a == [] {
      assert a + b == b;
    } else {
      WithoutNewlinesAppend(a[1..], b);
      assert (a + b)[1..] == a[1..] + b;
      Assoc(if a[0] == NEWLINE then [] else [a[0]], WithoutNewlines(a[1..]), WithoutNewlines(b));
    }
  }

  lemma {:induction false} WithoutNewlinesId(a: Bytes)
    requires NEWLINE !in a
    ensures WithoutNewlines(a) == a
  {
    if a != [] {
      WithoutNewlinesId(a[1..]);
    }
  }

  lemma {:induction false} PiecesConserve(segment: Bytes, max: nat)
    requires max > 0
    ensures Concat(Pieces(segment, max)) == segment
    ensures forall line :: line in Pieces(segment, max) ==> |line| <= max
    decreases |segment|
  {
    if |segment| > max {
      PiecesConserve(segment[max..], max);
      assert Concat(Pieces(segment, max)) == segment[..max] + segment[max..];
    } else {
      assert Concat([segment]) == segment;
    }
  }

  /** The closed form peels off one terminated segment at a time. */
  lemma LinesUnfold(l: Limits, bytes: Bytes)
    ensures var i := NewlineAt(bytes);
            Lines(l, bytes) ==
              if i == |bytes| then RenderLast(l, bytes)
              else Render(l, bytes[..i]) + Lines(l, bytes[i+1..])
  {
    var i := NewlineAt(bytes);
    if i < |bytes| {
      var tail := Terminated(l, bytes[i+1..]);
      var last := RenderLast(l, Remainder(bytes[i+1..]));
      Assoc(Render(l, bytes[..i]), tail, last);
    }
  }

  lemma WithoutNewlinesSplit(segment: Bytes, rest: Bytes)
    requires NEWLINE !in segment
    ensures WithoutNewlines(segment + [NEWLINE] + rest) == segment + WithoutNewlines(rest)
  {
    WithoutTerminator(segment);
    WithoutNewlinesAppend(segment + [NEWLINE], rest);
  }

  lemma WithoutTerminator(segment: Bytes)
    requires NEWLINE !in segment
    ensures WithoutNewlines(segment + [NEWLINE]) == segment
  {
    WithoutNewlinesId(segment);
    WithoutNewlinesAppend(segment, [NEWLINE]);
    assert [NEWLINE][1..] == [];
  }

  /** Emitting additional data as new lines loses no byte except the newlines. */
  lemma {:induction false} EmitConservesBytes(l: Limits, bytes: Bytes)
    requires l.max == 0 || l.overflow.EmitAdditionalAsNewLines?
    ensures Concat(Lines(l, bytes)) == WithoutNewlines(bytes)
    decreases |bytes|
  {
    var i := NewlineAt(bytes);
    LinesUnfold(l, bytes);
    if i == |bytes| {
      assert bytes[..i] == bytes;
      RenderConserves(l, bytes);
      WithoutNewlinesId(bytes);
    } else {
      EmitConservesBytes(l, bytes[i+1..]);
      SplitAtNewline(bytes);
      SegmentConserves(l, bytes[..i], bytes[i+1..], Lines(l, bytes[i+1..]));
    }
  }

  lemma SegmentConserves(l: Limits, segment: Bytes, rest: Bytes, lines: seq<Line>)
    requires l.max == 0 || l.overflow.EmitAdditionalAsNewLines?
    requires NEWLINE !in segment && Concat(lines) == WithoutNewlines(rest)
    ensures Concat(Render(l, segment) + lines) == WithoutNewlines(segment + [NEWLINE] + rest)
  {
    RenderConserves(l, segment);
    WithoutNewlinesSplit(segment, rest);
    ConcatAppend(Render(l, segment), lines);
  }

  lemma RenderConserves(l: Limits, segment: Bytes)
    requires l.max == 0 || l.overflow.EmitAdditionalAsNewLines?
    ensures Concat(Render(l, segment)) == segment
  {
    if l.max == 0 || |segment| <= l.max {
      assert Concat([segment]) == segment;
    } else {
      PiecesConserve(segment, l.max);
    }
  }

  /** No line is longer than a non-zero limit. */
  lemma {:induction false} LinesWithinLimit(l: Limits, bytes: Bytes)
    requires l.max > 0
    ensures forall line :: line in Lines(l, bytes) ==> |line| <= l.max
    decreases |bytes|
  {
    var i := NewlineAt(bytes);
    LinesUnfold(l, bytes);
    if i == |bytes| {
      RenderWithinLimit(l, bytes);
    } else {
      RenderWithinLimit(l, bytes[..i]);
      LinesWithinLimit(l, bytes[i+1..]);
      var head, tail := Render(l, bytes[..i]), Lines(l, bytes[i+1..]);
      assert forall line :: line in head + tail ==> line in head || line in tail;
    }
  }

  lemma RenderWithinLimit(l: Limits, segment: Bytes)
    requires l.max > 0
    ensures forall line :: line in Render(l, segment) ==> |line| <= l.max
  {
    PiecesConserve(segment, l.max);
  }
}
