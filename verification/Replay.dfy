/** Replay retention: which recorded events a later subscriber still receives. */
module Replay {
  import opened Events

  datatype ReplayRetention = LastChunks(chunks: nat) | LastBytes(bytes: nat) | All

  function EventSize(e: StreamEvent): nat {
    if e.Chunk? then |e.bytes| else 0
  }

  /** Total size of some items. */
  function Total<T>(size: T -> nat, items: seq<T>): (n: nat)
  {
    if items == [] then 0 else size(items[0]) + Total(size, items[1..])
  }

  /** The shortest suffix with at least `bytes` bytes, or everything if there are fewer. */
  function ShortestCover<T>(size: T -> nat, bytes: nat, items: seq<T>): (window: seq<T>)
  {
    if items != [] && Total(size, items[1..]) >= bytes then ShortestCover(size, bytes, items[1..]) else items
  }

  /** The retained part of everything that was recorded. */
  function Window<T>(size: T -> nat, retention: Option<ReplayRetention>, items: seq<T>): (window: seq<T>)
  {
    match retention
    case None => []
    case Some(LastChunks(chunks)) => if |items| <= chunks then items else items[|items| - chunks..]
    case Some(LastBytes(bytes)) => ShortestCover(size, bytes, items)
    case Some(All) => items
  }

  lemma {:induction false} TotalAppend<T>(size: T -> nat, a: seq<T>, b: seq<T>)
    ensures Total(size, a + b) == Total(size, a) + Total(size, b)
  {
    if a == [] {
      assert a + b == b;
    } else {
      TotalAppend(size, a[1..], b);
      assert (a + b)[1..] == a[1..] + b;
    }
  }

  lemma {:induction false} CoverIsSuffix<T>(size: T -> nat, bytes: nat, items: seq<T>)
    ensures var w := ShortestCover(size, bytes, items);
            |w| <= |items| && w == items[|items| - |w|..]
  {
    if items != [] && Total(size, items[1..]) >= bytes {
      CoverIsSuffix(size, bytes, items[1..]);
    }
  }

  lemma {:induction false} CoverStep<T>(size: T -> nat, bytes: nat, items: seq<T>, x: T)
    ensures ShortestCover(size, bytes, ShortestCover(size, bytes, items) + [x])
            == ShortestCover(size, bytes, items + [x])
  {
    if items != [] && Total(size, items[1..]) >= bytes {
      CoverStep(size, bytes, items[1..], x);
      TotalAppend(size, items[1..], [x]);
      assert (items + [x])[1..] == items[1..] + [x];
    }
  }

  /** The window is a suffix of what was recorded. */
  lemma {:induction false} WindowIsSuffix<T>(size: T -> nat, retention: Option<ReplayRetention>, items: seq<T>)
    ensures var w := Window(size, retention, items);
            |w| <= |items| && w == items[|items| - |w|..]
  {
    if retention.Some? && retention.value.LastBytes? {
      CoverIsSuffix(size, retention.value.bytes, items);
    }
  }

  /** Trimming after each recorded item keeps exactly the window of everything recorded. */
  lemma {:induction false} WindowStep<T>(size: T -> nat, retention: Option<ReplayRetention>, items: seq<T>, x: T)
    ensures Window(size, retention, Window(size, retention, items) + [x]) == Window(size, retention, items + [x])
  {
    if retention.Some? && retention.value.LastBytes? {
      CoverStep(size, retention.value.bytes, items, x);
    }
  }

  /** A suffix with at least `bytes` bytes, or everything if there are fewer, that has fewer without its
      oldest item. */
  ghost predicate IsShortestCover<T>(size: T -> nat, bytes: nat, items: seq<T>, window: seq<T>)
  {
    && |window| <= |items| && window == items[|items| - |window|..]
    && (Total(size, items) < bytes ==> window == items)
    && (Total(size, items) >= bytes ==> Total(size, window) >= bytes)
    && (window != [] ==> Total(size, window[1..]) < bytes)
  }

  /** How much of `items` each retention keeps: nothing, the last chunks, as many as allowed, the
      shortest suffix with enough bytes, or everything. */
  ghost predicate IsRetained<T>(size: T -> nat, retention: Option<ReplayRetention>, items: seq<T>, kept: seq<T>)
  {
    match retention
    case None => kept == []
    case Some(LastChunks(chunks)) => kept == items[|items| - Min(chunks, |items|)..]
    case Some(LastBytes(bytes)) => IsShortestCover(size, bytes, items, kept)
    case Some(All) => kept == items
  }

  lemma WindowKeeps<T>(size: T -> nat, retention: Option<ReplayRetention>, items: seq<T>)
    ensures IsRetained(size, retention, items, Window(size, retention, items))
  {
    if retention.Some? && retention.value.LastBytes? {
      CoverIsSuffix(size, retention.value.bytes, items);
      CoverIsTight(size, retention.value.bytes, items);
    }
  }

  /** A byte-limited window holds at least the limit if so much was recorded, and would fall below
      it without its oldest item, so it exceeds the limit by less than that item. */
  lemma {:induction false} CoverIsTight<T>(size: T -> nat, bytes: nat, items: seq<T>)
    ensures var w := ShortestCover(size, bytes, items);
            && (Total(size, items) >= bytes ==> Total(size, w) >= bytes)
            && (Total(size, items) < bytes ==> w == items)
            && (w != [] ==> Total(size, w) < bytes + size(w[0]))
  {
    if items != [] && Total(size, items[1..]) >= bytes {
      CoverIsTight(size, bytes, items[1..]);
    }
  }

  /** The window without its oldest item, when that item is not part of the retained window. */
  lemma {:induction false} DropOldest<T>(size: T -> nat, retention: ReplayRetention, items: seq<T>)
    requires items != []
    requires match retention
             case LastChunks(chunks) => |items| > chunks
             case LastBytes(bytes) => Total(size, items) - size(items[0]) >= bytes
             case All => false
    ensures Window(size, Some(retention), items) == Window(size, Some(retention), items[1..])
  {
  }

  /** Retaining nothing leaves nothing. */
  lemma {:induction false} EmptyWindow<T>(size: T -> nat, retention: Option<ReplayRetention>, items: seq<T>)
    requires retention.None? || retention.value == LastChunks(0) || retention.value == LastBytes(0)
    ensures Window(size, retention, items) == []
    decreases |items|
  {
    if retention == Some(LastBytes(0)) && items != [] {
      EmptyWindow(size, retention, items[1..]);
    }
  }
}
