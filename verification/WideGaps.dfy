/** Losses of a lossy queue are large: it gives events up only when it is full, so every gap stands for
    at least as many events as the queue can hold. */
module WideGaps {
  import opened Events
  import opened Coverage
  import opened LossyQueue

  /** Like `Covers`, but a gap skips at least `n` events. */
  ghost predicate CoversWidely(log: seq<StreamEvent>, seen: seq<IndexedEvent>, lo: nat, hi: nat, n: nat)
    decreases |seen|
  {
    if seen == [] then lo == hi <= |log|
    else if seen[0].event.Gap? then exists mid :: lo + n <= mid <= hi && CoversWidely(log, seen[1..], mid, hi, n)
    else lo < |log| && seen[0] == IndexedEvent(lo, log[lo]) && CoversWidely(log, seen[1..], lo + 1, hi, n)
  }

  /** Every event accounts for at least one of the log. */
  lemma {:induction false} WideBounds(log: seq<StreamEvent>, seen: seq<IndexedEvent>, lo: nat, hi: nat, n: nat)
    requires n > 0 && CoversWidely(log, seen, lo, hi, n)
    ensures lo + |seen| <= hi <= |log|
    decreases |seen|
  {
    if seen != [] {
      if seen[0].event.Gap? {
        var mid :| lo + n <= mid <= hi && CoversWidely(log, seen[1..], mid, hi, n);
        WideBounds(log, seen[1..], mid, hi, n);
      } else {
        WideBounds(log, seen[1..], lo + 1, hi, n);
      }
    }
  }

  lemma {:induction false} WideGrow(log: seq<StreamEvent>, more: seq<StreamEvent>, seen: seq<IndexedEvent>,
                                    lo: nat, hi: nat, n: nat)
    requires CoversWidely(log, seen, lo, hi, n)
    ensures CoversWidely(log + more, seen, lo, hi, n)
    decreases |seen|
  {
    if seen != [] {
      if seen[0].event.Gap? {
        var mid :| lo + n <= mid <= hi && CoversWidely(log, seen[1..], mid, hi, n);
        WideGrow(log, more, seen[1..], mid, hi, n);
      } else {
        WideGrow(log, more, seen[1..], lo + 1, hi, n);
      }
    }
  }

  /** The first event accounts for `log[lo..mid]`. */
  predicate HeadCovers(log: seq<StreamEvent>, e: IndexedEvent, lo: nat, mid: nat, n: nat)
  {
    if e.event.Gap? then lo + n <= mid else lo < |log| && mid == lo + 1 && e == IndexedEvent(lo, log[lo])
  }

  lemma WideHead(log: seq<StreamEvent>, seen: seq<IndexedEvent>, lo: nat, hi: nat, n: nat) returns (mid: nat)
    requires n > 0 && seen != [] && CoversWidely(log, seen, lo, hi, n)
    ensures HeadCovers(log, seen[0], lo, mid, n) && CoversWidely(log, seen[1..], mid, hi, n)
  {
    if seen[0].event.Gap? {
      mid :| lo + n <= mid <= hi && CoversWidely(log, seen[1..], mid, hi, n);
    } else {
      mid := lo + 1;
    }
  }

  lemma WideCons(log: seq<StreamEvent>, seen: seq<IndexedEvent>, lo: nat, mid: nat, hi: nat, n: nat)
    requires n > 0 && seen != [] && HeadCovers(log, seen[0], lo, mid, n) && CoversWidely(log, seen[1..], mid, hi, n)
    ensures CoversWidely(log, seen, lo, hi, n)
  {
    WideBounds(log, seen[1..], mid, hi, n);
  }

  lemma {:induction false} WideJoin(log: seq<StreamEvent>, a: seq<IndexedEvent>, b: seq<IndexedEvent>,
                                    lo: nat, mid: nat, hi: nat, n: nat)
    requires n > 0 && CoversWidely(log, a, lo, mid, n) && CoversWidely(log, b, mid, hi, n)
    ensures CoversWidely(log, a + b, lo, hi, n)
    decreases |a|
  {
    if a == [] {
      assert a + b == b;
    } else {
      var m := WideHead(log, a, lo, mid, n);
      WideJoin(log, a[1..], b, m, mid, hi, n);
      assert (a + b)[1..] == a[1..] + b;
      WideCons(log, a + b, lo, m, hi, n);
    }
  }

  lemma {:induction false} WideSplit(log: seq<StreamEvent>, a: seq<IndexedEvent>, b: seq<IndexedEvent>,
                                     lo: nat, hi: nat, n: nat) returns (mid: nat)
    requires n > 0 && CoversWidely(log, a + b, lo, hi, n)
    ensures CoversWidely(log, a, lo, mid, n) && CoversWidely(log, b, mid, hi, n)
    decreases |a|
  {
    if a == [] {
      WideBounds(log, a + b, lo, hi, n);
      assert a + b == b;
      mid := lo;
    } else {
      var m := WideHead(log, a + b, lo, hi, n);
      assert (a + b)[1..] == a[1..] + b;
      mid := WideSplit(log, a[1..], b, m, hi, n);
      WideCons(log, a, lo, m, mid, n);
    }
  }

  /** Without gaps there is no difference. */
  lemma {:induction false} CoversWithoutGaps(log: seq<StreamEvent>, seen: seq<IndexedEvent>, lo: nat, hi: nat, n: nat)
    requires Covers(log, seen, lo, hi) && NoGap(seen)
    ensures CoversWidely(log, seen, lo, hi, n)
    decreases |seen|
  {
    if seen != [] {
      CoversWithoutGaps(log, seen[1..], lo + 1, hi, n);
    }
  }

  lemma WideNext(log: seq<StreamEvent>, seen: seq<IndexedEvent>, lo: nat, hi: nat, n: nat)
    requires n > 0 && CoversWidely(log, seen, lo, hi, n) && hi < |log| && !log[hi].Gap?
    ensures CoversWidely(log, seen + [IndexedEvent(hi, log[hi])], lo, hi + 1, n)
  {
    var next := [IndexedEvent(hi, log[hi])];
    assert CoversWidely(log, next[1..], hi + 1, hi + 1, n);
    WideJoin(log, seen, next, lo, hi, hi + 1, n);
  }

  lemma WideGap(log: seq<StreamEvent>, seen: seq<IndexedEvent>, gap: IndexedEvent, lo: nat, hi: nat, later: nat, n: nat)
    requires n > 0 && CoversWidely(log, seen, lo, hi, n) && hi + n <= later <= |log| && gap.event.Gap?
    ensures CoversWidely(log, seen + [gap], lo, later, n)
  {
    assert CoversWidely(log, [gap][1..], later, later, n);
    WideJoin(log, seen, [gap], lo, hi, later, n);
  }

  /** A push keeps every gap as wide as the queue. */
  lemma PushCoversWidely(log: seq<StreamEvent>, seen: seq<IndexedEvent>, q: Queue, capacity: nat, lo: nat, hi: nat)
    requires capacity > 0 && !q.closed && hi < |log| && !log[hi].Gap?
    requires CoversWidely(log, seen + q.events, lo, hi, capacity)
    ensures CoversWidely(log, seen + Pushed(q, capacity, IndexedEvent(hi, log[hi])).events, lo, hi + 1, capacity)
  {
    var e := IndexedEvent(hi, log[hi]);
    if e.event.IsTerminal() || |q.events| < capacity {
      WideNext(log, seen + q.events, lo, hi, capacity);
      Assoc(seen, q.events, [e]);
    } else {
      var mid := WideSplit(log, seen, q.events, lo, hi, capacity);
      WideBounds(log, q.events, mid, hi, capacity);
      var gap := IndexedEvent(hi, Gap);
      if capacity > 1 {
        WideGap(log, seen, gap, lo, mid, hi, capacity);
        WideNext(log, seen + [gap], lo, hi, capacity);
        assert seen + [gap] + [e] == seen + [gap, e];
      } else {
        WideGap(log, seen, gap, lo, mid, hi + 1, capacity);
      }
    }
  }

  /** What a push keeps: everything unread unless the queue is full, and the newest event unless there
      is no room for it beside the gap. */
  lemma PushLosesOnlyWhenFull(q: Queue, capacity: nat, e: IndexedEvent)
    requires !q.closed && capacity > 0
    ensures var r := Pushed(q, capacity, e);
            && (|q.events| < capacity || e.event.IsTerminal() ==> r.events == q.events + [e])
            && r.events != [] && (capacity > 1 ==> r.events[|r.events| - 1] == e)
  {
  }

  /** Between two events that are not gaps, gaps stand for at least `n` events. */
  lemma GapsAreWide(log: seq<StreamEvent>, before: seq<IndexedEvent>, first: IndexedEvent, gaps: seq<IndexedEvent>,
                    second: IndexedEvent, after: seq<IndexedEvent>, lo: nat, hi: nat, n: nat)
    requires n > 0 && CoversWidely(log, before + [first] + gaps + [second] + after, lo, hi, n)
    requires !first.event.Gap? && !second.event.Gap? && gaps != [] && gaps[0].event.Gap?
    ensures second.index > first.index + n
  {
    var all := before + [first] + gaps + [second];
    var m4 := WideSplit(log, all, after, lo, hi, n);
    var m3 := WideSplit(log, before + [first] + gaps, [second], lo, m4, n);
    var m2 := WideSplit(log, before + [first], gaps, lo, m3, n);
    var m1 := WideSplit(log, before, [first], lo, m2, n);
    var m :| m2 + n <= m <= m3 && CoversWidely(log, gaps[1..], m, m3, n);
    assert first.index == m1 && second.index == m3;
    assert CoversWidely(log, [first][1..], m1 + 1, m2, n);
  }
}
