/** What a subscriber has seen of the reader's output, when losses are marked by gaps. */
module Coverage {
  import opened Events
  import opened GapParsing

  /** An event and its position in the reader's output. For a gap the position has no meaning. */
  datatype IndexedEvent = IndexedEvent(index: nat, event: StreamEvent)

  function Labelled(log: seq<StreamEvent>): (labelled: seq<IndexedEvent>)
    ensures |labelled| == |log|
    ensures forall i {:trigger labelled[i]} :: 0 <= i < |log| ==> labelled[i] == IndexedEvent(i, log[i])
  {
    seq(|log|, i requires 0 <= i < |log| => IndexedEvent(i, log[i]))
  }

  /** The events at positions `lo` to `hi` of the log. */
  predicate IsSlice(log: seq<StreamEvent>, events: seq<IndexedEvent>, lo: int, hi: int)
  {
    0 <= lo <= hi <= |log| && events == Labelled(log)[lo..hi]
  }

  lemma SliceGrows(log: seq<StreamEvent>, more: seq<StreamEvent>, events: seq<IndexedEvent>, lo: int, hi: int)
    requires IsSlice(log, events, lo, hi)
    ensures IsSlice(log + more, events, lo, hi)
  {
    assert forall i :: lo <= i < hi ==> Labelled(log + more)[i] == Labelled(log)[i];
  }

  function Unlabelled(indexed: seq<IndexedEvent>): (events: seq<StreamEvent>)
    ensures |events| == |indexed|
    ensures forall i {:trigger events[i]} :: 0 <= i < |indexed| ==> events[i] == indexed[i].event
  {
    seq(|indexed|, i requires 0 <= i < |indexed| => indexed[i].event)
  }

  /** `seen` accounts for `log[lo..hi]`: an event that is not a gap is the next one of the log, and a
      gap skips at least one. */
  ghost predicate Covers(log: seq<StreamEvent>, seen: seq<IndexedEvent>, lo: nat, hi: nat)
    decreases |seen|
  {
    if seen == [] then lo == hi <= |log|
    else if seen[0].event.Gap? then exists mid :: lo < mid <= hi && Covers(log, seen[1..], mid, hi)
    else lo < |log| && seen[0] == IndexedEvent(lo, log[lo]) && Covers(log, seen[1..], lo + 1, hi)
  }

  ghost predicate NoGap(seen: seq<IndexedEvent>)
  {
    forall i :: 0 <= i < |seen| ==> !seen[i].event.Gap?
  }

  lemma CoversNothing(log: seq<StreamEvent>, seen: seq<IndexedEvent>, at: nat)
    requires |seen| == 0 && at <= |log|
    ensures Covers(log, seen, at, at) && NoGap(seen)
  {
  }

  lemma {:induction false} CoversBounds(log: seq<StreamEvent>, seen: seq<IndexedEvent>, lo: nat, hi: nat)
    requires Covers(log, seen, lo, hi)
    ensures lo <= hi <= |log| && (seen != [] ==> lo < hi)
    decreases |seen|
  {
    if seen != [] {
      if seen[0].event.Gap? {
        var mid :| lo < mid <= hi && Covers(log, seen[1..], mid, hi);
        CoversBounds(log, seen[1..], mid, hi);
      } else {
        CoversBounds(log, seen[1..], lo + 1, hi);
      }
    }
  }

  /** Later output does not change what was covered. */
  lemma {:induction false} CoversGrow(log: seq<StreamEvent>, more: seq<StreamEvent>, seen: seq<IndexedEvent>,
                                      lo: nat, hi: nat)
    requires Covers(log, seen, lo, hi)
    ensures Covers(log + more, seen, lo, hi)
    decreases |seen|
  {
    if seen != [] {
      if seen[0].event.Gap? {
        var mid :| lo < mid <= hi && Covers(log, seen[1..], mid, hi);
        CoversGrow(log, more, seen[1..], mid, hi);
      } else {
        CoversGrow(log, more, seen[1..], lo + 1, hi);
      }
    }
  }

  lemma {:induction false} CoversJoin(log: seq<StreamEvent>, a: seq<IndexedEvent>, b: seq<IndexedEvent>,
                                      lo: nat, mid: nat, hi: nat)
    requires Covers(log, a, lo, mid) && Covers(log, b, mid, hi)
    ensures Covers(log, a + b, lo, hi)
    decreases |a|
  {
    if a == [] {
      assert a + b == b;
    } else {
      assert (a + b)[1..] == a[1..] + b;
      CoversBounds(log, b, mid, hi);
      if a[0].event.Gap? {
        var m :| lo < m <= mid && Covers(log, a[1..], m, mid);
        CoversJoin(log, a[1..], b, m, mid, hi);
      } else {
        CoversJoin(log, a[1..], b, lo + 1, mid, hi);
      }
    }
  }

  lemma {:induction false} CoversSplit(log: seq<StreamEvent>, a: seq<IndexedEvent>, b: seq<IndexedEvent>,
                                       lo: nat, hi: nat)
    returns (mid: nat)
    requires Covers(log, a + b, lo, hi)
    ensures Covers(log, a, lo, mid) && Covers(log, b, mid, hi)
    decreases |a|
  {
    CoversBounds(log, a + b, lo, hi);
    if a == [] {
      assert a + b == b;
      mid := lo;
    } else {
      assert (a + b)[1..] == a[1..] + b;
      if a[0].event.Gap? {
        var m :| lo < m <= hi && Covers(log, (a + b)[1..], m, hi);
        mid := CoversSplit(log, a[1..], b, m, hi);
        CoversBounds(log, a[1..], m, mid);
      } else {
        mid := CoversSplit(log, a[1..], b, lo + 1, hi);
      }
    }
  }

  /** A gap-free part of the log covers itself. */
  lemma {:induction false} CoversExactly(log: seq<StreamEvent>, lo: nat, hi: nat)
    requires lo <= hi <= |log|
    requires forall i :: lo <= i < hi ==> !log[i].Gap?
    ensures Covers(log, Labelled(log)[lo..hi], lo, hi)
    decreases hi - lo
  {
    if lo < hi {
      CoversExactly(log, lo + 1, hi);
      assert Labelled(log)[lo..hi][1..] == Labelled(log)[lo+1..hi];
    }
  }

  /** The next event of the log is seen. */
  lemma CoversNext(log: seq<StreamEvent>, seen: seq<IndexedEvent>, lo: nat, hi: nat)
    requires Covers(log, seen, lo, hi) && hi < |log| && !log[hi].Gap?
    ensures Covers(log, seen + [IndexedEvent(hi, log[hi])], lo, hi + 1)
  {
    var next := [IndexedEvent(hi, log[hi])];
    assert Covers(log, next[1..], hi + 1, hi + 1);
    CoversJoin(log, seen, next, lo, hi, hi + 1);
  }

  /** A gap is seen instead of the events up to `later`. */
  lemma CoversGap(log: seq<StreamEvent>, seen: seq<IndexedEvent>, gap: IndexedEvent, lo: nat, hi: nat, later: nat)
    requires Covers(log, seen, lo, hi) && hi < later <= |log| && gap.event.Gap?
    ensures Covers(log, seen + [gap], lo, later)
  {
    assert Covers(log, [gap][1..], later, later);
    CoversJoin(log, seen, [gap], lo, hi, later);
  }

  /** Without gaps, what was seen is exactly a contiguous part of the log. */
  lemma {:induction false} CoversNoGap(log: seq<StreamEvent>, seen: seq<IndexedEvent>, lo: nat, hi: nat)
    requires Covers(log, seen, lo, hi) && NoGap(seen)
    ensures lo <= hi <= |log| && seen == Labelled(log)[lo..hi]
    decreases |seen|
  {
    if seen != [] {
      CoversNoGap(log, seen[1..], lo + 1, hi);
      assert Labelled(log)[lo..hi] == [IndexedEvent(lo, log[lo])] + Labelled(log)[lo+1..hi];
    }
  }

  /** Consecutive events that are not gaps are at increasing positions, and there is a gap between
      them exactly if something between them was lost. */
  lemma GapIffLoss(log: seq<StreamEvent>, before: seq<IndexedEvent>, first: IndexedEvent, gaps: seq<IndexedEvent>,
                   second: IndexedEvent, after: seq<IndexedEvent>, lo: nat, hi: nat)
    requires Covers(log, before + [first] + gaps + [second] + after, lo, hi)
    requires !first.event.Gap? && !second.event.Gap?
    requires forall i :: 0 <= i < |gaps| ==> gaps[i].event.Gap?
    ensures lo <= first.index < second.index < hi <= |log|
    ensures gaps != [] <==> second.index > first.index + 1
    ensures log[first.index] == first.event && log[second.index] == second.event
  {
    var tail := gaps + ([second] + after);
    assert before + [first] + gaps + [second] + after == before + ([first] + tail);
    var a := CoversSplit(log, before, [first] + tail, lo, hi);
    CoversBounds(log, before, lo, a);
    assert ([first] + tail)[1..] == tail;
    var b := CoversSplit(log, gaps, [second] + after, a + 1, hi);
    CoversBounds(log, gaps, a + 1, b);
    assert ([second] + after)[1..] == after;
    CoversBounds(log, after, b + 1, hi);
  }

  /** Seen chunks and gaps are the covered bytes thinned at the gaps. */
  lemma {:induction false} CoversThins(log: seq<StreamEvent>, seen: seq<IndexedEvent>, lo: nat, hi: nat)
    requires Covers(log, seen, lo, hi)
    requires Ongoing(Unlabelled(seen))
    ensures lo <= hi <= |log| && Thins(Unlabelled(seen), Payload(log[lo..hi]))
    decreases |seen|
  {
    CoversBounds(log, seen, lo, hi);
    if seen != [] {
      var bytes := Payload(log[lo..hi]);
      assert Unlabelled(seen)[1..] == Unlabelled(seen[1..]);
      if seen[0].event.Gap? {
        var mid :| lo < mid <= hi && Covers(log, seen[1..], mid, hi);
        CoversThins(log, seen[1..], mid, hi);
        assert log[lo..hi] == log[lo..mid] + log[mid..hi];
        PayloadAppend(log[lo..mid], log[mid..hi]);
        assert bytes[|Payload(log[lo..mid])|..] == Payload(log[mid..hi]);
      } else {
        assert Unlabelled(seen)[0] == log[lo];
        CoversThins(log, seen[1..], lo + 1, hi);
        assert log[lo..hi][1..] == log[lo+1..hi];
        assert bytes[|log[lo].bytes|..] == Payload(log[lo+1..hi]);
      }
    } else {
      assert log[lo..hi] == [];
    }
  }
}
