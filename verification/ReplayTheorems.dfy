/** When the replay of a single subscriber fits its live events, and what a consumer sees if it does
    not. The lossy loop can discard a buffer without recording it, and no gap marks that for a
    subscriber that attaches later. */
module ReplayTheorems {
  import opened Events
  import opened Subsequences
  import opened LineSpec
  import opened ParserMachine
  import opened GapParsing
  import opened CutOffLines
  import opened Coverage
  import opened Fanout
  import opened FanoutInvariant
  import opened FanoutTheorems
  import opened SingleSubscriber
  import opened SingleInvariant
  import opened SingleTheorems
  import opened SingleSources

  /** The position at which a subscriber's replay has to end: that of its first live event or of the
      terminal event it replays, or behind its last replayed chunk as long as there is neither. */
  function ReplayEnd(log: seq<StreamEvent>, u: Subscriber): int
  {
    if u.late then |log| - 1
    else if LiveEvents(u) != [] then u.lo
    else if u.snapshot != [] then u.snapshot[|u.snapshot| - 1].index + 1
    else u.attachedAt
  }

  /** Everything the reader produced from the first replayed chunk up to the end of the replay was
      recorded: no buffer was discarded in between. */
  predicate NothingDiscarded(s: Stream, u: Subscriber)
  {
    u.snapshot != [] ==>
      forall i :: u.snapshot[0].index <= i < ReplayEnd(s.log, u) && i < |s.log| ==>
        IndexedEvent(i, s.log[i]) in s.recorded
  }

  /** The replay is the part of the log just before the first live event. */
  predicate Adjoins(log: seq<StreamEvent>, u: Subscriber)
  {
    IsSlice(log, u.snapshot, ReplayEnd(log, u) - |u.snapshot|, ReplayEnd(log, u))
  }

  // ------------------------------------------------------------------------- coverage and adjacency

  lemma SliceCovers(log: seq<StreamEvent>, events: seq<IndexedEvent>, lo: nat, hi: nat)
    requires LogShape(log) && IsSlice(log, events, lo, hi)
    ensures Covers(log, events, lo, hi)
  {
    CoversExactly(log, lo, hi);
  }

  lemma AdjoiningCovers(c: Config, log: seq<StreamEvent>, u: Subscriber) returns (to: nat)
    requires LogShape(log) && SubscriberOk(c, log, u) && Adjoins(log, u)
    ensures Covers(log, Everything(u), ReplayEnd(log, u) - |u.snapshot|, to)
  {
    var at := ReplayEnd(log, u);
    SliceCovers(log, u.snapshot, at - |u.snapshot|, at);
    if u.late {
      LateHas(c, log, u);
      CoversNext(log, u.snapshot, at - |u.snapshot|, at);
      to := at + 1;
    } else {
      RunningHas(c, log, u);
      if LiveEvents(u) == [] {
        assert u.snapshot + LiveEvents(u) == u.snapshot;
        to := at;
      } else {
        CoversJoin(log, u.snapshot, LiveEvents(u), at - |u.snapshot|, u.lo, u.hi);
        to := u.hi;
      }
    }
  }

  /** An event that is not a gap begins exactly what it accounts for. */
  lemma FirstIsAt(log: seq<StreamEvent>, seen: seq<IndexedEvent>, lo: nat, hi: nat)
    requires Covers(log, seen, lo, hi) && seen != [] && !seen[0].event.Gap?
    ensures seen[0].index == lo
  {
  }

  lemma CoversAdjoins(c: Config, log: seq<StreamEvent>, u: Subscriber, from: nat, to: nat)
    requires LogShape(log) && SubscriberOk(c, log, u) && Covers(log, Everything(u), from, to)
    ensures Adjoins(log, u)
  {
    if u.late {
      LateHas(c, log, u);
      SplitAdjoins(log, u, [IndexedEvent(|log| - 1, log[|log| - 1])], from, to);
    } else {
      RunningHas(c, log, u);
      if u.snapshot == [] {
        EmptyAdjoins(c, log, u);
      } else {
        SplitAdjoins(log, u, LiveEvents(u), from, to);
      }
    }
  }

  /** Live events begin where they should, and not with a gap. */
  ghost predicate LiveOk(log: seq<StreamEvent>, u: Subscriber)
  {
    !u.late ==> Covers(log, LiveEvents(u), u.lo, u.hi) && (LiveEvents(u) != [] ==> !LiveEvents(u)[0].event.Gap?)
  }

  lemma ChunksNoGap(log: seq<StreamEvent>, events: seq<IndexedEvent>)
    requires InOrder(log, events)
    ensures NoGap(events)
  {
    assert forall i :: 0 <= i < |events| ==> Genuine(log, events[i]);
  }

  lemma SplitAdjoins(log: seq<StreamEvent>, u: Subscriber, rest: seq<IndexedEvent>, from: nat, to: nat)
    requires InOrder(log, u.snapshot) && LiveOk(log, u) && Covers(log, u.snapshot + rest, from, to)
    requires u.late ==> HasEnded(log)
    requires rest == if u.late then [IndexedEvent(|log| - 1, log[|log| - 1])] else LiveEvents(u)
    requires u.snapshot != [] || rest != []
    ensures Adjoins(log, u)
  {
    var mid := CoversSplit(log, u.snapshot, rest, from, to);
    ChunksNoGap(log, u.snapshot);
    CoversNoGap(log, u.snapshot, from, mid);
    assert IsSlice(log, u.snapshot, mid - |u.snapshot|, mid);
    ReplayEndsAt(log, u, rest, mid, to);
  }

  lemma ReplayEndsAt(log: seq<StreamEvent>, u: Subscriber, rest: seq<IndexedEvent>, mid: nat, to: nat)
    requires LiveOk(log, u) && Covers(log, rest, mid, to) && IsSlice(log, u.snapshot, mid - |u.snapshot|, mid)
    requires u.late ==> HasEnded(log)
    requires rest == if u.late then [IndexedEvent(|log| - 1, log[|log| - 1])] else LiveEvents(u)
    requires u.snapshot != [] || rest != []
    ensures ReplayEnd(log, u) == mid
  {
    if rest != [] {
      FirstIsAt(log, rest, mid, to);
      if !u.late {
        FirstIsAt(log, LiveEvents(u), u.lo, u.hi);
      }
    } else {
      assert u.snapshot[|u.snapshot| - 1] == Labelled(log)[mid - 1];
    }
  }

  // ------------------------------------------------------------------------- recording and adjacency

  /** In strictly increasing positions, nothing is missing only if there is one event per position. */
  lemma {:induction false} DenseAt(log: seq<StreamEvent>, events: seq<IndexedEvent>, at: nat, k: nat)
    requires InOrder(log, events) && k < |events| && events[|events| - 1].index < at <= |log|
    requires forall i :: events[0].index <= i < at ==> IndexedEvent(i, log[i]) in events
    ensures events[k].index == events[0].index + k
  {
    if k > 0 {
      DenseAt(log, events, at, k - 1);
      var i := events[k-1].index + 1;
      assert events[k].index <= events[|events| - 1].index;
      assert IndexedEvent(i, log[i]) in events;
      var p :| 0 <= p < |events| && events[p] == IndexedEvent(i, log[i]);
      assert p > k - 1 && p <= k;
    }
  }

  lemma DenseIsSlice(log: seq<StreamEvent>, events: seq<IndexedEvent>, at: nat)
    requires InOrder(log, events) && events != [] && events[|events| - 1].index < at <= |log|
    requires forall i :: events[0].index <= i < at ==> IndexedEvent(i, log[i]) in events
    ensures IsSlice(log, events, at - |events|, at)
  {
    var first, n := events[0].index, |events|;
    forall k | 0 <= k < n ensures events[k].index == first + k && Genuine(log, events[k]) {
      DenseAt(log, events, at, k);
    }
    if first + n < at {
      NoneBehindLast(log, events, first + n);
      assert false;
    }
  }

  lemma NoneBehindLast(log: seq<StreamEvent>, events: seq<IndexedEvent>, i: nat)
    requires InOrder(log, events) && events != [] && events[|events| - 1].index < i < |log|
    ensures IndexedEvent(i, log[i]) !in events
  {
  }

  /** What was recorded from the first replayed chunk on and before the end of the replay was
      replayed. */
  lemma RecordedIsReplayed(log: seq<StreamEvent>, recorded: seq<IndexedEvent>, u: Subscriber, at: int, e: IndexedEvent)
    requires InOrder(log, recorded) && FromRecorded(recorded, u) && u.snapshot != []
    requires forall p :: u.recordedAt <= p < |recorded| ==> recorded[p].index >= at
    requires e in recorded && u.snapshot[0].index <= e.index < at
    ensures e in u.snapshot
  {
    var p :| 0 <= p < |recorded| && recorded[p] == e;
    var k, n := u.recordedAt, |u.snapshot|;
    assert u.snapshot[0] == recorded[k - n];
    assert k - n <= p < k;
    assert u.snapshot[p - (k - n)] == e;
  }

  /** What was recorded after a subscriber attached is not before the end of its replay. */
  lemma ReplayEndsBefore(c: Config, log: seq<StreamEvent>, recorded: seq<IndexedEvent>, u: Subscriber)
    requires SubscriberOk(c, log, u) && InOrder(log, recorded) && FromRecorded(recorded, u) && u.snapshot != []
    ensures forall p :: u.recordedAt <= p < |recorded| ==> recorded[p].index >= ReplayEnd(log, u)
  {
    assert u.snapshot[|u.snapshot| - 1] == recorded[u.recordedAt - 1];
    assert forall p :: 0 <= p < |recorded| ==> Genuine(log, recorded[p]);
  }

  lemma ReplayedBeforeEnd(c: Config, s: Stream, u: Subscriber)
    requires LogShape(s.log) && SubscriberOk(c, s.log, u) && FromRecorded(s.recorded, u) && u.snapshot != []
    ensures u.snapshot[|u.snapshot| - 1].index < ReplayEnd(s.log, u) <= |s.log|
  {
    var last := u.snapshot[|u.snapshot| - 1];
    assert Genuine(s.log, last) && last == s.recorded[u.recordedAt - 1];
    if !u.late {
      CoversBounds(s.log, LiveEvents(u), u.lo, u.hi);
    }
  }

  lemma AdjoinsIffNothingDiscarded(c: Config, s: Stream, id: nat)
    requires ValidConfig(c) && CanReach(c, s) && id < |s.subscribers|
    ensures Adjoins(s.log, s.subscribers[id]) <==> NothingDiscarded(s, s.subscribers[id])
  {
    CanReachRecorded(c, s, id);
    var u := s.subscribers[id];
    if u.snapshot == [] {
      EmptyAdjoins(c, s.log, u);
    } else {
      if NothingDiscarded(s, u) {
        NothingDiscardedAdjoins(c, s, u);
      }
      if Adjoins(s.log, u) {
        AdjoiningRecorded(s, u);
      }
    }
  }

  lemma NothingDiscardedAdjoins(c: Config, s: Stream, u: Subscriber)
    requires LogShape(s.log) && InOrder(s.log, s.recorded) && SubscriberOk(c, s.log, u) && FromRecorded(s.recorded, u)
    requires u.snapshot != [] && NothingDiscarded(s, u)
    ensures Adjoins(s.log, u)
  {
    ReplayedBeforeEnd(c, s, u);
    ReplayEndsBefore(c, s.log, s.recorded, u);
    RecordedAdjoins(s.log, s.recorded, u, ReplayEnd(s.log, u));
  }

  lemma RecordedAdjoins(log: seq<StreamEvent>, recorded: seq<IndexedEvent>, u: Subscriber, at: nat)
    requires InOrder(log, recorded) && InOrder(log, u.snapshot) && FromRecorded(recorded, u) && u.snapshot != []
    requires u.snapshot[|u.snapshot| - 1].index < at <= |log|
    requires forall p :: u.recordedAt <= p < |recorded| ==> recorded[p].index >= at
    requires forall i :: u.snapshot[0].index <= i < at ==> IndexedEvent(i, log[i]) in recorded
    ensures IsSlice(log, u.snapshot, at - |u.snapshot|, at)
  {
    forall i | u.snapshot[0].index <= i < at ensures IndexedEvent(i, log[i]) in u.snapshot {
      RecordedIsReplayed(log, recorded, u, at, IndexedEvent(i, log[i]));
    }
    DenseIsSlice(log, u.snapshot, at);
  }

  lemma EmptyAdjoins(c: Config, log: seq<StreamEvent>, u: Subscriber)
    requires SubscriberOk(c, log, u) && u.snapshot == []
    ensures Adjoins(log, u)
  {
    if !u.late {
      CoversBounds(log, LiveEvents(u), u.lo, u.hi);
    }
    var at := ReplayEnd(log, u);
    assert Labelled(log)[at..at] == [];
  }

  lemma AdjoiningRecorded(s: Stream, u: Subscriber)
    requires FromRecorded(s.recorded, u) && u.snapshot != [] && Adjoins(s.log, u)
    ensures NothingDiscarded(s, u)
  {
    var n, from := |u.snapshot|, ReplayEnd(s.log, u) - |u.snapshot|;
    assert u.snapshot[0] == Labelled(s.log)[from];
    forall i | from <= i < from + n ensures IndexedEvent(i, s.log[i]) in s.recorded {
      assert u.snapshot[i - from] == Labelled(s.log)[i] == s.recorded[u.recordedAt - n + (i - from)];
    }
  }

  lemma CanReachRecorded(c: Config, s: Stream, id: nat)
    requires ValidConfig(c) && CanReach(c, s) && id < |s.subscribers|
    ensures LogShape(s.log) && InOrder(s.log, s.recorded)
    ensures SubscriberOk(c, s.log, s.subscribers[id]) && FromRecorded(s.recorded, s.subscribers[id])
  {
    CanReachInv(c, s);
    CanReachSourced(c, s);
  }

  // ------------------------------------------------------------------------- main results

  /** The events account for some run of the log, with a gap for every loss. */
  ghost predicate AccountsForRun(log: seq<StreamEvent>, seen: seq<IndexedEvent>)
  {
    exists from: nat, to: nat :: Covers(log, seen, from, to)
  }

  lemma AccountsIffAdjoins(c: Config, log: seq<StreamEvent>, u: Subscriber)
    requires LogShape(log) && SubscriberOk(c, log, u)
    ensures AccountsForRun(log, Everything(u)) <==> Adjoins(log, u)
  {
    if AccountsForRun(log, Everything(u)) {
      var from: nat, to: nat :| Covers(log, Everything(u), from, to);
      CoversAdjoins(c, log, u, from, to);
    }
    if Adjoins(log, u) {
      var to := AdjoiningCovers(c, log, u);
      var from: nat := ReplayEnd(log, u) - |u.snapshot|;
      assert Covers(log, Everything(u), from, to);
    }
  }

  /** What a subscriber returned and holds accounts for a run of the reader's output, with a gap for
      every loss, exactly if the reader discarded nothing between the first chunk it replays and its
      first live event. */
  lemma ReplayIsGenuineIff(c: Config, s: Stream, id: nat)
    requires ValidConfig(c) && CanReach(c, s) && id < |s.subscribers|
    ensures AccountsForRun(s.log, Everything(s.subscribers[id])) <==> NothingDiscarded(s, s.subscribers[id])
  {
    CanReachSubscriber(c, s, id);
    AccountsIffAdjoins(c, s.log, s.subscribers[id]);
    AdjoinsIffNothingDiscarded(c, s, id);
  }

  /** Reliable delivery never discards anything. */
  lemma ReliableDiscardsNothing(c: Config, s: Stream, id: nat)
    requires ValidConfig(c) && CanReach(c, s) && id < |s.subscribers| && c.delivery.ReliableWithBackpressure?
    ensures NothingDiscarded(s, s.subscribers[id])
  {
    CanReachRecorded(c, s, id);
    CanReachAllRecorded(c, s);
    var u := s.subscribers[id];
    if u.snapshot != [] {
      ReplayedBeforeEnd(c, s, u);
      forall i | u.snapshot[0].index <= i < ReplayEnd(s.log, u) ensures IndexedEvent(i, s.log[i]) in s.recorded {
        ReplayEndsWithChunks(c, s.log, u);
        assert s.recorded[i] == Labelled(s.log)[i];
      }
    }
  }

  lemma CanReachAllRecorded(c: Config, s: Stream)
    requires ValidConfig(c) && CanReach(c, s) && c.delivery.ReliableWithBackpressure?
    ensures s.recorded == Labelled(s.log)[..ChunkCount(s.log)]
  {
    CanReachInv(c, s);
  }

  lemma ReplayEndsWithChunks(c: Config, log: seq<StreamEvent>, u: Subscriber)
    requires LogShape(log) && SubscriberOk(c, log, u) && u.snapshot != []
    ensures ReplayEnd(log, u) <= ChunkCount(log)
  {
    var last := u.snapshot[|u.snapshot| - 1];
    assert Genuine(log, last);
    if !u.late && LiveEvents(u) != [] {
      CoversBounds(log, LiveEvents(u), u.lo, u.hi);
    }
  }

  /** What a consumer sees if nothing was discarded between the first chunk it replays and its first
      live event, in particular if it replays nothing: at any time, in both delivery modes, with losses
      before and after that, and also if the stream fails. What it received accounts for the log from
      `from` up to `hi`. The lines offered to it are among those of what the child wrote since its
      first event. If the stream is dropped now, the consumer flushes a partial line, and its lines
      are among those of the log up to `hi`, and still among those of everything the child wrote if
      that cuts no line off. */
  lemma SingleLinesAreGenuine(c: Config, s: Stream, id: nat, l: Limits) returns (from: nat, hi: nat)
    requires ValidConfig(c) && CanReach(c, s) && id < |s.subscribers| && NothingDiscarded(s, s.subscribers[id])
    ensures from == ReplayEnd(s.log, s.subscribers[id]) - |s.subscribers[id].snapshot| <= hi <= |s.log|
    ensures var received := s.subscribers[id].received;
            && Covers(s.log, received, from, hi)
            && SeesOnlyGenuine(l, Unlabelled(received), Payload(s.log[from..hi]), Payload(s.log[from..]))
            && (from == 0 ==> SeesOnlyGenuine(l, Unlabelled(received), Payload(s.log[..hi]), s.ingested))
  {
    CanReachIngested(c, s);
    from, hi := ReplayAndLiveCover(c, s, id);
    var received := s.subscribers[id].received;
    SeenIsGenuine(s.log, received, from, hi, Payload(s.log[from..]), l);
    if from == 0 {
      assert s.log[0..] == s.log && s.log[0..hi] == s.log[..hi];
      SeenIsGenuine(s.log, received, 0, hi, s.ingested, l);
    }
  }

  /** With reliable delivery, exactly when the lines of a consumer whose stream is dropped now are among
      those of every continuation of what it received: if that cuts no line off. */
  lemma SingleDroppedLinesIff(c: Config, s: Stream, id: nat, l: Limits) returns (from: nat, hi: nat)
    requires ValidConfig(c) && CanReach(c, s) && id < |s.subscribers| && c.delivery.ReliableWithBackpressure?
    requires Ongoing(Unlabelled(s.subscribers[id].received))
    ensures from <= hi <= |s.log|
    ensures var events, bytes := Unlabelled(s.subscribers[id].received), Payload(s.log[from..hi]);
            && events == s.log[from..hi]
            && ((forall more: Bytes :: Subsequence(Drive(l, FRESH, events), Lines(l, bytes + more)))
                <==> EndsCleanly(l, Feed(l, FRESH, bytes).parser))
  {
    ReliableDiscardsNothing(c, s, id);
    from, hi := ReplayAndLiveCover(c, s, id);
    var received := s.subscribers[id].received;
    ReliableReceivesNoGap(c, s, id);
    ReceivedWithoutGaps(s.log, received, from, hi);
    ClosedWithoutGapsIff(l, Unlabelled(received));
  }

  lemma ReliableReceivesNoGap(c: Config, s: Stream, id: nat)
    requires ValidConfig(c) && CanReach(c, s) && id < |s.subscribers| && c.delivery.ReliableWithBackpressure?
    ensures NoGap(s.subscribers[id].received)
  {
    CanReachSubscriber(c, s, id);
    ReliableNoGap(c, s.log, s.subscribers[id]);
  }

  lemma ReliableNoGap(c: Config, log: seq<StreamEvent>, u: Subscriber)
    requires SubscriberOk(c, log, u) && c.delivery.ReliableWithBackpressure?
    ensures NoGap(u.received)
  {
    ChunksNoGap(log, u.snapshot);
    if u.late {
      LateHas(c, log, u);
      PrefixNoGap(u.received, Everything(u), u.snapshot, [IndexedEvent(|log| - 1, log[|log| - 1])]);
    } else {
      RunningHas(c, log, u);
      PrefixNoGap(u.received, Everything(u), u.snapshot, LiveEvents(u));
    }
  }

  lemma PrefixNoGap(received: seq<IndexedEvent>, all: seq<IndexedEvent>, a: seq<IndexedEvent>, b: seq<IndexedEvent>)
    requires all == a + b && received <= all && NoGap(a) && NoGap(b)
    ensures NoGap(received)
  {
    forall i | 0 <= i < |received| ensures !received[i].event.Gap? {
      assert received[i] == all[i] == if i < |a| then a[i] else b[i - |a|];
    }
  }

  lemma ReplayAndLiveCover(c: Config, s: Stream, id: nat) returns (from: nat, hi: nat)
    requires ValidConfig(c) && CanReach(c, s) && id < |s.subscribers| && NothingDiscarded(s, s.subscribers[id])
    ensures LogShape(s.log) && from == ReplayEnd(s.log, s.subscribers[id]) - |s.subscribers[id].snapshot| <= |s.log|
    ensures Covers(s.log, s.subscribers[id].received, from, hi)
  {
    CanReachSubscriber(c, s, id);
    AdjoinsIffNothingDiscarded(c, s, id);
    from, hi := AdjoiningReceived(c, s.log, s.subscribers[id]);
  }

  lemma AdjoiningReceived(c: Config, log: seq<StreamEvent>, u: Subscriber) returns (from: nat, hi: nat)
    requires LogShape(log) && SubscriberOk(c, log, u) && Adjoins(log, u)
    ensures from == ReplayEnd(log, u) - |u.snapshot| <= |log| && Covers(log, u.received, from, hi)
  {
    from := ReplayEnd(log, u) - |u.snapshot|;
    var to := AdjoiningCovers(c, log, u);
    hi := ReceivedCovers(log, u, from, to);
  }

  lemma ReceivedCovers(log: seq<StreamEvent>, u: Subscriber, from: nat, to: nat) returns (hi: nat)
    requires Covers(log, Everything(u), from, to)
    ensures Covers(log, u.received, from, hi) && from <= |log|
  {
    CoversBounds(log, Everything(u), from, to);
    var last := if u.late then (if u.terminal.Some? then [u.terminal.value] else []) else u.channel;
    Assoc(u.received, u.replay, last);
    hi := CoversSplit(log, u.received, u.replay + last, from, to);
  }

  lemma CanReachIngested(c: Config, s: Stream)
    requires ValidConfig(c) && CanReach(c, s)
    ensures Payload(s.log) <= s.ingested && (HasEnded(s.log) ==> Payload(s.log) == s.ingested)
  {
    CanReachInv(c, s);
  }
}
