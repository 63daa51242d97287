/** What the broadcast backend guarantees in every interleaving. */
module FanoutTheorems {
  import opened Events
  import opened Subsequences
  import opened LineSpec
  import opened ParserMachine
  import opened GapParsing
  import opened CutOffLines
  import opened Consuming
  import opened Coverage
  import opened Replay
  import opened LossyQueue
  import opened BroadcastShared
  import opened Fanout
  import opened FanoutInvariant
  import opened FanoutService
  import opened WideGaps

  /** While the stream goes on, every open subscription that attached before its end and has not returned
      the terminal event is registered, whatever happens to the others. */
  lemma OpenStaysRegistered(c: Config, s: System, h: nat)
    requires ValidConfig(c) && Reachable(c, s) && h < |s.subscriptions| && IsLive(s.subscriptions[h])
    requires !s.shared.closed && !HasEnded(s.log)
    ensures IsRegistered(s.shared, s.subscriptions[h].id.value, h)
  {
    ReachableService(c, s);
  }

  /** An open subscription that the event in the reader's hand, if any, was already sent to, while the
      reader runs and the stream is not dropped. */
  ghost predicate CaughtUp(s: System, h: nat)
  {
    && !s.reader.Stopped? && !s.shared.closed
    && h < |s.subscriptions| && IsLive(s.subscriptions[h]) && !IsPending(s, h)
  }

  lemma CaughtUpHasAll(c: Config, s: System, h: nat)
    requires ValidConfig(c) && Reachable(c, s) && CaughtUp(s, h)
    ensures s.subscriptions[h].upTo == |s.log|
  {
    ReachableService(c, s);
  }

  /** Reliable delivery: what a subscription returned, its unread replay and its channel are together
      a contiguous run of the log that begins with its snapshot, without loss or duplication. An open
      subscription that is caught up has everything up to the end of the log, the terminal event
      included, and no channel exceeds its capacity. */
  lemma ReliableDelivery(c: Config, s: System, h: nat)
    requires ValidConfig(c) && Reachable(c, s) && h < |s.subscriptions|
    requires c.delivery.ReliableWithBackpressure?
    ensures var u := s.subscriptions[h];
            && u.from <= u.liveStart <= u.upTo <= |s.log|
            && u.received + u.replay + u.queue.events == Labelled(s.log)[u.from..u.upTo]
            && (CaughtUp(s, h) ==> u.upTo == |s.log|)
            && |u.queue.events| <= c.maxBufferedChunks
  {
    ReachableSubscription(c, s, h);
    var u := s.subscriptions[h];
    CoversNoGap(s.log, AllOf(u), u.from, u.upTo);
    if CaughtUp(s, h) {
      CaughtUpHasAll(c, s, h);
    }
  }

  /** Lossy delivery: what a subscription returned and what it still holds account for the same run,
      with a gap exactly where events were lost. */
  lemma LossyDelivery(c: Config, s: System, h: nat)
    requires ValidConfig(c) && Reachable(c, s) && h < |s.subscriptions|
    requires c.delivery.LossyWithoutBackpressure?
    ensures var u := s.subscriptions[h];
            && u.from <= u.liveStart <= u.upTo <= |s.log|
            && Covers(s.log, u.received + u.replay + u.queue.events, u.from, u.upTo)
            && (CaughtUp(s, h) ==> u.upTo == |s.log|)
            && QueueShape(u.queue, c.maxBufferedChunks)
  {
    ReachableSubscription(c, s, h);
    var u := s.subscriptions[h];
    CoversBounds(s.log, AllOf(u), u.from, u.upTo);
    if CaughtUp(s, h) {
      CaughtUpHasAll(c, s, h);
    }
  }

  /** Between two consecutively returned events that are not gaps, gaps were returned exactly if the
      events were not adjacent in the reader's output, and then more events were lost than a queue
      can hold. */
  lemma LossyQueueIsExact(c: Config, s: System, h: nat, before: seq<IndexedEvent>, first: IndexedEvent,
                          gaps: seq<IndexedEvent>, second: IndexedEvent, after: seq<IndexedEvent>)
    requires ValidConfig(c) && Reachable(c, s) && h < |s.subscriptions|
    requires s.subscriptions[h].received == before + [first] + gaps + [second] + after
    requires !first.event.Gap? && !second.event.Gap?
    requires forall i :: 0 <= i < |gaps| ==> gaps[i].event.Gap?
    ensures first.index < second.index < |s.log|
    ensures gaps != [] <==> second.index > first.index + 1
    ensures gaps != [] ==> second.index > first.index + c.maxBufferedChunks
    ensures s.log[first.index] == first.event && s.log[second.index] == second.event
  {
    ReachableSubscription(c, s, h);
    var u := s.subscriptions[h];
    var unread := u.replay + u.queue.events;
    assert AllOf(u) == before + [first] + gaps + [second] + (after + unread);
    GapIffLoss(s.log, before, first, gaps, second, after + unread, u.from, u.upTo);
    if gaps != [] {
      ReachableLosses(c, s, h);
      GapsAreWide(s.log, before, first, gaps, second, after + unread, u.from, u.upTo, c.maxBufferedChunks);
    }
  }

  lemma ReachableLosses(c: Config, s: System, h: nat)
    requires ValidConfig(c) && Reachable(c, s) && h < |s.subscriptions|
    ensures var u := s.subscriptions[h]; CoversWidely(s.log, AllOf(u), u.from, u.upTo, c.maxBufferedChunks)
  {
    ReachableService(c, s);
    ReachableSubscription(c, s, h);
    var u := s.subscriptions[h];
    if c.delivery.ReliableWithBackpressure? {
      CoversWithoutGaps(s.log, AllOf(u), u.from, u.upTo, c.maxBufferedChunks);
    }
  }

  // ------------------------------------------------------------------------- loss

  /** What a send does to the subscription it goes to. Only a receiver that is gone, or a closed queue,
      refuses the event; only a full lossy queue collapses, and then keeps the event if it can. */
  lemma SendAdds(c: Config, s: System)
    requires ValidConfig(c) && Enabled(c, s, SendNext)
    requires SubscriptionOk(c, s.log, s.subscriptions[s.reader.pending[0].1])
    ensures var h := s.reader.pending[0].1;
            var u, v := s.subscriptions[h], Send(c, s).subscriptions[h];
            if (if c.delivery.ReliableWithBackpressure? then u.handle.Dropped? else u.queue.closed) then v == u
            else if IsFull(c, u) && !s.reader.event.event.IsTerminal() then
              c.maxBufferedChunks > 1 ==> v.queue.events[|v.queue.events| - 1..] == [s.reader.event]
            else AllOf(v) == AllOf(u) + [s.reader.event]
  {
    var u := s.subscriptions[s.reader.pending[0].1];
    if !Refuses(c, u) {
      if c.delivery.LossyWithoutBackpressure? {
        PushLosesOnlyWhenFull(u.queue, c.maxBufferedChunks, s.reader.event);
      }
      Assoc(u.received + u.replay, u.queue.events, [s.reader.event]);
    }
  }

  /** A lossy queue without room. */
  predicate IsFull(c: Config, u: Subscription)
  {
    c.delivery.LossyWithoutBackpressure? && |u.queue.events| >= c.maxBufferedChunks
  }

  /** Nothing is ever lost but by a send to a full lossy queue: otherwise a step leaves what a
      subscription returned and holds as it is, or adds the event in the reader's hand. */
  lemma LossOnlyWhenFull(c: Config, s: System, step: Step, h: nat)
    requires ValidConfig(c) && Reachable(c, s) && Enabled(c, s, step) && h < |s.subscriptions|
    ensures h < |Apply(c, s, step).subscriptions|
    ensures var u, v := s.subscriptions[h], Apply(c, s, step).subscriptions[h];
            || AllOf(v) == AllOf(u)
            || (step.SendNext? && AllOf(v) == AllOf(u) + [s.reader.event])
            || (step.SendNext? && IsFull(c, u) && !s.reader.event.event.IsTerminal())
  {
    ReachableSubscription(c, s, h);
    match step
    case SendNext =>
      if s.reader.pending[0].1 == h {
        SendAdds(c, s);
      }
    case Receive(g) =>
      if g == h {
        TakeOk(c, s, h);
      }
    case _ =>
  }

  /** A subscription that never had a full queue has received no gap. */
  lemma {:induction false} NeverFullNoGap(c: Config, run: seq<System>, h: nat)
    requires ValidConfig(c) && IsRun(c, run)
    requires forall i :: 0 <= i < |run| && h < |run[i].subscriptions| ==> !IsFull(c, run[i].subscriptions[h])
    ensures h < |run[|run| - 1].subscriptions| ==> NoGap(AllOf(run[|run| - 1].subscriptions[h]))
    decreases |run|
  {
    var n := |run| - 1;
    if n > 0 {
      var s, t := run[n - 1], run[n];
      NeverFullNoGap(c, run[..n], h);
      assert IsRun(c, run[..n]) && run[..n][n - 1] == s;
      assert IsStep(c, s, t);
      var step :| Enabled(c, s, step) && t == Apply(c, s, step);
      StepWithoutGap(c, s, step, h);
    }
  }

  lemma StepWithoutGap(c: Config, s: System, step: Step, h: nat)
    requires ValidConfig(c) && Reachable(c, s) && Enabled(c, s, step)
    requires h < |s.subscriptions| ==> NoGap(AllOf(s.subscriptions[h])) && !IsFull(c, s.subscriptions[h])
    ensures h < |Apply(c, s, step).subscriptions| ==> NoGap(AllOf(Apply(c, s, step).subscriptions[h]))
  {
    ReachableShared(c, s);
    if h < |s.subscriptions| {
      LossOnlyWhenFull(c, s, step, h);
      if step.SendNext? {
        InHandIsNoGap(c, s);
      }
    } else if step.Subscribe? && h == |s.subscriptions| {
      SnapshotCovers(c, s);
      assert AllOf(Attach(c, s).subscriptions[h]) == Snapshot(s.shared, c.retention);
    }
  }

  lemma InHandIsNoGap(c: Config, s: System)
    requires ValidConfig(c) && Reachable(c, s) && s.reader.Delivering?
    ensures !s.reader.event.event.Gap?
  {
    ReachableReader(c, s);
  }

  lemma ReachableReader(c: Config, s: System)
    requires ValidConfig(c) && Reachable(c, s)
    ensures LogShape(s.log) && ReaderMatches(s)
  {
    ReachableInv(c, s);
  }

  // ------------------------------------------------------------------------- the end

  /** Once the terminal event is dealt with, every open subscription has been sent it. */
  lemma TerminalReachesEveryone(c: Config, s: System, h: nat)
    requires ValidConfig(c) && Reachable(c, s) && Enabled(c, s, FinishDelivery) && !s.shared.closed
    requires h < |s.subscriptions| && IsLive(s.subscriptions[h])
    ensures s.subscriptions[h].upTo == |s.log|
  {
    CaughtUpHasAll(c, s, h);
  }

  /** Dropping a lossy stream before its end closes the queue of every open subscription, so that its
      consumer does not wait forever, and keeps what is unread. */
  lemma DropEndsSubscriptions(c: Config, s: System, h: nat)
    requires ValidConfig(c) && Reachable(c, s) && Enabled(c, s, DropStream) && c.delivery.LossyWithoutBackpressure?
    requires h < |s.subscriptions| && IsLive(s.subscriptions[h]) && !HasEnded(s.log)
    ensures var u, v := s.subscriptions[h], Apply(c, s, DropStream).subscriptions[h];
            v.queue == Queue(u.queue.events, true) && v.replay == u.replay && v.received == u.received
  {
    OpenStaysRegistered(c, s, h);
    var id := s.subscriptions[h].id.value;
    assert s.shared.subscribers[id] in s.shared.subscribers.Values;
  }

  /** No live event is ever skipped for being older than the subscription. */
  lemma NoLiveEventIsSkipped(c: Config, s: System, h: nat)
    requires ValidConfig(c) && Reachable(c, s) && Enabled(c, s, Receive(h))
    ensures var u := s.subscriptions[h];
            Take(s, h).subscriptions[h].received == u.received + [Head(u).0]
  {
    ReachableSubscription(c, s, h);
    TakeOk(c, s, h);
  }

  /** Nothing follows a terminal event. */
  lemma TerminalIsLast(log: seq<StreamEvent>, seen: seq<IndexedEvent>, lo: nat, hi: nat, i: nat)
    requires LogShape(log) && Covers(log, seen, lo, hi)
    requires i < |seen| && seen[i].event.IsTerminal()
    ensures i == |seen| - 1 && hi == |log| && HasEnded(log)
    ensures seen[i] == IndexedEvent(|log| - 1, log[|log| - 1])
  {
    assert seen == seen[..i] + seen[i..];
    var mid := CoversSplit(log, seen[..i], seen[i..], lo, hi);
    assert mid == |log| - 1;
    CoversBounds(log, seen[i..][1..], mid + 1, hi);
  }

  /** A subscription returns at most one terminal event, and nothing after it. */
  lemma TerminalOnceAndLast(c: Config, s: System, h: nat, i: nat)
    requires ValidConfig(c) && Reachable(c, s) && h < |s.subscriptions|
    requires i < |s.subscriptions[h].received| && s.subscriptions[h].received[i].event.IsTerminal()
    ensures i == |s.subscriptions[h].received| - 1
    ensures s.subscriptions[h].replay == [] && s.subscriptions[h].queue.events == []
    ensures s.log != [] && s.subscriptions[h].received[i] == IndexedEvent(|s.log| - 1, s.log[|s.log| - 1])
  {
    ReachableSubscription(c, s, h);
    var u := s.subscriptions[h];
    TerminalIsLast(s.log, AllOf(u), u.from, u.upTo, i);
  }

  /** What a new subscription starts with: the retained window of all chunks so far, unless replay is
      sealed, and the terminal event if there is one. Live events continue exactly there. */
  lemma SubscribeReplaysWindow(c: Config, s: System)
    requires ValidConfig(c) && Reachable(c, s)
    ensures var u := Attach(c, s).subscriptions[|s.subscriptions|];
            var chunks := Labelled(s.log)[..ChunkCount(s.log)];
            && u.replay == (if s.shared.replaySealed then [] else Window(IndexedSize, c.retention, chunks))
                           + Labelled(s.log)[ChunkCount(s.log)..]
            && u.replay == Labelled(s.log)[u.from..]
            && u.liveStart == u.upTo == |s.log|
  {
    ReachableShared(c, s);
    SnapshotIsSuffix(c, s);
    assert s.shared.terminal.Some? ==>
             Labelled(s.log)[ChunkCount(s.log)..] == [s.shared.terminal.value];
  }

  /** How much of the log a new subscription replays: the chunks that the retention keeps, none once
      replay is sealed, and the terminal event. Before the end of the stream it is live. */
  lemma SubscribeReplaysRetained(c: Config, s: System) returns (kept: seq<IndexedEvent>)
    requires ValidConfig(c) && Reachable(c, s)
    ensures var u, n := Attach(c, s).subscriptions[|s.subscriptions|], ChunkCount(s.log);
            && u.replay == kept + Labelled(s.log)[n..]
            && (if s.shared.replaySealed then kept == []
                else IsRetained(IndexedSize, c.retention, Labelled(s.log)[..n], kept))
            && (!s.shared.closed && !HasEnded(s.log) ==> IsLive(u))
  {
    SubscribeReplaysWindow(c, s);
    ReachableShared(c, s);
    var chunks := Labelled(s.log)[..ChunkCount(s.log)];
    WindowKeeps(IndexedSize, c.retention, chunks);
    kept := if s.shared.replaySealed then [] else Window(IndexedSize, c.retention, chunks);
  }

  // ------------------------------------------------------------------------- end to end

  /** Events that end with `Eof`. */
  predicate EndsWithEof(events: seq<IndexedEvent>)
  {
    events != [] && events[|events| - 1].event.Eof?
  }

  /** What was seen up to the terminal event accounts for all chunks from the start on. */
  lemma EndIsComplete(log: seq<StreamEvent>, seen: seq<IndexedEvent>, lo: nat, hi: nat)
    requires LogShape(log) && Covers(log, seen, lo, hi)
    requires seen != [] && seen[|seen| - 1].event.IsTerminal()
    ensures hi == |log| > lo && ChunkCount(log) == |log| - 1
    ensures var before := seen[..|seen| - 1];
            && Unlabelled(seen) == Unlabelled(before) + [log[|log| - 1]]
            && Covers(log, before, lo, |log| - 1)
            && Ongoing(Unlabelled(before))
  {
    var last := |seen| - 1;
    var before := seen[..last];
    TerminalIsLast(log, seen, lo, hi, last);
    assert seen == before + [seen[last]];
    var mid := CoversSplit(log, before, [seen[last]], lo, hi);
    CoversBounds(log, before, lo, mid);
    forall i | 0 <= i < |before| ensures !before[i].event.IsTerminal() {
      if seen[i].event.IsTerminal() {
        TerminalIsLast(log, seen, lo, hi, i);
      }
    }
  }

  lemma PayloadOfChunks(log: seq<StreamEvent>, lo: nat)
    requires HasEnded(log) && lo < |log|
    ensures Payload(log[lo..]) == Payload(log[lo..|log| - 1])
  {
    var n := |log| - 1;
    assert log[lo..] == log[lo..n] + [log[n]];
    PayloadAppend(log[lo..n], [log[n]]);
    assert Payload([log[n]]) == [];
  }

  /** What a consumer of `events` sees, which account for the bytes `seen` of a stream `whole`. The lines
      offered while the subscription lasts are among those of the whole stream. If the subscription
      ends here without a terminal event, the consumer flushes: its lines are then among those of the
      bytes accounted for, and among those of the whole stream if no line is cut off. */
  ghost predicate SeesOnlyGenuine(l: Limits, events: seq<StreamEvent>, seen: Bytes, whole: Bytes)
  {
    && Subsequence(Offered(l, FRESH, events), Lines(l, whole))
    && Subsequence(Drive(l, FRESH, events), Lines(l, seen))
    && (Ongoing(events) && EndsCleanly(l, After(l, FRESH, events).parser) ==>
          Subsequence(Drive(l, FRESH, events), Lines(l, whole)))
  }

  /** The same for what was seen of a log, with losses. */
  lemma SeenIsGenuine(log: seq<StreamEvent>, seen: seq<IndexedEvent>, lo: nat, hi: nat, whole: Bytes, l: Limits)
    requires LogShape(log) && Covers(log, seen, lo, hi) && lo <= |log| && Payload(log[lo..]) <= whole
    requires HasEnded(log) ==> Payload(log[lo..]) == whole
    ensures lo <= hi <= |log| && SeesOnlyGenuine(l, Unlabelled(seen), Payload(log[lo..hi]), whole)
  {
    CoversBounds(log, seen, lo, hi);
    SeenLinesAreGenuine(log, seen, lo, hi, whole, l);
    if seen != [] && seen[|seen| - 1].event.IsTerminal() {
      SeenToTheEnd(log, seen, lo, hi, l);
    } else {
      SeenIsOngoing(log, seen, lo, hi);
      SeenThenClosed(log, seen, lo, hi, whole, l);
    }
  }

  lemma SeenToTheEnd(log: seq<StreamEvent>, seen: seq<IndexedEvent>, lo: nat, hi: nat, l: Limits)
    requires LogShape(log) && Covers(log, seen, lo, hi)
    requires seen != [] && seen[|seen| - 1].event.IsTerminal()
    ensures lo <= hi <= |log| && !Ongoing(Unlabelled(seen))
    ensures Subsequence(Drive(l, FRESH, Unlabelled(seen)), Lines(l, Payload(log[lo..hi])))
  {
    SeenEndIsGenuine(log, seen, lo, hi, l);
    EndIsComplete(log, seen, lo, hi);
    assert log[lo..hi] == log[lo..];
    OfferedAfter(l, FRESH, Unlabelled(seen[..|seen| - 1]), [log[|log| - 1]]);
    assert Unlabelled(seen)[|seen| - 1].IsTerminal();
  }

  lemma SeenIsOngoing(log: seq<StreamEvent>, seen: seq<IndexedEvent>, lo: nat, hi: nat)
    requires LogShape(log) && Covers(log, seen, lo, hi)
    requires seen == [] || !seen[|seen| - 1].event.IsTerminal()
    ensures Ongoing(Unlabelled(seen))
  {
    forall i | 0 <= i < |seen| ensures !seen[i].event.IsTerminal() {
      if seen[i].event.IsTerminal() {
        TerminalIsLast(log, seen, lo, hi, i);
      }
    }
  }

  lemma SeenThenClosed(log: seq<StreamEvent>, seen: seq<IndexedEvent>, lo: nat, hi: nat, whole: Bytes, l: Limits)
    requires Covers(log, seen, lo, hi) && lo <= |log| && Payload(log[lo..]) <= whole && Ongoing(Unlabelled(seen))
    ensures lo <= hi <= |log| && Subsequence(Drive(l, FRESH, Unlabelled(seen)), Lines(l, Payload(log[lo..hi])))
    ensures EndsCleanly(l, After(l, FRESH, Unlabelled(seen)).parser) ==>
              Subsequence(Drive(l, FRESH, Unlabelled(seen)), Lines(l, whole))
  {
    CoversThins(log, seen, lo, hi);
    var bytes := Payload(log[lo..hi]);
    ClosedLinesAreGenuine(l, Unlabelled(seen), bytes);
    if EndsCleanly(l, After(l, FRESH, Unlabelled(seen)).parser) {
      var more := BytesAfter(log, lo, hi, whole);
      CleanEndIsGenuine(l, Unlabelled(seen), bytes, more);
    }
  }

  lemma BytesAfter(log: seq<StreamEvent>, lo: nat, hi: nat, whole: Bytes) returns (more: Bytes)
    requires lo <= hi <= |log| && Payload(log[lo..]) <= whole
    ensures whole == Payload(log[lo..hi]) + more
  {
    assert log[lo..] == log[lo..hi] + log[hi..];
    PayloadAppend(log[lo..hi], log[hi..]);
    more := whole[|Payload(log[lo..hi])|..];
  }

  /** Lines of what was seen, with losses, at any time: those offered so far are among the lines of
      everything from the start on. `whole` may go on where the log ends, unless the stream has ended. */
  lemma SeenLinesAreGenuine(log: seq<StreamEvent>, seen: seq<IndexedEvent>, lo: nat, hi: nat, whole: Bytes, l: Limits)
    requires LogShape(log) && Covers(log, seen, lo, hi) && lo <= |log| && Payload(log[lo..]) <= whole
    requires HasEnded(log) ==> Payload(log[lo..]) == whole
    ensures Subsequence(Offered(l, FRESH, Unlabelled(seen)), Lines(l, whole))
  {
    if seen != [] && seen[|seen| - 1].event.IsTerminal() {
      SeenEndIsGenuine(log, seen, lo, hi, l);
    } else {
      SeenIsOngoing(log, seen, lo, hi);
      SeenPartIsGenuine(log, seen, lo, hi, whole, l);
    }
  }

  lemma SeenPartIsGenuine(log: seq<StreamEvent>, seen: seq<IndexedEvent>, lo: nat, hi: nat, whole: Bytes, l: Limits)
    requires Covers(log, seen, lo, hi) && lo <= |log| && Payload(log[lo..]) <= whole && Ongoing(Unlabelled(seen))
    ensures Subsequence(Offered(l, FRESH, Unlabelled(seen)), Lines(l, whole))
  {
    CoversThins(log, seen, lo, hi);
    var more := BytesAfter(log, lo, hi, whole);
    UnfinishedNeverInventsLines(l, Unlabelled(seen), [], Payload(log[lo..hi]), more);
    assert Unlabelled(seen) + [] == Unlabelled(seen);
  }

  lemma SeenEndIsGenuine(log: seq<StreamEvent>, seen: seq<IndexedEvent>, lo: nat, hi: nat, l: Limits)
    requires LogShape(log) && Covers(log, seen, lo, hi)
    requires seen != [] && seen[|seen| - 1].event.IsTerminal()
    ensures HasEnded(log) && lo <= |log|
    ensures Subsequence(Offered(l, FRESH, Unlabelled(seen)), Lines(l, Payload(log[lo..])))
  {
    EndIsComplete(log, seen, lo, hi);
    var before, n := seen[..|seen| - 1], |log| - 1;
    CoversThins(log, before, lo, n);
    var bytes := Payload(log[lo..n]);
    PayloadOfChunks(log, lo);
    if log[n].Eof? {
      GapsNeverInventLines(l, Unlabelled(before), bytes);
      OfferedAfter(l, FRESH, Unlabelled(before), [Eof]);
    } else {
      UnfinishedNeverInventsLines(l, Unlabelled(before), [log[n]], bytes, []);
      assert bytes + [] == bytes;
    }
  }

  /** A fresh consumer of `events` sees exactly the lines of `bytes`, and any visitor ends up with
      exactly the result of visiting those lines. */
  ghost predicate SeesExactly<V>(l: Limits, onLine: OnLine<V>, v: V, events: seq<StreamEvent>, bytes: Bytes)
  {
    && Drive(l, FRESH, events) == Lines(l, bytes)
    && Consumed(l, FRESH, onLine, v, events) == Ok(Visit(onLine, v, Lines(l, bytes)).0)
    && ReadFailure(events).None? && Observed(events) == bytes
  }

  /** Consuming what was seen, without losses, up to `Eof`. */
  lemma SeenLinesAreExact<V>(log: seq<StreamEvent>, seen: seq<IndexedEvent>, lo: nat, l: Limits,
                             onLine: OnLine<V>, v: V)
    requires LogShape(log) && IsSlice(log, seen, lo, |log|) && EndsWithEof(seen)
    ensures SeesExactly(l, onLine, v, Unlabelled(seen), Payload(log[lo..]))
  {
    var n := |log| - 1;
    assert Unlabelled(seen) == log[lo..] == log[lo..n] + [Eof];
    ChunksThenEof(l, onLine, v, log[lo..n]);
    PayloadOfChunks(log, lo);
  }

  /** Consuming chunks followed by `Eof`. */
  lemma ChunksThenEof<V>(l: Limits, onLine: OnLine<V>, v: V, chunks: seq<StreamEvent>)
    requires ChunksOnly(chunks)
    ensures var events := chunks + [Eof];
            && Drive(l, FRESH, events) == Lines(l, Payload(chunks))
            && Consumed(l, FRESH, onLine, v, events) == Ok(Visit(onLine, v, Lines(l, Payload(chunks))).0)
            && ReadFailure(events).None? && Observed(events) == Payload(chunks)
  {
    RechunkingInvariance(l, chunks);
    NoReadFailure(chunks);
  }

  lemma {:induction false} NoReadFailure(chunks: seq<StreamEvent>)
    requires ChunksOnly(chunks)
    ensures ReadFailure(chunks + [Eof]).None? && Observed(chunks + [Eof]) == Payload(chunks)
  {
    if chunks == [] {
      assert chunks + [Eof] == [Eof];
    } else {
      NoReadFailure(chunks[1..]);
      assert (chunks + [Eof])[1..] == chunks[1..] + [Eof];
    }
  }

  /** All the child wrote is in the log once some subscription has returned a terminal event. */
  lemma LogIsComplete(c: Config, s: System)
    requires ValidConfig(c) && Reachable(c, s) && HasEnded(s.log)
    ensures Payload(s.log) == s.ingested
  {
    ReachableInv(c, s);
  }

  /** What any consumer sees, at any time and in every interleaving, with losses and also if the stream
      fails. What it received accounts for the log from its first event up to `hi`. The lines offered
      to it are among those of what the child wrote since its first event; from the first chunk on,
      of everything the child wrote. If the stream is dropped now, the consumer flushes a partial line,
      and its lines are among those of the log up to `hi`, and still among those of everything the
      child wrote if that cuts no line off. */
  lemma LossyLinesAreGenuine(c: Config, s: System, h: nat, l: Limits) returns (hi: nat)
    requires ValidConfig(c) && Reachable(c, s) && h < |s.subscriptions|
    ensures s.subscriptions[h].from <= hi <= |s.log|
    ensures var u := s.subscriptions[h];
            && Covers(s.log, u.received, u.from, hi)
            && SeesOnlyGenuine(l, Unlabelled(u.received), Payload(s.log[u.from..hi]), Payload(s.log[u.from..]))
            && (u.from == 0 ==> SeesOnlyGenuine(l, Unlabelled(u.received), Payload(s.log[..hi]), s.ingested))
  {
    ReachableIngested(c, s);
    hi := ReceivedUpTo(c, s, h);
    var u := s.subscriptions[h];
    SeenIsGenuine(s.log, u.received, u.from, hi, Payload(s.log[u.from..]), l);
    if u.from == 0 {
      assert s.log[0..] == s.log && s.log[0..hi] == s.log[..hi];
      SeenIsGenuine(s.log, u.received, 0, hi, s.ingested, l);
    }
  }

  lemma ReceivedUpTo(c: Config, s: System, h: nat) returns (hi: nat)
    requires ValidConfig(c) && Reachable(c, s) && h < |s.subscriptions|
    ensures var u := s.subscriptions[h];
            LogShape(s.log) && u.from <= hi <= |s.log| && Covers(s.log, u.received, u.from, hi)
  {
    ReachableSubscription(c, s, h);
    var u := s.subscriptions[h];
    Assoc(u.received, u.replay, u.queue.events);
    hi := CoversSplit(s.log, u.received, u.replay + u.queue.events, u.from, u.upTo);
    CoversBounds(s.log, u.received, u.from, hi);
  }

  /** With reliable delivery, exactly when the lines of a consumer whose stream is dropped now are among
      those of every continuation of what it received: if that cuts no line off. */
  lemma DroppedLinesIff(c: Config, s: System, h: nat, l: Limits) returns (hi: nat)
    requires ValidConfig(c) && Reachable(c, s) && h < |s.subscriptions| && c.delivery.ReliableWithBackpressure?
    requires Ongoing(Unlabelled(s.subscriptions[h].received))
    ensures s.subscriptions[h].from <= hi <= |s.log|
    ensures var u := s.subscriptions[h];
            var events, bytes := Unlabelled(u.received), Payload(s.log[u.from..hi]);
            && events == s.log[u.from..hi]
            && ((forall more: Bytes :: Subsequence(Drive(l, FRESH, events), Lines(l, bytes + more)))
                <==> EndsCleanly(l, Feed(l, FRESH, bytes).parser))
  {
    hi := ReceivedUpTo(c, s, h);
    ReachableSubscription(c, s, h);
    var u := s.subscriptions[h];
    assert forall i :: 0 <= i < |u.received| ==> AllOf(u)[i] == u.received[i];
    ReceivedWithoutGaps(s.log, u.received, u.from, hi);
    ClosedWithoutGapsIff(l, Unlabelled(u.received));
  }

  lemma ReceivedWithoutGaps(log: seq<StreamEvent>, received: seq<IndexedEvent>, lo: nat, hi: nat)
    requires LogShape(log) && Covers(log, received, lo, hi) && NoGap(received) && Ongoing(Unlabelled(received))
    ensures lo <= hi <= |log| && Unlabelled(received) == log[lo..hi] && ChunksOnly(Unlabelled(received))
  {
    CoversNoGap(log, received, lo, hi);
  }

  lemma ReachableIngested(c: Config, s: System)
    requires ValidConfig(c) && Reachable(c, s)
    ensures Payload(s.log) <= s.ingested && (HasEnded(s.log) ==> Payload(s.log) == s.ingested)
  {
    ReachableInv(c, s);
  }

  /** A consumer of a reliable subscription that has reached the end saw exactly the lines of what the
      child wrote since the subscription's first event: the result of any visitor depends only on
      those bytes and the options, not on reads, chunk sizes, capacities or interleaving. */
  lemma ReliableLinesAreExact<V>(c: Config, s: System, h: nat, l: Limits, onLine: OnLine<V>, v: V)
    requires ValidConfig(c) && Reachable(c, s) && h < |s.subscriptions|
    requires c.delivery.ReliableWithBackpressure?
    requires EndsWithEof(s.subscriptions[h].received)
    ensures s.subscriptions[h].from < |s.log|
    ensures var u := s.subscriptions[h];
            var events, bytes := Unlabelled(u.received), Payload(s.log[u.from..]);
            && SeesExactly(l, onLine, v, events, bytes)
            && (u.from == 0 ==> bytes == s.ingested)
  {
    ReachableSubscription(c, s, h);
    ReliableDelivery(c, s, h);
    var u := s.subscriptions[h];
    TerminalOnceAndLast(c, s, h, |u.received| - 1);
    assert AllOf(u) == u.received;
    TerminalIsLast(s.log, u.received, u.from, u.upTo, |u.received| - 1);
    assert IsSlice(s.log, u.received, u.from, |s.log|);
    SeenLinesAreExact(s.log, u.received, u.from, l, onLine, v);
    LogIsComplete(c, s);
    assert s.log[0..] == s.log;
  }

  // ------------------------------------------------------------------------- progress

  /** Any registry can be listed. */
  lemma {:induction false} SomeOrder(registry: map<SubscriberId, Sender>) returns (order: seq<(SubscriberId, Sender)>)
    ensures Enumerates(order, registry)
    decreases registry.Keys
  {
    if registry == map[] {
      order := [];
    } else {
      var id :| id in registry;
      var rest := SomeOrder(registry - {id});
      order := [(id, registry[id])] + rest;
      forall other | other in registry ensures (other, registry[other]) in order {
        if other != id {
          assert other in registry - {id};
          assert (other, (registry - {id})[other]) in rest;
        }
      }
    }
  }

  predicate IsReaderStep(step: Step)
  {
    step.Read? || step.AppendChunk? || step.SendNext? || step.FinishDelivery?
  }

  /** The protocol never deadlocks: a reader that has not stopped can take a step, or it waits for a
      full channel whose subscription can receive or finish being dropped. */
  lemma ReaderIsNeverStuck(c: Config, s: System) returns (step: Step)
    requires ValidConfig(c) && Reachable(c, s) && !s.reader.Stopped?
    ensures Enabled(c, s, step)
    ensures IsReaderStep(step) ||
            (c.delivery.ReliableWithBackpressure? && s.reader.Delivering? && s.reader.pending != []
             && var h := s.reader.pending[0].1;
                && h < |s.subscriptions| && |s.subscriptions[h].queue.events| >= c.maxBufferedChunks
                && (step == Receive(h) || step == EndDrop(h)))
  {
    ReachablePending(c, s);
    if s.reader.Reading? {
      if s.buffer == [] {
        step := Read([NEWLINE]);
      } else {
        var order := SomeOrder(s.shared.subscribers);
        step := AppendChunk(order);
      }
    } else if s.reader.pending == [] {
      step := FinishDelivery;
    } else {
      var (id, h) := s.reader.pending[0];
      assert Lacks(s.subscriptions, id, h, s.reader.event.index);
      step := if Enabled(c, s, SendNext) then SendNext
              else if s.subscriptions[h].handle.Open? then Receive(h)
              else EndDrop(h);
    }
  }

  lemma ReachablePending(c: Config, s: System)
    requires ValidConfig(c) && Reachable(c, s)
    ensures PendingOk(s)
  {
    ReachableInv(c, s);
  }
}
