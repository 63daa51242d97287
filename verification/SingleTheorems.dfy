/** What the single-subscriber backend guarantees in every interleaving. */
module SingleTheorems {
  import opened Events
  import opened LineSpec
  import opened Consuming
  import opened Coverage
  import opened Fanout
  import opened FanoutInvariant
  import opened FanoutTheorems
  import opened SingleSubscriber
  import opened SingleInvariant

  // ------------------------------------------------------------------------- the exclusive claim

  /** The claim and the watch name the same subscription, the newest one, and while the stream exists
      at most one subscription has an open receiver, namely the one with the claim. */
  lemma ExclusiveClaim(c: Config, s: Stream, i: nat, j: nat)
    requires ValidConfig(c) && CanReach(c, s)
    requires i < |s.subscribers| && j < |s.subscribers|
    ensures s.shared.activeId == s.shared.watch && s.shared.nextSubscriberId == |s.subscribers|
    ensures s.shared.watch.Some? ==> s.shared.watch.value == |s.subscribers| - 1
    ensures !s.dropped && s.subscribers[i].receiver ==> s.shared.activeId == Some(i)
    ensures !s.dropped && s.subscribers[i].receiver && s.subscribers[j].receiver ==> i == j
  {
    CanReachInv(c, s);
  }

  /** Nobody takes the claim from a subscription with an open receiver: no failed send, no stale drop
      and no further attempt to subscribe; only dropping the stream does. */
  lemma ClaimIsKept(c: Config, s: Stream, id: nat, a: Action)
    requires ValidConfig(c) && CanReach(c, s) && CanDo(c, s, a) && !a.DropOwner?
    requires id < |s.subscribers| && s.shared.activeId == Some(id) && s.subscribers[id].receiver
    ensures Do(c, s, a).shared.activeId == Some(id) && Do(c, s, a).shared.watch == Some(id)
  {
    CanReachControl(c, s);
    if a.GiveUpClaim? {
      CanReachSubscriber(c, s, a.id);
    }
    if a.SendEvent? {
      SendingKeepsClaim(c, s);
    }
  }

  lemma CanReachControl(c: Config, s: Stream)
    requires ValidConfig(c) && CanReach(c, s)
    ensures ClaimOk(s) && TargetOk(s) && NothingMissing(s)
  {
    CanReachInv(c, s);
  }

  lemma SendingKeepsClaim(c: Config, s: Stream)
    requires s.reader.Sending? && (s.cached.Some? ==> s.cached.value < |s.subscribers|)
    ensures Sent(c, s).shared == s.shared
  {
  }

  // ------------------------------------------------------------------------- reliable delivery

  /** Where a subscription's run of the log begins and ends. */
  function RunStart(u: Subscriber): int
  {
    (if LiveEvents(u) == [] then u.attachedAt else u.lo) - |u.snapshot|
  }

  function RunEnd(u: Subscriber): nat
  {
    if LiveEvents(u) == [] then u.attachedAt else u.hi
  }

  /** What a subscription has returned and what it still holds. */
  function Everything(u: Subscriber): seq<IndexedEvent>
  {
    u.received + u.replay + if u.late then (if u.terminal.Some? then [u.terminal.value] else []) else u.channel
  }

  lemma CanReachSubscriber(c: Config, s: Stream, id: nat)
    requires ValidConfig(c) && CanReach(c, s) && id < |s.subscribers|
    ensures LogShape(s.log) && SubscriberOk(c, s.log, s.subscribers[id])
  {
    CanReachInv(c, s);
  }

  /** What a subscriber that attached while the stream was running has. */
  lemma RunningIsContiguous(c: Config, log: seq<StreamEvent>, u: Subscriber)
    requires SubscriberOk(c, log, u) && !u.late && c.delivery.ReliableWithBackpressure?
    ensures 0 <= RunStart(u) <= RunEnd(u) <= |log|
    ensures Everything(u) == Labelled(log)[RunStart(u)..RunEnd(u)]
  {
    RunningHas(c, log, u);
    CoversNoGap(log, LiveEvents(u), u.lo, u.hi);
    var all, at := Labelled(log), u.attachedAt;
    if LiveEvents(u) == [] {
      assert u.snapshot + LiveEvents(u) == u.snapshot;
    } else if u.lo == at {
      assert all[at - |u.snapshot|..at] + all[at..u.hi] == all[at - |u.snapshot|..u.hi];
    } else {
      assert u.snapshot + LiveEvents(u) == LiveEvents(u);
    }
  }

  /** Reliable delivery: what a subscription returned and what it still holds is a contiguous run of
      the log, without loss or duplication. A late subscription's run ends with the terminal event. */
  lemma ReliableIsContiguous(c: Config, s: Stream, id: nat)
    requires ValidConfig(c) && CanReach(c, s) && id < |s.subscribers|
    requires c.delivery.ReliableWithBackpressure?
    ensures var u := s.subscribers[id];
            if u.late then
              |u.snapshot| < |s.log| && Everything(u) == Labelled(s.log)[|s.log| - 1 - |u.snapshot|..]
            else
              0 <= RunStart(u) <= RunEnd(u) <= |s.log| && Everything(u) == Labelled(s.log)[RunStart(u)..RunEnd(u)]
  {
    CanReachSubscriber(c, s, id);
    var u := s.subscribers[id];
    if u.late {
      LateIsContiguous(c, s.log, u);
    } else {
      RunningIsContiguous(c, s.log, u);
    }
  }

  lemma LateIsContiguous(c: Config, log: seq<StreamEvent>, u: Subscriber)
    requires SubscriberOk(c, log, u) && u.late && c.delivery.ReliableWithBackpressure?
    ensures |u.snapshot| < |log| && Everything(u) == Labelled(log)[|log| - 1 - |u.snapshot|..]
  {
    var n, k := |log| - 1, |u.snapshot|;
    LateHas(c, log, u);
    assert Labelled(log)[n - k..] == Labelled(log)[n - k..n] + [IndexedEvent(n, log[n])];
  }

  lemma LateHas(c: Config, log: seq<StreamEvent>, u: Subscriber)
    requires SubscriberOk(c, log, u) && u.late
    ensures Everything(u) == u.snapshot + [IndexedEvent(|log| - 1, log[|log| - 1])]
  {
    if u.terminal.Some? {
      assert u.snapshot + u.live == u.snapshot;
    } else {
      assert u.received + u.replay + [] == u.received;
    }
  }

  /** The active subscription lacks nothing while the reader holds no event. */
  lemma ReliableIsUpToDate(c: Config, s: Stream, id: nat)
    requires ValidConfig(c) && CanReach(c, s) && id < |s.subscribers|
    requires c.delivery.ReliableWithBackpressure? && s.shared.watch == Some(id) && s.reader.Idle?
    requires s.subscribers[id].receiver
    ensures RunEnd(s.subscribers[id]) == |s.log|
  {
    CanReachInv(c, s);
  }

  /** The event the reader is sending continues the run of the subscription it is sent to: replay or
      live, never neither nor both. */
  lemma InHandContinuesRun(c: Config, s: Stream, id: nat)
    requires ValidConfig(c) && CanReach(c, s) && id < |s.subscribers|
    requires c.delivery.ReliableWithBackpressure? && s.reader.Sending? && s.cached == Some(id)
    requires s.subscribers[id].receiver && !s.subscribers[id].late
    ensures PurposeOf(s.reader).value.Reliably? && s.log != []
    ensures s.reader.purpose.event == Labelled(s.log)[|s.log| - 1]
    ensures var u := s.subscribers[id];
            RunEnd(u) == |s.log| - 1 || (Everything(u) == [] && s.reader.purpose.retried)
  {
    CanReachSending(c, s);
    CanReachSubscriber(c, s, id);
    var u := s.subscribers[id];
    LacksEventInHand(c, s, id);
    if LiveEvents(u) == [] {
      FirstEventFits(c, s, id);
      RunningHas(c, s.log, u);
    }
  }

  /** What holds of the reader in every reachable state. */
  lemma CanReachSending(c: Config, s: Stream)
    requires ValidConfig(c) && CanReach(c, s)
    ensures Control(c, s) && CachedUpToDate(s) && FreshOk(c, s) && InHandOrder(s) && LogShape(s.log)
  {
    CanReachInv(c, s);
  }

  lemma RunningHas(c: Config, log: seq<StreamEvent>, u: Subscriber)
    requires SubscriberOk(c, log, u) && !u.late
    ensures Everything(u) == u.snapshot + LiveEvents(u)
  {
    Assoc(u.snapshot, u.live, u.channel);
  }

  // ------------------------------------------------------------------------- lossy delivery

  /** Lossy delivery: the live events of a subscription account for a run of the reader's output,
      including the chunks that were discarded, beginning with an event that is not a gap, and what it
      replays is recorded output in order. */
  lemma LossyLiveCovers(c: Config, s: Stream, id: nat)
    requires ValidConfig(c) && CanReach(c, s) && id < |s.subscribers|
    ensures var u := s.subscribers[id];
            && InOrder(s.log, u.snapshot)
            && (!u.late ==> Covers(s.log, u.live + u.channel, u.lo, u.hi))
            && (!u.late ==> u.received + u.replay == u.snapshot + u.live)
            && (!u.late && u.live + u.channel != [] ==> !(u.live + u.channel)[0].event.Gap?)
            && |u.channel| <= c.maxBufferedChunks
  {
    CanReachSubscriber(c, s, id);
  }

  /** Between two consecutive live events that are not gaps, be the second a chunk or the terminal
      event, a gap was received exactly if the reader produced something in between. */
  lemma LiveGapIffLoss(c: Config, s: Stream, id: nat, before: seq<IndexedEvent>, first: IndexedEvent,
                       gaps: seq<IndexedEvent>, second: IndexedEvent, after: seq<IndexedEvent>)
    requires ValidConfig(c) && CanReach(c, s) && id < |s.subscribers| && !s.subscribers[id].late
    requires s.subscribers[id].live == before + [first] + gaps + [second] + after
    requires !first.event.Gap? && !second.event.Gap?
    requires forall i :: 0 <= i < |gaps| ==> gaps[i].event.Gap?
    ensures first.index < second.index < |s.log|
    ensures gaps != [] <==> second.index > first.index + 1
    ensures s.log[first.index] == first.event && s.log[second.index] == second.event
  {
    CanReachSubscriber(c, s, id);
    var u := s.subscribers[id];
    assert LiveEvents(u) == before + [first] + gaps + [second] + (after + u.channel);
    GapIffLoss(s.log, before, first, gaps, second, after + u.channel, u.lo, u.hi);
  }

  /** A gap is only ever sent to the subscriber that missed output: the one it is sent to is the one
      whose lag is tracked, it has received something live, and it lacks some of what followed. */
  lemma GapOnlyForTheLaggard(c: Config, s: Stream, id: nat)
    requires ValidConfig(c) && CanReach(c, s) && s.reader.Sending?
    requires s.reader.purpose.TryGap? || s.reader.purpose.GapBefore?
    requires s.cached == Some(id) && id < |s.subscribers| && s.subscribers[id].receiver
    ensures s.lag == Lag(Some(id), true)
    ensures var u := s.subscribers[id];
            !u.late && LiveEvents(u) != [] && u.hi < Due(s)
  {
    CanReachLag(c, s);
  }

  /** While a chunk is sent nobody is owed a gap, a subscriber without live events is never found
      full, and a full one is the one whose lag is tracked, so the gap will go to it. */
  lemma GapGoesToTheLaggard(c: Config, s: Stream, id: nat)
    requires ValidConfig(c) && CanReach(c, s) && s.reader.Sending? && s.reader.purpose.TryChunk?
    requires s.cached == Some(id) && id < |s.subscribers| && s.subscribers[id].receiver
    ensures !s.lag.gapPending
    ensures LiveEvents(s.subscribers[id]) == [] ==> |s.subscribers[id].channel| < c.maxBufferedChunks
    ensures |s.subscribers[id].channel| == c.maxBufferedChunks ==>
              var t := Sent(c, s);
              t.lag == Lag(Some(id), true) && t.subscribers[id].hi == |t.log| - 1
  {
    CanReachSubscriber(c, s, id);
    CanReachLag(c, s);
    if |s.subscribers[id].channel| == c.maxBufferedChunks {
      assert LiveEvents(s.subscribers[id]) != [];
    }
  }

  lemma CanReachLag(c: Config, s: Stream)
    requires ValidConfig(c) && CanReach(c, s)
    ensures PurposeOk(c, s) && LagOk(c, s) && CachedUpToDate(s) && OwedIsLive(s) && TrackedLag(s)
  {
    CanReachInv(c, s);
  }

  // ------------------------------------------------------------------------- the terminal event

  lemma ReplayedIsChunk(log: seq<StreamEvent>, returned: seq<IndexedEvent>, unread: seq<IndexedEvent>, i: nat)
    requires InOrder(log, returned + unread) && i < |returned|
    ensures returned[i].event.Chunk?
  {
    assert (returned + unread)[i] == returned[i];
  }

  lemma LateTerminal(c: Config, log: seq<StreamEvent>, u: Subscriber, i: nat)
    requires SubscriberOk(c, log, u) && u.late && i < |u.received| && u.received[i].event.IsTerminal()
    ensures i == |u.received| - 1 && u.received == u.snapshot + [IndexedEvent(|log| - 1, log[|log| - 1])]
  {
    if u.terminal.Some? {
      ReplayedIsChunk(log, u.received, u.replay, i);
      assert false;
    }
  }

  /** A subscription returns at most one terminal event, and nothing after it. */
  lemma SingleTerminalOnceAndLast(c: Config, s: Stream, id: nat, i: nat)
    requires ValidConfig(c) && CanReach(c, s) && id < |s.subscribers|
    requires i < |s.subscribers[id].received| && s.subscribers[id].received[i].event.IsTerminal()
    ensures HasEnded(s.log) && i == |s.subscribers[id].received| - 1
    ensures s.subscribers[id].received[i] == IndexedEvent(|s.log| - 1, s.log[|s.log| - 1])
    ensures !HasNext(s.subscribers[id])
  {
    CanReachSubscriber(c, s, id);
    var u := s.subscribers[id];
    if u.late {
      LateTerminal(c, s.log, u, i);
    } else {
      var n := |u.snapshot|;
      assert (u.received + u.replay)[i] == u.received[i];
      assert (u.snapshot + u.live)[i] == u.received[i];
      assert LiveEvents(u)[i - n] == u.received[i];
      TerminalIsLast(s.log, LiveEvents(u), u.lo, u.hi, i - n);
    }
  }

  // ------------------------------------------------------------------------- end to end

  lemma EndedLogIsComplete(c: Config, s: Stream)
    requires ValidConfig(c) && CanReach(c, s) && HasEnded(s.log)
    ensures LogShape(s.log) && Payload(s.log) == s.ingested
  {
    CanReachInv(c, s);
  }

  /** After the terminal event the channel of a running subscription is empty. */
  lemma EndedChannelIsEmpty(c: Config, s: Stream, id: nat)
    requires ValidConfig(c) && CanReach(c, s) && id < |s.subscribers| && !s.subscribers[id].late
    requires var u := s.subscribers[id]; u.live != [] && u.live[|u.live| - 1].event.IsTerminal()
    ensures s.subscribers[id].channel == [] && s.subscribers[id].hi == |s.log|
  {
    CanReachSubscriber(c, s, id);
    var u := s.subscribers[id];
    TerminalIsLast(s.log, LiveEvents(u), u.lo, u.hi, |u.live| - 1);
  }

  /** A reliable subscription that reached the end has returned the end of the log. */
  lemma ReliableEofReturnsLog(c: Config, s: Stream, id: nat)
    returns (from: nat)
    requires ValidConfig(c) && CanReach(c, s) && id < |s.subscribers|
    requires c.delivery.ReliableWithBackpressure? && EndsWithEof(s.subscribers[id].received)
    ensures from <= |s.log| && s.subscribers[id].received == Labelled(s.log)[from..]
    ensures from == |s.log| - |s.subscribers[id].received|
  {
    ReliableIsContiguous(c, s, id);
    EndedHasReturned(c, s, id);
    var u := s.subscribers[id];
    from := if u.late then |s.log| - 1 - |u.snapshot| else RunStart(u);
    assert Labelled(s.log)[from..] == Labelled(s.log)[from..|s.log|];
  }

  /** After its terminal event a subscription holds nothing it has not returned. */
  lemma EndedHasReturned(c: Config, s: Stream, id: nat)
    requires ValidConfig(c) && CanReach(c, s) && id < |s.subscribers| && EndsWithEof(s.subscribers[id].received)
    ensures var u := s.subscribers[id];
            Everything(u) == u.received && (!u.late ==> LiveEvents(u) != [] && u.hi == |s.log|)
  {
    CanReachSubscriber(c, s, id);
    var u := s.subscribers[id];
    var last := |u.received| - 1;
    SingleTerminalOnceAndLast(c, s, id, last);
    if u.late {
      LateTerminal(c, s.log, u, last);
      LateHas(c, s.log, u);
    } else {
      assert u.received == u.received + u.replay;
      LiveIsNotEmpty(c, s.log, u);
      EndedChannelIsEmpty(c, s, id);
      assert u.received + u.replay + u.channel == u.received;
    }
  }

  lemma LiveIsNotEmpty(c: Config, log: seq<StreamEvent>, u: Subscriber)
    requires SubscriberOk(c, log, u) && !u.late && u.received == u.snapshot + u.live && EndsWithEof(u.received)
    ensures u.live != [] && u.live[|u.live| - 1] == u.received[|u.received| - 1]
  {
  }

  /** A consumer of a reliable subscription that reached the end saw exactly the lines of the bytes
      since its first event, and any visitor's result depends on those alone. */
  lemma {:induction false} SingleLinesAreExact<V>(c: Config, s: Stream, id: nat, l: Limits, onLine: OnLine<V>, v: V)
    returns (from: nat)
    requires ValidConfig(c) && CanReach(c, s) && id < |s.subscribers|
    requires c.delivery.ReliableWithBackpressure? && EndsWithEof(s.subscribers[id].received)
    ensures from + |s.subscribers[id].received| == |s.log|
    ensures SeesExactly(l, onLine, v, Unlabelled(s.subscribers[id].received), Payload(s.log[from..]))
    ensures from == 0 ==> Payload(s.log[from..]) == s.ingested
  {
    from := ReturnedWholeEnd(c, s, id);
    SeenLinesAreExact(s.log, s.subscribers[id].received, from, l, onLine, v);
  }

  lemma ReturnedWholeEnd(c: Config, s: Stream, id: nat)
    returns (from: nat)
    requires ValidConfig(c) && CanReach(c, s) && id < |s.subscribers|
    requires c.delivery.ReliableWithBackpressure? && EndsWithEof(s.subscribers[id].received)
    ensures LogShape(s.log) && from + |s.subscribers[id].received| == |s.log|
    ensures IsSlice(s.log, s.subscribers[id].received, from, |s.log|)
    ensures from == 0 ==> Payload(s.log[from..]) == s.ingested
  {
    from := ReliableEofReturnsLog(c, s, id);
    SingleTerminalOnceAndLast(c, s, id, |s.subscribers[id].received| - 1);
    EndedLogIsComplete(c, s);
    assert s.log[0..] == s.log;
    assert Labelled(s.log)[from..] == Labelled(s.log)[from..|s.log|];
  }

  // ------------------------------------------------------------------------- progress

  predicate IsReaderAction(a: Action)
  {
    || a.ReadBytes? || a.ObserveActive? || a.RecordChunk? || a.SendEvent? || a.ClearClaim? || a.RefreshAfterFailure?
    || a.DiscardBuffer?
  }

  /** The protocol never deadlocks: a reader that has not halted can act, or it waits for the full
      channel of a subscription that can receive. */
  lemma ReaderNeverWaitsInVain(c: Config, s: Stream) returns (a: Action)
    requires ValidConfig(c) && CanReach(c, s) && !s.reader.Halted?
    ensures CanDo(c, s, a)
    ensures IsReaderAction(a) ||
            (&& s.reader.Sending? && s.cached.Some? && a == NextEvent(s.cached.value)
             && s.cached.value < |s.subscribers| && |s.subscribers[s.cached.value].channel| == c.maxBufferedChunks)
  {
    CanReachControl(c, s);
    CanReachLag(c, s);
    match s.reader
    case Idle =>
      a := if s.buffer == [] then ReadBytes([NEWLINE])
           else if c.delivery.LossyWithoutBackpressure? then ObserveActive
           else RecordChunk;
    case Ready =>
      a := RecordChunk;
    case Sending(_) =>
      if s.cached.Some? {
        CanReachSubscriber(c, s, s.cached.value);
      }
      a := if CanDo(c, s, SendEvent) then SendEvent else NextEvent(s.cached.value);
    case Failed(_, _) => a := ClearClaim;
    case Cleared(_, _) => a := RefreshAfterFailure;
    case Discarding => a := DiscardBuffer;
  }
}
