/** What every reachable state of the single-subscriber backend satisfies. */
module SingleInvariant {
  import opened Events
  import opened Coverage
  import opened Replay
  import opened BroadcastShared
  import opened Fanout
  import opened FanoutInvariant
  import opened SingleSubscriber

  // ------------------------------------------------------------------------- parts

  /** The claim and the watch agree and name the newest subscription, if any. */
  predicate ClaimOk(s: Stream)
  {
    && s.shared.nextSubscriberId == |s.subscribers|
    && s.shared.activeId == s.shared.watch
    && (s.shared.watch.Some? ==> s.shared.watch.value == |s.subscribers| - 1)
    && (s.dropped ==> s.shared.watch.None?)
  }

  /** The shared history is a function of what was recorded. */
  predicate HistoryOk(c: Config, s: Stream)
  {
    && LogShape(s.log)
    && s.shared.terminal == (if HasEnded(s.log) then Some(IndexedEvent(|s.log| - 1, s.log[|s.log| - 1])) else None)
    && s.shared.events == (if s.shared.replaySealed then [] else Window(IndexedSize, c.retention, s.recorded))
    && (c.delivery.ReliableWithBackpressure? ==> s.recorded == Labelled(s.log)[..ChunkCount(s.log)])
    && InOrder(s.log, s.recorded)
  }

  /** Chunks of the log in the order of the log. */
  predicate InOrder(log: seq<StreamEvent>, events: seq<IndexedEvent>)
  {
    && (forall i :: 0 <= i < |events| ==> Genuine(log, events[i]))
    && (forall i, j :: 0 <= i < j < |events| ==> events[i].index < events[j].index)
  }

  /** A chunk of the log, labelled with its position. */
  predicate Genuine(log: seq<StreamEvent>, e: IndexedEvent)
  {
    e.index < |log| && e.event == log[e.index] && e.event.Chunk?
  }

  /** The purpose the reader is pursuing, if it is sending something. */
  function PurposeOf(r: ReaderState): Option<Purpose>
  {
    match r
    case Sending(p) => Some(p)
    case Failed(p, _) => Some(p)
    case Cleared(p, _) => Some(p)
    case _ => None
  }

  /** The reader holds an event that it has recorded and not yet dealt with. */
  predicate InHand(r: ReaderState)
  {
    PurposeOf(r).Some? && !PurposeOf(r).value.TryGap?
  }

  /** The event in hand is the last one of the log; a stream that goes on has not ended. */
  predicate PurposeOk(c: Config, s: Stream)
  {
    && (InHand(s.reader) ==>
          s.log != [] && PurposeOf(s.reader).value.event == IndexedEvent(|s.log| - 1, s.log[|s.log| - 1]))
    && (!InHand(s.reader) && !s.reader.Halted? ==> !HasEnded(s.log))
    && (PurposeOf(s.reader).Some? ==>
          match PurposeOf(s.reader).value
          case Reliably(e, recorded, retried) =>
            && (if e.event.IsTerminal() then recorded else c.delivery.ReliableWithBackpressure?)
            && (retried ==> !recorded)
          case TryChunk(e, recorded, retried) =>
            && c.delivery.LossyWithoutBackpressure? && e.event.Chunk?
            && (retried ==> !recorded)
          case TryGap => c.delivery.LossyWithoutBackpressure?
          case GapBefore(e) => c.delivery.LossyWithoutBackpressure? && e.event.IsTerminal())
    && (s.reader.Ready? || s.reader.Discarding? ==> c.delivery.LossyWithoutBackpressure?)
  }

  /** Who is owed a gap: nobody while a chunk or a terminal event is sent, and otherwise the cached
      subscriber. */
  predicate LagOk(c: Config, s: Stream)
  {
    && (c.delivery.ReliableWithBackpressure? ==> !s.lag.gapPending)
    && (s.reader.Ready? ==> !s.lag.gapPending && s.lag.subscriberId == s.cached)
    && (PurposeOf(s.reader).Some? && (PurposeOf(s.reader).value.TryChunk? || PurposeOf(s.reader).value.Reliably?) ==>
          !s.lag.gapPending)
    && (s.reader.Discarding? ==> s.lag.gapPending)
    && (PurposeOf(s.reader).Some? && (PurposeOf(s.reader).value.TryGap? || PurposeOf(s.reader).value.GapBefore?) ==>
          s.lag.gapPending)
    && (s.lag.gapPending && !s.reader.Halted? ==> s.lag.subscriberId == s.cached && s.cached.Some?)
  }

  /** A failed send went to the cached subscriber, whose receiver is closed; once the claim is
      cleared, that subscriber does not hold it. */
  predicate TargetOk(s: Stream)
  {
    && (s.cached.Some? ==> s.cached.value < |s.subscribers|)
    && (s.reader.Failed? || s.reader.Cleared? ==>
          && s.cached == Some(s.reader.target) && s.reader.target < |s.subscribers|
          && !s.subscribers[s.reader.target].receiver)
    && (s.reader.Cleared? ==> s.shared.watch != Some(s.reader.target))
  }

  /** While the owner keeps the stream, an open subscription with a receiver holds the claim. */
  predicate Exclusive(s: Stream)
  {
    forall id :: 0 <= id < |s.subscribers| && s.subscribers[id].receiver && !s.dropped ==>
      s.shared.watch == Some(id)
  }

  // ------------------------------------------------------------------------- subscribers

  /** Replay and live events are returned in this order: what was returned and what is left to replay
      is the snapshot followed by the live events. */
  predicate Accounted(u: Subscriber)
  {
    u.received + u.replay == u.snapshot + u.live
  }

  /** A subscriber that attached while the stream was running. */
  ghost predicate RunningOk(c: Config, log: seq<StreamEvent>, u: Subscriber)
  {
    && u.terminal.None?
    && Accounted(u)
    && Covers(log, LiveEvents(u), u.lo, u.hi)
    && (LiveEvents(u) != [] ==> !LiveEvents(u)[0].event.Gap?)
    && (c.delivery.ReliableWithBackpressure? ==>
          && NoGap(LiveEvents(u))
          && IsSlice(log, u.snapshot, u.attachedAt - |u.snapshot|, u.attachedAt)
          && (LiveEvents(u) != [] ==> u.lo == u.attachedAt || (u.snapshot == [] && u.lo == u.attachedAt - 1)))
  }

  /** A subscriber that attached after the end: it replays, returns the stored terminal event, and
      never looks at its channel. */
  predicate LateOk(c: Config, log: seq<StreamEvent>, u: Subscriber)
  {
    && HasEnded(log) && u.attachedAt == |log|
    && u.live == []
    && (u.terminal.Some? ==>
          u.terminal.value == IndexedEvent(|log| - 1, log[|log| - 1]) && Accounted(u))
    && (u.terminal.None? ==>
          !u.receiver && u.replay == [] && u.received == u.snapshot + [IndexedEvent(|log| - 1, log[|log| - 1])])
    && (c.delivery.ReliableWithBackpressure? ==>
          IsSlice(log, u.snapshot, |log| - 1 - |u.snapshot|, |log| - 1))
  }

  ghost predicate SubscriberOk(c: Config, log: seq<StreamEvent>, u: Subscriber)
  {
    && u.attachedAt <= |log|
    && |u.channel| <= c.maxBufferedChunks
    && (!u.handle.Open? ==> !u.receiver)
    && InOrder(log, u.snapshot)
    && (u.late ==> LateOk(c, log, u))
    && (!u.late ==> RunningOk(c, log, u) && (HasEnded(log) ==> u.attachedAt < |log|))
  }

  ghost predicate SubscribersOk(c: Config, s: Stream)
  {
    forall id :: 0 <= id < |s.subscribers| ==> SubscriberOk(c, s.log, s.subscribers[id])
  }

  /** How much of the log an up-to-date subscriber has: all of it but the event in hand. */
  function Due(s: Stream): int
  {
    |s.log| - if InHand(s.reader) then 1 else 0
  }

  /** A subscriber with live events that is the active one is the cached one. */
  predicate ActiveIsCached(s: Stream)
  {
    s.shared.watch.Some? && s.shared.watch.value < |s.subscribers|
    && LiveEvents(s.subscribers[s.shared.watch.value]) != [] && !s.subscribers[s.shared.watch.value].late ==>
      s.cached == s.shared.watch
  }

  /** The cached subscriber has everything that is due, unless it is owed a gap, and then it lacks
      something. */
  predicate CachedUpToDate(s: Stream)
  {
    !s.reader.Halted? && s.cached.Some? && s.cached.value < |s.subscribers| ==>
      var u := s.subscribers[s.cached.value];
      u.receiver && !u.late && LiveEvents(u) != [] ==>
        if s.lag.gapPending && s.lag.subscriberId == s.cached then u.hi < Due(s) else u.hi == Due(s)
  }

  /** The subscriber that is owed a gap attached while the stream was running and has live events. */
  predicate OwedIsLive(s: Stream)
  {
    s.lag.gapPending && !s.reader.Halted? && s.cached.Some? && s.cached.value < |s.subscribers| ==>
      LiveEvents(s.subscribers[s.cached.value]) != [] && !s.subscribers[s.cached.value].late
  }

  /** A full channel belongs to the subscriber whose lag is tracked. */
  predicate TrackedLag(s: Stream)
  {
    && PurposeOf(s.reader).Some? && PurposeOf(s.reader).value.TryChunk?
    && s.cached.Some? && s.cached.value < |s.subscribers|
    && LiveEvents(s.subscribers[s.cached.value]) != [] ==>
      s.lag.subscriberId == s.cached
  }

  /** A send that was not retried goes to a subscriber that attached before the event was recorded,
      and every later subscriber attached after it; a retry goes to such a later subscriber. */
  predicate InHandOrder(s: Stream)
  {
    InHand(s.reader) ==>
      && (s.cached.Some? && s.cached.value < |s.subscribers| ==>
            if Retried(s.reader) then Newcomer(s.subscribers[s.cached.value], |s.log|)
            else (s.subscribers[s.cached.value].late || s.subscribers[s.cached.value].attachedAt < |s.log|))
      && (s.cached.Some? ==>
            forall id :: s.cached.value < id < |s.subscribers| ==> Newcomer(s.subscribers[id], |s.log|))
      && (IsUnrecorded(s.reader) ==>
            forall id :: 0 <= id < |s.subscribers| && s.subscribers[id].attachedAt == |s.log| ==>
              s.subscribers[id].snapshot == [])
  }

  predicate Retried(r: ReaderState)
  {
    && PurposeOf(r).Some?
    && match PurposeOf(r).value
       case Reliably(_, _, retried) => retried
       case TryChunk(_, _, retried) => retried
       case _ => false
  }

  predicate IsUnrecorded(r: ReaderState)
  {
    && PurposeOf(r).Some?
    && match PurposeOf(r).value
       case Reliably(_, recorded, _) => !recorded
       case TryChunk(_, recorded, _) => !recorded
       case _ => false
  }

  /** Attached after the event in hand was recorded, and nothing was sent to it yet. */
  predicate Newcomer(u: Subscriber, now: nat)
  {
    u.attachedAt == now && (LiveEvents(u) == [] || u.late)
  }

  /** An unrecorded event in hand means that a subscriber attaching now has nothing to replay. */
  predicate UnrecordedOk(c: Config, s: Stream)
  {
    IsUnrecorded(s.reader) ==> ReplaySnapshot(s.shared, c.retention) == []
  }

  /** Holds the claim, or is being sent the event in hand. */
  predicate IsServed(s: Stream, id: nat)
  {
    s.shared.watch == Some(id) || (s.reader.Sending? && s.cached == Some(id))
  }

  /** With reliable delivery, a subscriber that has seen nothing live yet has missed nothing. */
  predicate FreshOk(c: Config, s: Stream)
  {
    c.delivery.ReliableWithBackpressure? && !s.reader.Halted? ==>
      forall id :: 0 <= id < |s.subscribers| ==>
        var u := s.subscribers[id];
        u.receiver && !u.late && LiveEvents(u) == [] && IsServed(s, id) ==>
          u.attachedAt == |s.log| || (s.reader.Sending? && s.cached == Some(id) && u.attachedAt == |s.log| - 1)
  }

  /** Nothing read from the child is missing from the log, unless the reader was aborted, and the
      lossy loop deals with a pending gap only when there is output to split. */
  predicate NothingMissing(s: Stream)
  {
    && Payload(s.log) <= s.ingested
    && (!s.reader.Halted? || HasEnded(s.log) ==> Payload(s.log) + s.buffer == s.ingested)
    && (HasEnded(s.log) ==> s.buffer == [])
    && (s.reader.Ready? || PurposeOf(s.reader) == Some(TryGap) ==> s.buffer != [])
  }

  /** Control: claim, cache and lag. */
  ghost predicate Control(c: Config, s: Stream)
  {
    && ClaimOk(s) && PurposeOk(c, s) && LagOk(c, s) && TargetOk(s) && Exclusive(s)
  }

  /** Data: history and subscribers. */
  ghost predicate Data(c: Config, s: Stream)
  {
    HistoryOk(c, s) && SubscribersOk(c, s)
  }

  /** Service: what the cached and the active subscriber still miss. */
  ghost predicate Serves(c: Config, s: Stream)
  {
    && ActiveIsCached(s) && CachedUpToDate(s) && OwedIsLive(s) && TrackedLag(s)
    && InHandOrder(s) && UnrecordedOk(c, s) && FreshOk(c, s)
  }

  ghost predicate StreamInv(c: Config, s: Stream)
  {
    Control(c, s) && Data(c, s) && Serves(c, s) && NothingMissing(s)
  }

  // ------------------------------------------------------------------------- framing

  /** The data do not depend on the reader's own state, the claim or the buffer. */
  lemma SameData(c: Config, s: Stream, t: Stream)
    requires Data(c, s) && t.log == s.log && t.recorded == s.recorded && t.subscribers == s.subscribers
    requires t.shared.events == s.shared.events && t.shared.replaySealed == s.shared.replaySealed
    requires t.shared.terminal == s.shared.terminal
    ensures Data(c, t)
  {
  }

  /** Control and service do not depend on the bytes read. */
  lemma SameReader(c: Config, s: Stream, buffer: Bytes, ingested: Bytes)
    requires Control(c, s) && Serves(c, s)
    ensures Control(c, s.(buffer := buffer, ingested := ingested))
            && Serves(c, s.(buffer := buffer, ingested := ingested))
  {
  }

  // ------------------------------------------------------------------------- recording

  lemma RecordData(c: Config, s: Stream, event: StreamEvent)
    requires Data(c, s) && !HasEnded(s.log) && (event.Chunk? || event.IsTerminal())
    ensures Data(c, Record(c, s, event))
  {
    RecordHistory(c, s, event);
    GrowSubscribers(c, s, [event]);
  }

  lemma RecordHistory(c: Config, s: Stream, event: StreamEvent)
    requires HistoryOk(c, s) && !HasEnded(s.log) && (event.Chunk? || event.IsTerminal())
    ensures HistoryOk(c, Record(c, s, event))
  {
    var e := IndexedEvent(|s.log|, event);
    RecordInOrder(s.log, s.recorded, event);
    RecordLabels(s.log, event);
    if event.Chunk? {
      WindowStep(IndexedSize, c.retention, s.recorded, e);
    }
  }

  lemma RecordLabels(log: seq<StreamEvent>, event: StreamEvent)
    requires LogShape(log) && !HasEnded(log) && (event.Chunk? || event.IsTerminal())
    ensures LogShape(log + [event])
    ensures var chunks := Labelled(log)[..ChunkCount(log)];
            Labelled(log + [event])[..ChunkCount(log + [event])] ==
              if event.Chunk? then chunks + [IndexedEvent(|log|, event)] else chunks
  {
  }

  lemma RecordInOrder(log: seq<StreamEvent>, recorded: seq<IndexedEvent>, event: StreamEvent)
    requires InOrder(log, recorded)
    ensures InOrder(log + [event], recorded)
    ensures event.Chunk? ==> InOrder(log + [event], recorded + [IndexedEvent(|log|, event)])
  {
  }

  /** Further output leaves what subscribers have seen as it is. */
  lemma GrowSubscribers(c: Config, s: Stream, more: seq<StreamEvent>)
    requires SubscribersOk(c, s) && !HasEnded(s.log) && more != []
    ensures SubscribersOk(c, s.(log := s.log + more))
  {
    forall id | 0 <= id < |s.subscribers| ensures SubscriberOk(c, s.log + more, s.subscribers[id]) {
      GrowSubscriber(c, s.log, s.subscribers[id], more);
    }
  }

  lemma GrowSubscriber(c: Config, log: seq<StreamEvent>, u: Subscriber, more: seq<StreamEvent>)
    requires SubscriberOk(c, log, u) && !HasEnded(log) && more != []
    ensures SubscriberOk(c, log + more, u)
  {
    CoversGrow(log, more, LiveEvents(u), u.lo, u.hi);
    if c.delivery.ReliableWithBackpressure? {
      if !u.late {
        SliceGrows(log, more, u.snapshot, u.attachedAt - |u.snapshot|, u.attachedAt);
      }
    }
  }

  predicate CanRecord(c: Config, s: Stream, event: StreamEvent)
  {
    && (event.Chunk? || event.IsTerminal())
    && if event.Chunk? && c.delivery.LossyWithoutBackpressure? then s.reader.Ready? else s.reader.Idle?
  }

  lemma RecordControl(c: Config, s: Stream, event: StreamEvent)
    requires Control(c, s) && CanRecord(c, s, event)
    ensures Control(c, AfterRecord(c, s, event))
  {
  }

  lemma RecordServes(c: Config, s: Stream, event: StreamEvent)
    requires Control(c, s) && Data(c, s) && Serves(c, s) && CanRecord(c, s, event)
    ensures Serves(c, AfterRecord(c, s, event))
  {
    assert forall id :: 0 <= id < |s.subscribers| ==> SubscriberOk(c, s.log, s.subscribers[id]);
    RecordTracks(c, s, event);
    RecordOrders(c, s, event);
  }

  lemma RecordTracks(c: Config, s: Stream, event: StreamEvent)
    requires Control(c, s) && Serves(c, s) && CanRecord(c, s, event)
    requires forall id :: 0 <= id < |s.subscribers| ==> !s.subscribers[id].late
    ensures var t := AfterRecord(c, s, event);
            ActiveIsCached(t) && CachedUpToDate(t) && OwedIsLive(t) && TrackedLag(t)
  {
  }

  lemma RecordOrders(c: Config, s: Stream, event: StreamEvent)
    requires Control(c, s) && Serves(c, s) && CanRecord(c, s, event)
    requires forall id :: 0 <= id < |s.subscribers| ==>
               s.subscribers[id].attachedAt <= |s.log| && !s.subscribers[id].late
    ensures var t := AfterRecord(c, s, event);
            InHandOrder(t) && UnrecordedOk(c, t) && FreshOk(c, t)
  {
    var t := AfterRecord(c, s, event);
    assert forall id :: 0 <= id < |s.subscribers| ==> s.subscribers[id].attachedAt < |t.log|;
  }

  lemma RecordKeeps(c: Config, s: Stream, event: StreamEvent)
    requires Control(c, s) && Data(c, s) && Serves(c, s) && CanRecord(c, s, event)
    ensures var t := AfterRecord(c, s, event);
            Control(c, t) && Data(c, t) && Serves(c, t)
  {
    RecordControl(c, s, event);
    RecordServes(c, s, event);
    RecordData(c, s, event);
  }

  lemma RecordChunkKeeps(c: Config, s: Stream)
    requires ValidConfig(c) && StreamInv(c, s) && CanDo(c, s, RecordChunk)
    ensures StreamInv(c, Do(c, s, RecordChunk))
  {
    var n := Min(c.readChunkSize, |s.buffer|);
    var t := s.(buffer := s.buffer[n..]);
    SameReader(c, s, t.buffer, s.ingested);
    SameData(c, s, t);
    RecordKeeps(c, t, Chunk(s.buffer[..n]));
    ChunkMissesNothing(c, s, n);
  }

  lemma ChunkMissesNothing(c: Config, s: Stream, n: nat)
    requires NothingMissing(s) && PurposeOk(c, s) && n <= |s.buffer|
    requires CanRecord(c, s, Chunk(s.buffer[..n]))
    ensures NothingMissing(AfterRecord(c, s.(buffer := s.buffer[n..]), Chunk(s.buffer[..n])))
  {
    AppendedPayload(s.log, s.buffer, n);
    var log := s.log + [Chunk(s.buffer[..n])];
    assert Payload(log) == s.ingested[..|Payload(log)|];
  }

  lemma RecordTerminalKeeps(c: Config, s: Stream, event: StreamEvent)
    requires ValidConfig(c) && StreamInv(c, s) && CanDo(c, s, RecordTerminal(event))
    ensures StreamInv(c, Do(c, s, RecordTerminal(event)))
  {
    RecordKeeps(c, s, event);
    PayloadAppend(s.log, [event]);
    assert Payload([event]) == [];
  }

  // ------------------------------------------------------------------------- bookkeeping

  lemma ReadBytesKeeps(c: Config, s: Stream, bytes: Bytes)
    requires ValidConfig(c) && StreamInv(c, s) && CanDo(c, s, ReadBytes(bytes))
    ensures StreamInv(c, Do(c, s, ReadBytes(bytes)))
  {
    SameReader(c, s, bytes, s.ingested + bytes);
    SameData(c, s, Do(c, s, ReadBytes(bytes)));
    assert Payload(s.log) + [] == Payload(s.log);
  }

  lemma RefreshCacheKeeps(c: Config, s: Stream)
    requires ValidConfig(c) && StreamInv(c, s) && CanDo(c, s, RefreshCache)
    ensures StreamInv(c, Do(c, s, RefreshCache))
  {
  }

  lemma ObserveActiveKeeps(c: Config, s: Stream)
    requires ValidConfig(c) && StreamInv(c, s) && CanDo(c, s, ObserveActive)
    ensures StreamInv(c, Do(c, s, ObserveActive))
  {
  }

  lemma {:induction false} SplitBufferOk(size: nat, buffer: Bytes)
    requires size > 0
    ensures var chunks := SplitBuffer(size, buffer);
            && Payload(chunks) == buffer
            && (buffer != [] ==> chunks != [])
            && (forall i :: 0 <= i < |chunks| ==> chunks[i].Chunk?)
    decreases |buffer|
  {
    if buffer != [] {
      var n := Min(size, |buffer|);
      SplitBufferOk(size, buffer[n..]);
      assert buffer == buffer[..n] + buffer[n..];
    }
  }

  lemma DiscardData(c: Config, s: Stream, more: seq<StreamEvent>)
    requires Data(c, s) && !HasEnded(s.log) && c.delivery.LossyWithoutBackpressure?
    requires more != [] && forall i :: 0 <= i < |more| ==> more[i].Chunk?
    ensures Data(c, s.(log := s.log + more))
  {
    GrowSubscribers(c, s, more);
  }

  lemma DiscardKeeps(c: Config, s: Stream)
    requires ValidConfig(c) && StreamInv(c, s) && CanDo(c, s, DiscardBuffer)
    ensures StreamInv(c, Do(c, s, DiscardBuffer))
  {
    var more := SplitBuffer(c.readChunkSize, s.buffer);
    SplitBufferOk(c.readChunkSize, s.buffer);
    PayloadAppend(s.log, more);
    if more == [] {
      assert s.log + more == s.log;
      SameData(c, s, Do(c, s, DiscardBuffer));
    } else {
      DiscardData(c, s, more);
      SameData(c, s.(log := s.log + more), Do(c, s, DiscardBuffer));
    }
    DiscardServes(c, s, more);
  }

  lemma DiscardServes(c: Config, s: Stream, more: seq<StreamEvent>)
    requires Control(c, s) && Serves(c, s) && s.reader.Discarding?
    ensures Serves(c, s.(reader := Idle, buffer := [], log := s.log + more))
  {
  }

  lemma AbortKeeps(c: Config, s: Stream)
    requires ValidConfig(c) && StreamInv(c, s) && CanDo(c, s, Abort)
    ensures StreamInv(c, Do(c, s, Abort))
  {
  }

  lemma ClearClaimControl(c: Config, s: Stream)
    requires ValidConfig(c) && Control(c, s) && CanDo(c, s, ClearClaim)
    ensures Control(c, Do(c, s, ClearClaim))
  {
  }

  lemma ClearClaimServes(c: Config, s: Stream)
    requires ValidConfig(c) && TargetOk(s) && Serves(c, s) && CanDo(c, s, ClearClaim)
    ensures Serves(c, Do(c, s, ClearClaim))
  {
  }

  lemma ClearClaimKeeps(c: Config, s: Stream)
    requires ValidConfig(c) && StreamInv(c, s) && CanDo(c, s, ClearClaim)
    ensures StreamInv(c, Do(c, s, ClearClaim))
  {
    ClearClaimControl(c, s);
    ClearClaimServes(c, s);
  }

  /** After a failed send, the refreshed cache is empty or names a subscriber that attached after the
      event in hand was recorded. */
  lemma RefreshedToNewcomer(c: Config, s: Stream)
    requires Control(c, s) && InHandOrder(s) && s.reader.Cleared? && InHand(s.reader) && s.shared.watch.Some?
    ensures s.shared.watch.value == |s.subscribers| - 1 > s.reader.target
    ensures Newcomer(s.subscribers[s.shared.watch.value], |s.log|)
  {
  }

  lemma RefreshedControl(c: Config, s: Stream)
    requires Control(c, s) && s.reader.Cleared?
    ensures Control(c, Refreshed(s))
  {
  }

  lemma RefreshedServes(c: Config, s: Stream)
    requires Control(c, s) && Data(c, s) && Serves(c, s) && s.reader.Cleared?
    ensures Serves(c, Refreshed(s))
  {
    RefreshedTracks(c, s);
    RefreshedOrders(c, s);
    RefreshedFresh(c, s);
  }

  lemma RefreshedTracks(c: Config, s: Stream)
    requires Control(c, s) && ActiveIsCached(s) && InHandOrder(s) && SubscribersOk(c, s) && s.reader.Cleared?
    ensures var t := Refreshed(s);
            ActiveIsCached(t) && CachedUpToDate(t) && OwedIsLive(t) && TrackedLag(t)
  {
    if InHand(s.reader) && s.shared.watch.Some? {
      RefreshedToNewcomer(c, s);
      assert SubscriberOk(c, s.log, s.subscribers[s.shared.watch.value]);
    }
  }

  lemma RefreshedOrders(c: Config, s: Stream)
    requires Control(c, s) && InHandOrder(s) && UnrecordedOk(c, s) && s.reader.Cleared?
    requires SubscribersOk(c, s)
    ensures InHandOrder(Refreshed(s)) && UnrecordedOk(c, Refreshed(s))
  {
    match s.reader.purpose
    case Reliably(_, recorded, retried) =>
      if !recorded && !retried {
        RefreshedRetry(c, s);
      }
    case TryChunk(_, recorded, retried) =>
      if !recorded && !retried {
        RefreshedRetry(c, s);
      }
    case TryGap =>
    case GapBefore(_) => RefreshedTerminal(c, s);
  }

  /** The retry of an unrecorded event goes to a newcomer or to nobody. */
  lemma RefreshedRetry(c: Config, s: Stream)
    requires Control(c, s) && InHandOrder(s) && s.reader.Cleared?
    requires Refreshed(s).reader.Sending? && IsUnrecorded(s.reader)
    ensures InHandOrder(Refreshed(s))
  {
    if s.shared.watch.Some? {
      RefreshedToNewcomer(c, s);
    }
  }

  /** A terminal event whose gap could not be sent goes to a subscriber that attached after the end,
      or to nobody. */
  lemma RefreshedTerminal(c: Config, s: Stream)
    requires Control(c, s) && InHandOrder(s) && SubscribersOk(c, s) && s.reader.Cleared? && s.reader.purpose.GapBefore?
    ensures InHandOrder(Refreshed(s))
  {
    if s.shared.watch.Some? {
      RefreshedToNewcomer(c, s);
      assert SubscriberOk(c, s.log, s.subscribers[s.shared.watch.value]);
    }
  }

  lemma RefreshedFresh(c: Config, s: Stream)
    requires Control(c, s) && InHandOrder(s) && FreshOk(c, s) && s.reader.Cleared?
    ensures FreshOk(c, Refreshed(s))
  {
    if InHand(s.reader) && s.shared.watch.Some? {
      RefreshedToNewcomer(c, s);
    }
  }

  lemma RefreshedKeeps(c: Config, s: Stream)
    requires ValidConfig(c) && StreamInv(c, s) && CanDo(c, s, RefreshAfterFailure)
    ensures StreamInv(c, Do(c, s, RefreshAfterFailure))
  {
    RefreshedControl(c, s);
    RefreshedServes(c, s);
    SameData(c, s, Refreshed(s));
    RefreshedMissesNothing(c, s);
  }

  lemma RefreshedMissesNothing(c: Config, s: Stream)
    requires NothingMissing(s) && PurposeOk(c, s) && s.reader.Cleared?
    ensures NothingMissing(Refreshed(s))
  {
  }

  lemma SealKeepsStream(c: Config, s: Stream)
    requires ValidConfig(c) && StreamInv(c, s) && CanDo(c, s, Seal)
    ensures StreamInv(c, Do(c, s, Seal))
  {
    SealServes(c, s);
  }

  lemma SealServes(c: Config, s: Stream)
    requires Serves(c, s)
    ensures Serves(c, s.(shared := s.shared.(replaySealed := true, events := [])))
  {
  }

  lemma DropOwnerKeeps(c: Config, s: Stream)
    requires ValidConfig(c) && StreamInv(c, s) && CanDo(c, s, DropOwner)
    ensures StreamInv(c, Do(c, s, DropOwner))
  {
    DropOwnerServes(c, s);
    SameData(c, s, Do(c, s, DropOwner));
  }

  lemma DropOwnerServes(c: Config, s: Stream)
    requires Serves(c, s)
    ensures Serves(c, s.(dropped := true, shared := s.shared.(activeId := None, watch := None)))
  {
  }

  // ------------------------------------------------------------------------- sending

  lemma SendControl(c: Config, s: Stream)
    requires Control(c, s) && CanDo(c, s, SendEvent) && TrackedLag(s) && ValidConfig(c)
    ensures Control(c, Sent(c, s))
  {
    if s.cached.None? {
      SendNobodyControl(c, s);
    } else if s.subscribers[s.cached.value].receiver {
      if |s.subscribers[s.cached.value].channel| >= c.maxBufferedChunks {
        assert LiveEvents(s.subscribers[s.cached.value]) != [];
        SendFullControl(c, s);
      } else {
        SendAcceptedControl(c, s, s.cached.value);
      }
    }
  }

  lemma SendNobodyControl(c: Config, s: Stream)
    requires Control(c, s) && s.reader.Sending? && s.cached.None?
    ensures Control(c, SendToNobody(s))
  {
  }

  lemma SendFullControl(c: Config, s: Stream)
    requires Control(c, s) && s.reader.Sending? && (s.reader.purpose.TryChunk? || s.reader.purpose.TryGap?)
    requires s.reader.purpose.TryChunk? ==> s.cached.Some? && s.lag.subscriberId == s.cached
    ensures Control(c, SendFull(s))
  {
  }

  lemma SendAcceptedControl(c: Config, s: Stream, id: nat)
    requires Control(c, s) && s.reader.Sending? && s.cached == Some(id)
    ensures Control(c, SendAccepted(s, id))
  {
  }

  /** An event goes to a subscriber that lacks exactly that event, or that has seen nothing live. */
  lemma DeliverEventOk(c: Config, log: seq<StreamEvent>, u: Subscriber)
    requires SubscriberOk(c, log, u) && log != [] && !log[|log| - 1].Gap?
    requires |u.channel| < c.maxBufferedChunks
    requires !u.late && LiveEvents(u) != [] ==> u.hi == |log| - 1
    requires !u.late && LiveEvents(u) == [] && c.delivery.ReliableWithBackpressure? ==>
               u.attachedAt == |log| - 1 || (u.attachedAt == |log| && u.snapshot == [])
    ensures SubscriberOk(c, log, Deliver(u, IndexedEvent(|log| - 1, log[|log| - 1]), |log|))
  {
    var e := IndexedEvent(|log| - 1, log[|log| - 1]);
    if u.late {
      DeliverLate(c, log, u, e, |log|);
    } else {
      DeliverRunning(c, log, u, e);
    }
  }

  lemma DeliverLate(c: Config, log: seq<StreamEvent>, u: Subscriber, e: IndexedEvent, upTo: nat)
    requires SubscriberOk(c, log, u) && u.late && |u.channel| < c.maxBufferedChunks
    ensures SubscriberOk(c, log, Deliver(u, e, upTo))
  {
  }

  lemma DeliverRunning(c: Config, log: seq<StreamEvent>, u: Subscriber, e: IndexedEvent)
    requires SubscriberOk(c, log, u) && !u.late && |u.channel| < c.maxBufferedChunks
    requires log != [] && e == IndexedEvent(|log| - 1, log[|log| - 1]) && !e.event.Gap?
    requires LiveEvents(u) != [] ==> u.hi == |log| - 1
    requires LiveEvents(u) == [] && c.delivery.ReliableWithBackpressure? ==>
               u.attachedAt == |log| - 1 || (u.attachedAt == |log| && u.snapshot == [])
    ensures SubscriberOk(c, log, Deliver(u, e, |log|))
  {
    var v := Deliver(u, e, |log|);
    Assoc(u.live, u.channel, [e]);
    if LiveEvents(u) == [] {
      CoversNothing(log, LiveEvents(u), |log| - 1);
    }
    CoversNext(log, LiveEvents(u), v.lo, |log| - 1);
  }

  /** A gap goes to a subscriber that lacks something. */
  lemma DeliverGapOk(c: Config, log: seq<StreamEvent>, u: Subscriber, gap: IndexedEvent, upTo: nat)
    requires SubscriberOk(c, log, u) && c.delivery.LossyWithoutBackpressure? && gap.event.Gap?
    requires |u.channel| < c.maxBufferedChunks && upTo <= |log|
    requires !u.late && LiveEvents(u) != [] && u.hi < upTo
    ensures SubscriberOk(c, log, Deliver(u, gap, upTo))
  {
    var v := Deliver(u, gap, upTo);
    assert LiveEvents(v) == LiveEvents(u) + [gap];
    CoversGap(log, LiveEvents(u), gap, u.lo, u.hi, upTo);
  }

  lemma SendNobodyServes(c: Config, s: Stream)
    requires Control(c, s) && Serves(c, s) && s.reader.Sending? && s.cached.None?
    ensures Serves(c, SendToNobody(s))
  {
  }

  lemma SendFailsServes(c: Config, s: Stream, id: nat)
    requires Control(c, s) && Serves(c, s) && s.reader.Sending? && s.cached == Some(id)
    requires !s.subscribers[id].receiver
    ensures Serves(c, s.(reader := Failed(s.reader.purpose, id)))
  {
  }

  lemma SendFullServes(c: Config, s: Stream, id: nat)
    requires Control(c, s) && Data(c, s) && Serves(c, s) && s.reader.Sending? && s.cached == Some(id)
    requires s.subscribers[id].receiver && s.subscribers[id].channel != []
    requires s.reader.purpose.TryChunk? || s.reader.purpose.TryGap?
    ensures Serves(c, SendFull(s))
  {
    assert SubscriberOk(c, s.log, s.subscribers[id]);
    assert LiveEvents(s.subscribers[id]) != [];
  }

  /** A subscriber that is sent an event without having seen anything live attached just before the
      event, or just after it and without replay. */
  lemma FirstEventFits(c: Config, s: Stream, id: nat)
    requires PurposeOk(c, s) && FreshOk(c, s) && InHandOrder(s)
    requires s.reader.Sending? && s.cached == Some(id) && id < |s.subscribers|
    requires s.reader.purpose.Reliably? && c.delivery.ReliableWithBackpressure?
    requires var u := s.subscribers[id]; u.receiver && !u.late && LiveEvents(u) == []
    ensures var u := s.subscribers[id];
            u.attachedAt == |s.log| - 1 || (u.attachedAt == |s.log| && u.snapshot == [])
  {
    assert IsServed(s, id);
  }

  lemma DeliveredEventOk(c: Config, s: Stream, id: nat)
    requires PurposeOk(c, s) && LagOk(c, s) && LogShape(s.log)
    requires CachedUpToDate(s) && FreshOk(c, s) && InHandOrder(s)
    requires s.reader.Sending? && s.cached == Some(id) && id < |s.subscribers|
    requires s.reader.purpose.Reliably? || s.reader.purpose.TryChunk?
    requires SubscriberOk(c, s.log, s.subscribers[id])
    requires s.subscribers[id].receiver && |s.subscribers[id].channel| < c.maxBufferedChunks
    ensures var e := s.reader.purpose.event;
            SubscriberOk(c, s.log, Deliver(s.subscribers[id], e, e.index + 1))
  {
    var u := s.subscribers[id];
    if c.delivery.ReliableWithBackpressure? && !u.late && LiveEvents(u) == [] {
      FirstEventFits(c, s, id);
    }
    LacksEventInHand(c, s, id);
    DeliverEventOk(c, s.log, u);
  }

  lemma LacksEventInHand(c: Config, s: Stream, id: nat)
    requires PurposeOk(c, s) && LagOk(c, s) && CachedUpToDate(s) && LogShape(s.log)
    requires s.reader.Sending? && s.cached == Some(id) && id < |s.subscribers| && s.subscribers[id].receiver
    requires s.reader.purpose.Reliably? || s.reader.purpose.TryChunk?
    ensures s.log != [] && !s.log[|s.log| - 1].Gap?
    ensures s.reader.purpose.event == IndexedEvent(|s.log| - 1, s.log[|s.log| - 1])
    ensures !s.subscribers[id].late && LiveEvents(s.subscribers[id]) != [] ==> s.subscribers[id].hi == |s.log| - 1
  {
  }

  lemma DeliveredGapOk(c: Config, s: Stream, id: nat)
    requires PurposeOk(c, s) && LagOk(c, s) && CachedUpToDate(s) && OwedIsLive(s)
    requires s.reader.Sending? && s.cached == Some(id) && id < |s.subscribers|
    requires s.reader.purpose.TryGap? || s.reader.purpose.GapBefore?
    requires SubscriberOk(c, s.log, s.subscribers[id])
    requires s.subscribers[id].receiver && |s.subscribers[id].channel| < c.maxBufferedChunks
    ensures Due(s) >= 0 && SubscriberOk(c, s.log, Deliver(s.subscribers[id], IndexedEvent(|s.log|, Gap), Due(s)))
  {
    DeliverGapOk(c, s.log, s.subscribers[id], IndexedEvent(|s.log|, Gap), Due(s));
  }

  lemma UpdateData(c: Config, s: Stream, id: nat, t: Stream)
    requires Data(c, s) && id < |s.subscribers| == |t.subscribers|
    requires t.subscribers == s.subscribers[id := t.subscribers[id]]
    requires t.log == s.log && t.shared == s.shared && t.recorded == s.recorded
    requires SubscriberOk(c, s.log, t.subscribers[id])
    ensures Data(c, t)
  {
  }

  /** After a chunk or terminal event was delivered, the subscriber has the whole log. */
  lemma DeliveredEventServes(c: Config, s: Stream, id: nat)
    requires Control(c, s) && Serves(c, s) && s.reader.Sending? && s.cached == Some(id)
    requires s.reader.purpose.Reliably? || s.reader.purpose.TryChunk?
    ensures Serves(c, SendAccepted(s, id))
  {
    var t := SendAccepted(s, id);
    assert LiveEvents(t.subscribers[id]) != [];
    assert !PurposeOf(t.reader).Some?;
  }

  lemma DeliveredGapServes(c: Config, s: Stream, id: nat)
    requires Control(c, s) && Serves(c, s) && s.reader.Sending? && s.cached == Some(id)
    requires s.reader.purpose.TryGap?
    ensures Serves(c, SendAccepted(s, id))
  {
    var t := SendAccepted(s, id);
    assert LiveEvents(t.subscribers[id]) != [];
  }

  lemma DeliveredGapBeforeServes(c: Config, s: Stream, id: nat)
    requires Control(c, s) && Serves(c, s) && s.reader.Sending? && s.cached == Some(id)
    requires s.reader.purpose.GapBefore?
    ensures Serves(c, SendAccepted(s, id))
  {
    var t := SendAccepted(s, id);
    assert LiveEvents(t.subscribers[id]) != [];
    assert InHandOrder(t);
  }

  lemma SendServes(c: Config, s: Stream)
    requires ValidConfig(c) && Control(c, s) && Data(c, s) && Serves(c, s) && CanDo(c, s, SendEvent)
    ensures Serves(c, Sent(c, s))
  {
    if s.cached.None? {
      SendNobodyServes(c, s);
    } else {
      var id := s.cached.value;
      if !s.subscribers[id].receiver {
        SendFailsServes(c, s, id);
      } else if |s.subscribers[id].channel| >= c.maxBufferedChunks {
        SendFullServes(c, s, id);
      } else if s.reader.purpose.TryGap? {
        DeliveredGapServes(c, s, id);
      } else if s.reader.purpose.GapBefore? {
        DeliveredGapBeforeServes(c, s, id);
      } else {
        DeliveredEventServes(c, s, id);
      }
    }
  }

  lemma SendData(c: Config, s: Stream)
    requires ValidConfig(c) && Control(c, s) && Data(c, s) && Serves(c, s) && CanDo(c, s, SendEvent)
    ensures Data(c, Sent(c, s))
  {
    if s.cached.Some? && s.subscribers[s.cached.value].receiver
       && |s.subscribers[s.cached.value].channel| < c.maxBufferedChunks {
      SendAcceptedData(c, s, s.cached.value);
    } else {
      RefusedSend(c, s);
      SameData(c, s, Sent(c, s));
    }
  }

  /** A send that no channel takes leaves everything but the reader's own state. */
  lemma RefusedSend(c: Config, s: Stream)
    requires s.reader.Sending? && (s.cached.Some? ==> s.cached.value < |s.subscribers|)
    requires s.cached.Some? && s.subscribers[s.cached.value].receiver ==>
               |s.subscribers[s.cached.value].channel| >= c.maxBufferedChunks
    ensures var t := Sent(c, s);
            t.shared == s.shared && t.subscribers == s.subscribers && t.log == s.log && t.recorded == s.recorded
  {
  }

  lemma SendAcceptedData(c: Config, s: Stream, id: nat)
    requires Control(c, s) && Data(c, s) && s.reader.Sending? && s.cached == Some(id)
    requires CachedUpToDate(s) && OwedIsLive(s) && FreshOk(c, s) && InHandOrder(s)
    requires s.subscribers[id].receiver && |s.subscribers[id].channel| < c.maxBufferedChunks
    ensures Data(c, SendAccepted(s, id))
  {
    SentOk(c, s, id);
    UpdateData(c, s, id, SendAccepted(s, id));
  }

  /** The subscriber that was sent something, by purpose. */
  lemma SentOk(c: Config, s: Stream, id: nat)
    requires PurposeOk(c, s) && LagOk(c, s) && LogShape(s.log)
    requires s.reader.Sending? && s.cached == Some(id) && id < |s.subscribers|
    requires CachedUpToDate(s) && OwedIsLive(s) && FreshOk(c, s) && InHandOrder(s)
    requires SubscriberOk(c, s.log, s.subscribers[id])
    requires s.subscribers[id].receiver && |s.subscribers[id].channel| < c.maxBufferedChunks
    ensures SubscriberOk(c, s.log, SendAccepted(s, id).subscribers[id])
  {
    SentIs(c, s, id);
    if s.reader.purpose.TryGap? || s.reader.purpose.GapBefore? {
      DeliveredGapOk(c, s, id);
    } else {
      DeliveredEventOk(c, s, id);
    }
  }

  /** What the subscriber that was sent something looks like. */
  lemma SentIs(c: Config, s: Stream, id: nat)
    requires PurposeOk(c, s) && s.reader.Sending? && id < |s.subscribers|
    ensures var u, v := s.subscribers[id], SendAccepted(s, id).subscribers[id];
            if s.reader.purpose.TryGap? || s.reader.purpose.GapBefore? then
              Due(s) >= 0 && v == Deliver(u, IndexedEvent(|s.log|, Gap), Due(s))
            else v == Deliver(u, s.reader.purpose.event, s.reader.purpose.event.index + 1)
  {
  }

  lemma SendKeepsStream(c: Config, s: Stream)
    requires ValidConfig(c) && StreamInv(c, s) && CanDo(c, s, SendEvent)
    ensures StreamInv(c, Do(c, s, SendEvent))
  {
    SendControl(c, s);
    SendData(c, s);
    SendServes(c, s);
    SendMissesNothing(c, s);
  }

  lemma SendMissesNothing(c: Config, s: Stream)
    requires NothingMissing(s) && CanDo(c, s, SendEvent) && PurposeOk(c, s)
    ensures NothingMissing(Sent(c, s))
  {
  }

  // ------------------------------------------------------------------------- subscribers

  lemma SuffixInOrder(log: seq<StreamEvent>, events: seq<IndexedEvent>, k: nat)
    requires InOrder(log, events) && k <= |events|
    ensures InOrder(log, events[k..])
  {
  }

  /** What a new subscriber replays is recorded output in order, and with reliable delivery exactly
      the last chunks of the log. */
  lemma ReplayIsSuffix(c: Config, s: Stream)
    requires HistoryOk(c, s)
    ensures var replay, n := ReplaySnapshot(s.shared, c.retention), ChunkCount(s.log);
            && InOrder(s.log, replay)
            && (c.delivery.ReliableWithBackpressure? ==> IsSlice(s.log, replay, n - |replay|, n))
  {
    WindowIsSuffix(IndexedSize, c.retention, s.recorded);
    var w := Window(IndexedSize, c.retention, s.recorded);
    SuffixInOrder(s.log, s.recorded, |s.recorded| - |w|);
  }

  lemma FreshSubscriberOk(c: Config, s: Stream)
    requires HistoryOk(c, s) && s.shared.activeId.None?
    ensures Subscribed(c, s).subscribers
            == s.subscribers + [Attached(s.log, ReplaySnapshot(s.shared, c.retention), |s.recorded|)]
    ensures SubscriberOk(c, s.log, Attached(s.log, ReplaySnapshot(s.shared, c.retention), |s.recorded|))
  {
    FreshSubscriberIs(c, s);
    ReplayIsSuffix(c, s);
    AttachedOk(c, s.log, ReplaySnapshot(s.shared, c.retention), |s.recorded|);
  }

  lemma FreshSubscriberIs(c: Config, s: Stream)
    requires HistoryOk(c, s) && s.shared.activeId.None?
    ensures Subscribed(c, s).subscribers
         == s.subscribers + [Attached(s.log, ReplaySnapshot(s.shared, c.retention), |s.recorded|)]
  {
  }

  /** A subscriber as it attaches. */
  function Attached(log: seq<StreamEvent>, replay: seq<IndexedEvent>, recordedAt: nat): (u: Subscriber)
  {
    var late := HasEnded(log);
    Subscriber(Open, true, replay, if late then Some(IndexedEvent(|log| - 1, log[|log| - 1])) else None, [], [], [],
               replay, |log|, late, |log|, |log|, recordedAt)
  }

  lemma AttachedOk(c: Config, log: seq<StreamEvent>, replay: seq<IndexedEvent>, recordedAt: nat)
    requires InOrder(log, replay)
    requires c.delivery.ReliableWithBackpressure? ==>
               IsSlice(log, replay, ChunkCount(log) - |replay|, ChunkCount(log))
    ensures SubscriberOk(c, log, Attached(log, replay, recordedAt))
  {
    if HasEnded(log) {
      AttachedLate(c, log, replay, recordedAt);
    } else {
      AttachedRunning(c, log, replay, recordedAt);
    }
  }

  lemma AttachedLate(c: Config, log: seq<StreamEvent>, replay: seq<IndexedEvent>, recordedAt: nat)
    requires HasEnded(log) && InOrder(log, replay)
    requires c.delivery.ReliableWithBackpressure? ==>
               IsSlice(log, replay, ChunkCount(log) - |replay|, ChunkCount(log))
    ensures SubscriberOk(c, log, Attached(log, replay, recordedAt))
  {
    NothingReturned(Attached(log, replay, recordedAt));
  }

  lemma AttachedRunning(c: Config, log: seq<StreamEvent>, replay: seq<IndexedEvent>, recordedAt: nat)
    requires !HasEnded(log) && InOrder(log, replay)
    requires c.delivery.ReliableWithBackpressure? ==>
               IsSlice(log, replay, ChunkCount(log) - |replay|, ChunkCount(log))
    ensures SubscriberOk(c, log, Attached(log, replay, recordedAt))
  {
    var u := Attached(log, replay, recordedAt);
    NothingReturned(u);
    CoversNothing(log, LiveEvents(u), |log|);
  }

  lemma NothingReturned(u: Subscriber)
    requires |u.received| == |u.live| == 0 && u.replay == u.snapshot
    ensures Accounted(u)
  {
  }

  lemma SubscribeControl(c: Config, s: Stream)
    requires Control(c, s) && !s.dropped
    ensures Control(c, Subscribed(c, s))
  {
  }

  lemma SubscribeServes(c: Config, s: Stream)
    requires Control(c, s) && Serves(c, s)
    ensures Serves(c, Subscribed(c, s))
  {
    if s.shared.activeId.None? {
      var t := Subscribed(c, s);
      assert LiveEvents(t.subscribers[|s.subscribers|]) == [];
    }
  }

  lemma SubscribeKeeps(c: Config, s: Stream)
    requires ValidConfig(c) && StreamInv(c, s) && CanDo(c, s, TrySubscribe)
    ensures StreamInv(c, Do(c, s, TrySubscribe))
  {
    SubscribeControl(c, s);
    SubscribeServes(c, s);
    SubscribeData(c, s);
  }

  lemma SubscribeData(c: Config, s: Stream)
    requires Data(c, s)
    ensures Data(c, Subscribed(c, s))
  {
    if s.shared.activeId.None? {
      FreshSubscriberOk(c, s);
    }
  }

  /** Receiving changes what is unread, not what was delivered. */
  lemma TakenOk(c: Config, log: seq<StreamEvent>, u: Subscriber)
    requires SubscriberOk(c, log, u) && HasNext(u)
    ensures var v := Taken(u);
            && SubscriberOk(c, log, v)
            && LiveEvents(v) == LiveEvents(u)
  {
    var v := Taken(u);
    if u.replay != [] {
      assert u.replay == [u.replay[0]] + v.replay;
      Assoc(u.received, [u.replay[0]], v.replay);
    } else if u.terminal.Some? {
      assert u.received == u.received + u.replay;
      assert u.snapshot == u.snapshot + u.live;
    } else {
      TakeLive(u);
    }
  }

  lemma TakeLive(u: Subscriber)
    requires Accounted(u) && HasNext(u) && u.replay == [] && u.terminal.None?
    ensures Accounted(Taken(u)) && LiveEvents(Taken(u)) == LiveEvents(u)
  {
    var v := Taken(u);
    assert u.channel == [u.channel[0]] + v.channel;
    Assoc(u.live, [u.channel[0]], v.channel);
    assert u.received == u.received + u.replay && v.received == v.received + v.replay;
    Assoc(u.snapshot, u.live, [u.channel[0]]);
  }

  /** A change to one subscriber that concerns neither its deliveries nor, if it keeps its receiver,
      anything else the reader relies on. */
  predicate SameDeliveries(u: Subscriber, v: Subscriber)
  {
    && LiveEvents(v) == LiveEvents(u) && v.snapshot == u.snapshot && v.attachedAt == u.attachedAt
    && v.late == u.late && v.lo == u.lo && v.hi == u.hi && v.recordedAt == u.recordedAt && (v.receiver ==> u.receiver)
  }

  lemma UpdateServes(c: Config, s: Stream, id: nat, v: Subscriber)
    requires Serves(c, s) && id < |s.subscribers| && SameDeliveries(s.subscribers[id], v)
    ensures Serves(c, s.(subscribers := s.subscribers[id := v]))
  {
    UpdateTracks(s, id, v);
    UpdateOrders(c, s, id, v);
  }

  lemma UpdateTracks(s: Stream, id: nat, v: Subscriber)
    requires ActiveIsCached(s) && CachedUpToDate(s) && OwedIsLive(s) && TrackedLag(s)
    requires id < |s.subscribers| && SameDeliveries(s.subscribers[id], v)
    ensures var t := s.(subscribers := s.subscribers[id := v]);
            ActiveIsCached(t) && CachedUpToDate(t) && OwedIsLive(t) && TrackedLag(t)
  {
  }

  lemma UpdateOrders(c: Config, s: Stream, id: nat, v: Subscriber)
    requires InHandOrder(s) && FreshOk(c, s) && id < |s.subscribers| && SameDeliveries(s.subscribers[id], v)
    ensures var t := s.(subscribers := s.subscribers[id := v]); InHandOrder(t) && FreshOk(c, t)
  {
  }

  lemma UpdateControl(c: Config, s: Stream, id: nat, v: Subscriber)
    requires Control(c, s) && id < |s.subscribers| && (v.receiver ==> s.subscribers[id].receiver)
    ensures Control(c, s.(subscribers := s.subscribers[id := v]))
  {
  }

  lemma UpdateKeeps(c: Config, s: Stream, id: nat, v: Subscriber)
    requires StreamInv(c, s) && id < |s.subscribers|
    requires SubscriberOk(c, s.log, v) && SameDeliveries(s.subscribers[id], v)
    ensures StreamInv(c, s.(subscribers := s.subscribers[id := v]))
  {
    UpdateControl(c, s, id, v);
    UpdateServes(c, s, id, v);
  }

  lemma NextEventKeeps(c: Config, s: Stream, id: nat)
    requires ValidConfig(c) && StreamInv(c, s) && CanDo(c, s, NextEvent(id))
    ensures StreamInv(c, Do(c, s, NextEvent(id)))
  {
    TakenOk(c, s.log, s.subscribers[id]);
    UpdateKeeps(c, s, id, Taken(s.subscribers[id]));
  }

  lemma CloseReceiverKeeps(c: Config, s: Stream, id: nat)
    requires ValidConfig(c) && StreamInv(c, s) && CanDo(c, s, CloseReceiver(id))
    ensures StreamInv(c, Do(c, s, CloseReceiver(id)))
  {
    ClosedOk(c, s.log, s.subscribers[id], Dropping);
    UpdateKeeps(c, s, id, s.subscribers[id].(handle := Dropping, receiver := false));
  }

  lemma ClosedOk(c: Config, log: seq<StreamEvent>, u: Subscriber, handle: Handle)
    requires SubscriberOk(c, log, u)
    ensures SubscriberOk(c, log, u.(handle := handle, receiver := false))
  {
  }

  lemma ClearedServes(c: Config, s: Stream, id: nat)
    requires ClaimOk(s) && Serves(c, s)
    ensures Serves(c, s.(shared := ClearedIfCurrent(s.shared, id)))
  {
  }

  lemma GiveUpClaimKeeps(c: Config, s: Stream, id: nat)
    requires ValidConfig(c) && StreamInv(c, s) && CanDo(c, s, GiveUpClaim(id))
    ensures StreamInv(c, Do(c, s, GiveUpClaim(id)))
  {
    var u := s.subscribers[id].(handle := Dropped);
    var t := s.(subscribers := s.subscribers[id := u]);
    ClosedOk(c, s.log, s.subscribers[id], Dropped);
    UpdateKeeps(c, s, id, u);
    ClearedKeeps(c, t, id);
  }

  lemma ClearedKeeps(c: Config, s: Stream, id: nat)
    requires StreamInv(c, s) && id < |s.subscribers| && !s.subscribers[id].receiver
    ensures StreamInv(c, s.(shared := ClearedIfCurrent(s.shared, id)))
  {
    ClearedServes(c, s, id);
    ClearedControl(c, s, id);
    SameData(c, s, s.(shared := ClearedIfCurrent(s.shared, id)));
  }

  lemma ClearedControl(c: Config, s: Stream, id: nat)
    requires Control(c, s) && id < |s.subscribers| && !s.subscribers[id].receiver
    ensures Control(c, s.(shared := ClearedIfCurrent(s.shared, id)))
  {
  }

  // ------------------------------------------------------------------------- all runs

  lemma ActionKeepsInv(c: Config, s: Stream, a: Action)
    requires ValidConfig(c) && StreamInv(c, s) && CanDo(c, s, a)
    ensures StreamInv(c, Do(c, s, a))
  {
    match a
    case ReadBytes(bytes) => ReadBytesKeeps(c, s, bytes);
    case RefreshCache => RefreshCacheKeeps(c, s);
    case ObserveActive => ObserveActiveKeeps(c, s);
    case RecordChunk => RecordChunkKeeps(c, s);
    case RecordTerminal(event) => RecordTerminalKeeps(c, s, event);
    case SendEvent => SendKeepsStream(c, s);
    case ClearClaim => ClearClaimKeeps(c, s);
    case RefreshAfterFailure => RefreshedKeeps(c, s);
    case DiscardBuffer => DiscardKeeps(c, s);
    case Abort => AbortKeeps(c, s);
    case TrySubscribe => SubscribeKeeps(c, s);
    case NextEvent(id) => NextEventKeeps(c, s, id);
    case CloseReceiver(id) => CloseReceiverKeeps(c, s, id);
    case GiveUpClaim(id) => GiveUpClaimKeeps(c, s, id);
    case Seal => SealKeepsStream(c, s);
    case DropOwner => DropOwnerKeeps(c, s);
  }

  lemma {:induction false} HistoryKeepsInv(c: Config, run: seq<Stream>)
    requires ValidConfig(c) && IsHistory(c, run)
    ensures StreamInv(c, run[|run| - 1])
    decreases |run|
  {
    var n := |run| - 1;
    if n > 0 {
      HistoryKeepsInv(c, run[..n]);
      assert IsAction(c, run[n-1], run[n]);
      var a :| CanDo(c, run[n-1], a) && run[n] == Do(c, run[n-1], a);
      ActionKeepsInv(c, run[n-1], a);
    }
  }

  lemma CanReachInv(c: Config, s: Stream)
    requires ValidConfig(c) && CanReach(c, s)
    ensures StreamInv(c, s)
  {
    var run :| IsHistory(c, run) && run[|run| - 1] == s;
    HistoryKeepsInv(c, run);
  }
}
