/** Who the single-subscriber backend serves: the active subscriber gets every event, by replay or live,
    and output is given up only when its channel is full. */
module SingleService {
  import opened Events
  import opened Coverage
  import opened Replay
  import opened BroadcastShared
  import opened Fanout
  import opened FanoutInvariant
  import opened SingleSubscriber
  import opened SingleInvariant
  import opened SingleTheorems

  /** The reader holds a chunk that was recorded, so that later subscribers replay it. */
  predicate HoldsRecorded(r: ReaderState)
  {
    && InHand(r) && PurposeOf(r).value.event.event.Chunk?
    && match PurposeOf(r).value
       case Reliably(_, recorded, _) => recorded
       case TryChunk(_, recorded, _) => recorded
       case _ => false
  }

  /** Nobody was active when the event in hand was recorded, or nobody after a failed send: whoever is
      active now attached afterwards. */
  predicate NobodyYet(s: Stream)
  {
    InHand(s.reader) && s.cached.None? && s.shared.watch.Some? && s.shared.watch.value < |s.subscribers| ==>
      s.subscribers[s.shared.watch.value].attachedAt == |s.log|
  }

  /** A recorded chunk in hand is in the history, unless replay was sealed since. */
  predicate RecordedStays(c: Config, s: Stream)
  {
    HoldsRecorded(s.reader) ==>
      s.shared.replaySealed || PurposeOf(s.reader).value.event in ReplaySnapshot(s.shared, c.retention)
  }

  predicate Replays(s: Stream, u: Subscriber)
    requires InHand(s.reader)
  {
    s.shared.replaySealed || u.late || PurposeOf(s.reader).value.event in u.snapshot
  }

  /** Whoever attached since has it to replay, unless replay was sealed before. */
  predicate NewcomersReplay(s: Stream)
  {
    HoldsRecorded(s.reader) ==>
      forall id :: 0 <= id < |s.subscribers| && s.subscribers[id].attachedAt == |s.log| ==>
        Replays(s, s.subscribers[id])
  }

  predicate Pledged(c: Config, s: Stream)
  {
    NobodyYet(s) && RecordedStays(c, s) && NewcomersReplay(s)
  }

  // ------------------------------------------------------------------------- steps

  /** A chunk that was recorded is the newest one of the history. */
  lemma RecordedIsNewest(r: SharedState, e: IndexedEvent, retention: Option<ReplayRetention>)
    requires e.event.Chunk? && IsRecorded(r, e, retention)
    ensures e in ReplaySnapshot(RecordedIn(r, e, retention), retention)
  {
    var items := r.events + [e];
    WindowIsSuffix(IndexedSize, retention, items);
    var w := Window(IndexedSize, retention, items);
    assert w[|w| - 1] == items[|items| - 1] == e;
  }

  lemma RecordPledged(c: Config, s: Stream, event: StreamEvent)
    requires Data(c, s) && (event.Chunk? || event.IsTerminal())
    ensures Pledged(c, AfterRecord(c, s, event))
  {
    var e := IndexedEvent(|s.log|, event);
    if event.Chunk? && IsRecorded(s.shared, e, c.retention) {
      RecordedIsNewest(s.shared, e, c.retention);
    }
    assert forall id :: 0 <= id < |s.subscribers| ==> SubscriberOk(c, s.log, s.subscribers[id]);
  }

  /** A step that leaves the event in hand, the log and the history, and attaches nobody. */
  lemma SamePledge(c: Config, s: Stream, t: Stream)
    requires Pledged(c, s) && t.log == s.log && |t.subscribers| == |s.subscribers|
    requires forall id :: 0 <= id < |s.subscribers| ==> SamePast(s.subscribers[id], t.subscribers[id])
    requires t.shared.replaySealed || t.shared.events == s.shared.events
    requires s.shared.replaySealed ==> t.shared.replaySealed
    requires InHand(t.reader) ==> InHand(s.reader) && PurposeOf(t.reader).value.event == PurposeOf(s.reader).value.event
    requires HoldsRecorded(t.reader) ==> HoldsRecorded(s.reader)
    requires InHand(t.reader) && t.cached.None? && t.shared.watch.Some? ==>
               s.cached.None? && s.shared.watch == t.shared.watch
    ensures Pledged(c, t)
  {
  }

  predicate SamePast(u: Subscriber, v: Subscriber)
  {
    v.attachedAt == u.attachedAt && v.snapshot == u.snapshot && v.late == u.late
  }

  lemma SubscribePledged(c: Config, s: Stream)
    requires Pledged(c, s) && ClaimOk(s)
    ensures Pledged(c, Subscribed(c, s))
  {
    if s.shared.activeId.None? {
      var t := Subscribed(c, s);
      assert forall id :: 0 <= id < |s.subscribers| ==> t.subscribers[id] == s.subscribers[id];
    }
  }

  lemma SendPledged(c: Config, s: Stream)
    requires Pledged(c, s) && PurposeOk(c, s) && CanDo(c, s, SendEvent)
    ensures Pledged(c, Sent(c, s))
  {
    SamePledge(c, s, Sent(c, s));
  }

  lemma RefreshPledged(c: Config, s: Stream)
    requires Pledged(c, s) && PurposeOk(c, s) && s.reader.Cleared?
    ensures Pledged(c, Refreshed(s))
  {
    SamePledge(c, s, Refreshed(s));
  }

  lemma ActionKeepsPledge(c: Config, s: Stream, a: Action)
    requires ValidConfig(c) && StreamInv(c, s) && Pledged(c, s) && CanDo(c, s, a)
    ensures Pledged(c, Do(c, s, a))
  {
    match a
    case RecordChunk =>
      var n := Min(c.readChunkSize, |s.buffer|);
      SameData(c, s, s.(buffer := s.buffer[n..]));
      RecordPledged(c, s.(buffer := s.buffer[n..]), Chunk(s.buffer[..n]));
    case RecordTerminal(event) => RecordPledged(c, s, event);
    case SendEvent => SendPledged(c, s);
    case RefreshAfterFailure => RefreshPledged(c, s);
    case TrySubscribe => SubscribePledged(c, s);
    case _ => OtherKeepsPledge(c, s, a);
  }

  lemma OtherKeepsPledge(c: Config, s: Stream, a: Action)
    requires ValidConfig(c) && Pledged(c, s) && CanDo(c, s, a)
    requires !a.RecordChunk? && !a.RecordTerminal? && !a.SendEvent? && !a.RefreshAfterFailure? && !a.TrySubscribe?
    ensures Pledged(c, Do(c, s, a))
  {
    var t := Do(c, s, a);
    if a.DiscardBuffer? {
      assert !InHand(t.reader);
    } else {
      SamePledge(c, s, t);
    }
  }

  lemma {:induction false} HistoryKeepsPledge(c: Config, run: seq<Stream>)
    requires ValidConfig(c) && IsHistory(c, run)
    ensures Pledged(c, run[|run| - 1])
    decreases |run|
  {
    var n := |run| - 1;
    if n > 0 {
      HistoryKeepsPledge(c, run[..n]);
      HistoryKeepsInv(c, run[..n]);
      assert IsAction(c, run[n-1], run[n]);
      var a :| CanDo(c, run[n-1], a) && run[n] == Do(c, run[n-1], a);
      ActionKeepsPledge(c, run[n-1], a);
    }
  }

  lemma CanReachPledged(c: Config, s: Stream)
    requires ValidConfig(c) && CanReach(c, s)
    ensures Pledged(c, s)
  {
    var run :| IsHistory(c, run) && run[|run| - 1] == s;
    HistoryKeepsPledge(c, run);
  }

  // ------------------------------------------------------------------------- every event is dealt with

  /** The subscriber will be sent a gap before anything else. */
  predicate IsOwed(s: Stream, id: SubscriberId)
  {
    s.lag == Lag(Some(id), true)
  }

  /** What became of the event that was in hand, for the active subscriber. One that was there before
      the event has it live, or is owed a gap. One that attached since has it to replay if it was
      recorded, unless replay was sealed; and if it was not recorded, has it live or is owed a gap,
      unless nobody was there to send it to or the one retry was used up. */
  predicate IsDealtWith(s: Stream, t: Stream, id: SubscriberId)
    requires InHand(s.reader) && id < |t.subscribers|
  {
    var u, e := t.subscribers[id], PurposeOf(s.reader).value.event;
    var served := e in LiveEvents(u) || IsOwed(t, id);
    if u.attachedAt < |s.log| then served
    else if HoldsRecorded(s.reader) then e in u.snapshot || t.shared.replaySealed
    else IsUnrecorded(s.reader) && (served || Retried(s.reader) || s.cached.None?)
  }

  lemma SendDealsWith(c: Config, s: Stream, id: SubscriberId)
    requires ValidConfig(c) && ClaimOk(s) && PurposeOk(c, s) && Exclusive(s) && TrackedLag(s) && Pledged(c, s)
    requires CanDo(c, s, SendEvent) && InHand(s.reader) && !InHand(Sent(c, s).reader)
    requires id < |s.subscribers| && s.shared.watch == Some(id) && AttachedInTime(s, s.subscribers[id])
    ensures IsDealtWith(s, Sent(c, s), id)
  {
    if s.cached.Some? {
      SendDealsWithCached(c, s, s.cached.value);
      SentPast(c, s, id);
    } else {
      assert NobodyYet(s);
    }
  }

  lemma SentPast(c: Config, s: Stream, id: SubscriberId)
    requires CanDo(c, s, SendEvent) && id < |s.subscribers|
    ensures Sent(c, s).shared == s.shared && SamePast(s.subscribers[id], Sent(c, s).subscribers[id])
  {
  }

  /** Not late, not after the event in hand was recorded and ended the stream, and if it attached since,
      with the event in hand to replay if that was recorded. */
  predicate AttachedInTime(s: Stream, u: Subscriber)
    requires InHand(s.reader)
  {
    && !u.late && u.attachedAt <= |s.log|
    && (u.attachedAt == |s.log| ==> HoldsRecorded(s.reader) || IsUnrecorded(s.reader))
    && (u.attachedAt == |s.log| && HoldsRecorded(s.reader) ==> Replays(s, u))
  }

  lemma AttachedWhen(c: Config, s: Stream, id: SubscriberId)
    requires Data(c, s) && PurposeOk(c, s) && Pledged(c, s) && InHand(s.reader)
    requires id < |s.subscribers| && !s.subscribers[id].late
    ensures AttachedInTime(s, s.subscribers[id])
  {
    assert SubscriberOk(c, s.log, s.subscribers[id]);
  }

  lemma SendDealsWithCached(c: Config, s: Stream, k: SubscriberId)
    requires ClaimOk(s) && PurposeOk(c, s) && Exclusive(s) && TrackedLag(s) && CanDo(c, s, SendEvent) && ValidConfig(c)
    requires InHand(s.reader) && !InHand(Sent(c, s).reader) && s.cached == Some(k)
    ensures s.shared.watch.Some? ==>
              && s.shared.watch == Some(k)
              && (PurposeOf(s.reader).value.event in LiveEvents(Sent(c, s).subscribers[k]) || IsOwed(Sent(c, s), k))
  {
    var u := s.subscribers[k];
    assert u.receiver;
    var e := s.reader.purpose.event;
    if |u.channel| < c.maxBufferedChunks {
      var v := Sent(c, s).subscribers[k];
      assert v.channel[|v.channel| - 1] == e;
      assert LiveEvents(v)[|LiveEvents(v)| - 1] == e;
    } else {
      assert LiveEvents(u) != [];
    }
  }

  lemma RefreshDealsWith(c: Config, s: Stream, id: SubscriberId)
    requires s.reader.Cleared? && InHand(s.reader) && !InHand(Refreshed(s).reader)
    requires id < |s.subscribers| && s.subscribers[id].attachedAt == |s.log| && AttachedInTime(s, s.subscribers[id])
    ensures IsDealtWith(s, Refreshed(s), id)
  {
  }

  /** Replay or live, never neither: whenever the reader is done with an event, it has been dealt with
      for the subscriber that is active then, if that one is open. A reader is done with an event by
      sending it, or by giving up after a failed send; only aborting the reader abandons one. */
  lemma EventIsNotForgotten(c: Config, s: Stream, a: Action, id: SubscriberId)
    requires ValidConfig(c) && CanReach(c, s) && CanDo(c, s, a) && !a.Abort?
    requires InHand(s.reader) && !InHand(Do(c, s, a).reader)
    requires var t := Do(c, s, a);
             id < |t.subscribers| && t.shared.watch == Some(id) && t.subscribers[id].receiver && !t.subscribers[id].late
    ensures IsDealtWith(s, Do(c, s, a), id)
  {
    CanReachInv(c, s);
    CanReachPledged(c, s);
    DoneBySending(c, s, a);
    AttachedWhen(c, s, id);
    if a.SendEvent? {
      SendDealsWith(c, s, id);
    } else {
      RefreshedToNewcomer(c, s);
      RefreshDealsWith(c, s, id);
    }
  }

  lemma DoneBySending(c: Config, s: Stream, a: Action)
    requires ValidConfig(c) && CanDo(c, s, a) && !a.Abort? && InHand(s.reader) && !InHand(Do(c, s, a).reader)
    ensures a.SendEvent? || a.RefreshAfterFailure?
    ensures Do(c, s, a).shared == s.shared && |Do(c, s, a).subscribers| == |s.subscribers|
    ensures forall id :: 0 <= id < |s.subscribers| ==> SamePast(s.subscribers[id], Do(c, s, a).subscribers[id])
  {
  }

  // ------------------------------------------------------------------------- loss only when full

  /** Output is given up only when the channel of the cached subscriber is full: a gap becomes pending
      only because a chunk found it so, and the buffer is discarded only because even the gap did. */
  lemma OnlyFullGivesUp(c: Config, s: Stream, a: Action)
    requires ValidConfig(c) && CanReach(c, s) && CanDo(c, s, a)
    ensures var t := Do(c, s, a);
            (t.lag.gapPending && !s.lag.gapPending) || (t.reader.Discarding? && !s.reader.Discarding?) ==>
              && a.SendEvent? && s.cached.Some? && s.cached.value < |s.subscribers|
              && var u := s.subscribers[s.cached.value];
                 u.receiver && |u.channel| == c.maxBufferedChunks && t.lag == Lag(s.cached, true)
    ensures a.DiscardBuffer? ==> s.lag.gapPending
  {
    CanReachLag(c, s);
    if a.SendEvent? && s.cached.Some? {
      CanReachSubscriber(c, s, s.cached.value);
      FullIsTracked(c, s);
    }
  }

  lemma FullIsTracked(c: Config, s: Stream)
    requires ValidConfig(c) && PurposeOk(c, s) && LagOk(c, s) && TrackedLag(s)
    requires CanDo(c, s, SendEvent) && s.cached.Some?
    ensures var t, u := Sent(c, s), s.subscribers[s.cached.value];
            (t.lag.gapPending && !s.lag.gapPending) || (t.reader.Discarding? && !s.reader.Discarding?) ==>
              u.receiver && |u.channel| >= c.maxBufferedChunks && t.lag == Lag(s.cached, true)
  {
    var u := s.subscribers[s.cached.value];
    if |u.channel| >= c.maxBufferedChunks {
      assert LiveEvents(u) != [];
    }
  }

  // ------------------------------------------------------------------------- subscribing

  /** Subscribing is refused exactly while the claim is held. Otherwise the new subscriber gets the claim,
      an open empty channel, what the retention keeps of everything recorded, unless replay is sealed,
      and the terminal event if the stream has ended. */
  lemma SubscribeReplaysRecorded(c: Config, s: Stream)
    requires ValidConfig(c) && CanReach(c, s) && CanDo(c, s, TrySubscribe)
    ensures var t, n := Do(c, s, TrySubscribe), |s.subscribers|;
            if s.shared.activeId.Some? then t == s
            else
              && |t.subscribers| == n + 1 && t.subscribers[..n] == s.subscribers
              && t.shared.activeId == t.shared.watch == Some(n)
              && var u := t.subscribers[n];
                 && u.handle.Open? && u.receiver && u.channel == u.received == []
                 && (if s.shared.replaySealed then u.replay == []
                     else IsRetained(IndexedSize, c.retention, s.recorded, u.replay))
                 && u.terminal == (if HasEnded(s.log) then Some(Labelled(s.log)[|s.log| - 1]) else None)
    ensures c.delivery.ReliableWithBackpressure? ==> s.recorded == Labelled(s.log)[..ChunkCount(s.log)]
  {
    CanReachHistory(c, s);
    WindowKeeps(IndexedSize, c.retention, s.recorded);
  }

  lemma CanReachHistory(c: Config, s: Stream)
    requires ValidConfig(c) && CanReach(c, s)
    ensures HistoryOk(c, s) && ClaimOk(s)
  {
    CanReachInv(c, s);
  }

  /** Once sealed, replay stays sealed and empty. */
  lemma SealIsForGood(c: Config, s: Stream, a: Action)
    requires ValidConfig(c) && CanReach(c, s) && CanDo(c, s, a)
    ensures a.Seal? || s.shared.replaySealed ==> Do(c, s, a).shared.replaySealed && Do(c, s, a).shared.events == []
  {
    CanReachHistory(c, s);
    if a.SendEvent? {
      SendingKeepsClaim(c, s);
    } else {
      SealStays(c, s, a);
    }
  }

  lemma SealStays(c: Config, s: Stream, a: Action)
    requires ValidConfig(c) && CanDo(c, s, a) && !a.SendEvent?
    requires s.shared.replaySealed ==> s.shared.events == []
    ensures a.Seal? || s.shared.replaySealed ==> Do(c, s, a).shared.replaySealed && Do(c, s, a).shared.events == []
  {
  }
}
