/** Where the events of a single subscriber come from: what it replays is the last part of what was
    recorded before it attached, and nothing recorded afterwards precedes its live events. */
module SingleSources {
  import opened Events
  import opened Coverage
  import opened Replay
  import opened BroadcastShared
  import opened Fanout
  import opened SingleSubscriber
  import opened SingleInvariant

  /** One subscriber by itself. */
  predicate FromRecorded(recorded: seq<IndexedEvent>, u: Subscriber)
  {
    && |u.snapshot| <= u.recordedAt <= |recorded|
    && u.snapshot == recorded[u.recordedAt - |u.snapshot|..u.recordedAt]
    && (forall k :: 0 <= k < u.recordedAt ==> recorded[k].index < u.attachedAt)
    && (forall k :: u.recordedAt <= k < |recorded| ==> recorded[k].index >= FirstAfter(u))
    && (!u.late && LiveEvents(u) != [] ==> u.attachedAt <= u.lo || u.snapshot == [])
  }

  /** The earliest position at which a chunk was recorded after `u` attached. */
  function FirstAfter(u: Subscriber): nat
  {
    if !u.late && LiveEvents(u) != [] && u.attachedAt <= u.lo then u.lo else u.attachedAt
  }

  predicate AllFromRecorded(s: Stream)
  {
    forall id :: 0 <= id < |s.subscribers| ==> FromRecorded(s.recorded, s.subscribers[id])
  }

  /** At most the event that is being sent to it was recorded since `u` attached. */
  predicate Untouched(s: Stream, id: nat, u: Subscriber)
  {
    || |s.recorded| <= u.recordedAt
    || (&& |s.recorded| == u.recordedAt + 1 && s.recorded[u.recordedAt].index == |s.log| - 1
        && s.reader.Sending? && InHand(s.reader) && s.cached == Some(id))
  }

  /** The served subscriber without live events has missed nothing that was recorded. */
  predicate FreshRecorded(s: Stream)
  {
    !s.reader.Halted? ==>
      forall id :: 0 <= id < |s.subscribers| ==>
        var u := s.subscribers[id];
        u.receiver && !u.late && LiveEvents(u) == [] && IsServed(s, id) ==> Untouched(s, id, u)
  }

  predicate Sourced(s: Stream)
  {
    AllFromRecorded(s) && FreshRecorded(s)
  }

  // ------------------------------------------------------------------------- recording

  lemma RecordedLater(c: Config, log: seq<StreamEvent>, recorded: seq<IndexedEvent>, u: Subscriber, e: IndexedEvent)
    requires SubscriberOk(c, log, u) && FromRecorded(recorded, u) && e.index == |log|
    ensures FromRecorded(recorded + [e], u)
  {
    if !u.late {
      CoversBounds(log, LiveEvents(u), u.lo, u.hi);
    }
    var k := u.recordedAt;
    assert (recorded + [e])[k - |u.snapshot|..k] == recorded[k - |u.snapshot|..k];
  }

  lemma RecordSourced(c: Config, s: Stream, event: StreamEvent)
    requires Control(c, s) && Data(c, s) && Sourced(s) && CanRecord(c, s, event)
    ensures Sourced(AfterRecord(c, s, event))
  {
    if event.Chunk? {
      forall id | 0 <= id < |s.subscribers|
        ensures FromRecorded(s.recorded + [IndexedEvent(|s.log|, event)], s.subscribers[id])
      {
        RecordedLater(c, s.log, s.recorded, s.subscribers[id], IndexedEvent(|s.log|, event));
      }
    }
    RecordFresh(c, s, event);
  }

  lemma RecordFresh(c: Config, s: Stream, event: StreamEvent)
    requires Control(c, s) && FreshRecorded(s) && AllFromRecorded(s) && CanRecord(c, s, event)
    ensures FreshRecorded(AfterRecord(c, s, event))
  {
    var t := AfterRecord(c, s, event);
    forall id | 0 <= id < |t.subscribers| && IsServed(t, id)
      ensures var u := t.subscribers[id]; u.receiver && !u.late && LiveEvents(u) == [] ==> Untouched(t, id, u)
    {
      assert IsServed(s, id);
      assert FromRecorded(s.recorded, s.subscribers[id]);
    }
  }

  // ------------------------------------------------------------------------- sending

  /** The first live event is the first one recorded since the subscriber attached, or one that was
      not recorded for it to replay. */
  lemma DeliverFirst(c: Config, s: Stream, id: nat, e: IndexedEvent)
    requires PurposeOk(c, s) && InHandOrder(s) && s.reader.Sending? && s.cached == Some(id) && id < |s.subscribers|
    requires s.reader.purpose.Reliably? || s.reader.purpose.TryChunk?
    requires e == s.reader.purpose.event && s.subscribers[id].receiver
    requires FromRecorded(s.recorded, s.subscribers[id]) && FreshRecorded(s)
    requires LiveEvents(s.subscribers[id]) == []
    ensures FromRecorded(s.recorded, Deliver(s.subscribers[id], e, e.index + 1))
  {
    var u := s.subscribers[id];
    var v := Deliver(u, e, e.index + 1);
    assert LiveEvents(v) == LiveEvents(u) + [e];
    if !u.late {
      assert IsServed(s, id) && Untouched(s, id, u);
    }
  }

  lemma DeliverMore(recorded: seq<IndexedEvent>, u: Subscriber, e: IndexedEvent, upTo: nat)
    requires FromRecorded(recorded, u) && (LiveEvents(u) != [] || u.late)
    ensures FromRecorded(recorded, Deliver(u, e, upTo))
  {
    assert LiveEvents(Deliver(u, e, upTo)) == LiveEvents(u) + [e];
  }

  /** What the cached subscriber is sent, by purpose. */
  lemma DeliverSourced(c: Config, s: Stream, id: nat)
    requires PurposeOk(c, s) && LagOk(c, s) && OwedIsLive(s) && InHandOrder(s) && Sourced(s)
    requires s.reader.Sending? && s.cached == Some(id) && id < |s.subscribers| && s.subscribers[id].receiver
    ensures FromRecorded(s.recorded, SendAccepted(s, id).subscribers[id])
  {
    var u := s.subscribers[id];
    assert FromRecorded(s.recorded, u);
    match s.reader.purpose
    case TryGap => DeliverMore(s.recorded, u, IndexedEvent(|s.log|, Gap), |s.log|);
    case GapBefore(event) => DeliverMore(s.recorded, u, IndexedEvent(|s.log|, Gap), event.index);
    case Reliably(e, _, _) => DeliverEvent(c, s, id, e);
    case TryChunk(e, _, _) => DeliverEvent(c, s, id, e);
  }

  lemma DeliverEvent(c: Config, s: Stream, id: nat, e: IndexedEvent)
    requires PurposeOk(c, s) && InHandOrder(s) && s.reader.Sending? && s.cached == Some(id) && id < |s.subscribers|
    requires s.reader.purpose.Reliably? || s.reader.purpose.TryChunk?
    requires e == s.reader.purpose.event && s.subscribers[id].receiver
    requires FromRecorded(s.recorded, s.subscribers[id]) && FreshRecorded(s)
    ensures FromRecorded(s.recorded, Deliver(s.subscribers[id], e, e.index + 1))
  {
    if LiveEvents(s.subscribers[id]) == [] {
      DeliverFirst(c, s, id, e);
    } else {
      DeliverMore(s.recorded, s.subscribers[id], e, e.index + 1);
    }
  }

  lemma SendFromRecorded(c: Config, s: Stream)
    requires PurposeOk(c, s) && LagOk(c, s) && OwedIsLive(s) && InHandOrder(s) && Sourced(s) && CanDo(c, s, SendEvent)
    ensures AllFromRecorded(Sent(c, s))
  {
    if s.cached.Some? && s.subscribers[s.cached.value].receiver {
      DeliverSourced(c, s, s.cached.value);
    }
  }

  /** Once the event in hand is dealt with, the subscriber it was sent to has live events or a closed
      receiver. */
  lemma SendFresh(c: Config, s: Stream)
    requires StreamInv(c, s) && Sourced(s) && ValidConfig(c) && CanDo(c, s, SendEvent)
    ensures FreshRecorded(Sent(c, s))
  {
    var t := Sent(c, s);
    if s.cached.Some? {
      var id := s.cached.value;
      assert s.subscribers[id].receiver ==> LiveEvents(t.subscribers[id]) != [];
    }
    forall id | 0 <= id < |t.subscribers| && IsServed(t, id)
      ensures var u := t.subscribers[id];
              u.receiver && !u.late && LiveEvents(u) == [] && !t.reader.Halted? ==> Untouched(t, id, u)
    {
      if s.cached != Some(id) && t.subscribers[id].receiver {
        assert t.subscribers[id] == s.subscribers[id] && IsServed(s, id);
      }
    }
  }

  // ------------------------------------------------------------------------- subscribers

  lemma SubscribeSourced(c: Config, s: Stream)
    requires Data(c, s) && ClaimOk(s) && Sourced(s)
    ensures Sourced(Subscribed(c, s))
  {
    if s.shared.activeId.None? {
      FreshSubscriberOk(c, s);
      AttachedSourced(c, s);
      AddSourced(s, Subscribed(c, s), Attached(s.log, ReplaySnapshot(s.shared, c.retention), |s.recorded|));
    }
  }

  lemma AddSourced(s: Stream, t: Stream, u: Subscriber)
    requires Sourced(s) && t.subscribers == s.subscribers + [u] && FromRecorded(s.recorded, u)
    requires t.recorded == s.recorded && t.reader == s.reader && t.cached == s.cached && t.log == s.log
    requires u.recordedAt == |s.recorded| && t.shared.watch == Some(|s.subscribers|)
    ensures Sourced(t)
  {
    forall id | 0 <= id < |s.subscribers| ensures t.subscribers[id] == s.subscribers[id] {
    }
    assert t.subscribers[|s.subscribers|] == u;
  }

  lemma AttachedSourced(c: Config, s: Stream)
    requires HistoryOk(c, s)
    ensures FromRecorded(s.recorded, Attached(s.log, ReplaySnapshot(s.shared, c.retention), |s.recorded|))
  {
    var replay, n := ReplaySnapshot(s.shared, c.retention), |s.recorded|;
    WindowIsSuffix(IndexedSize, c.retention, s.recorded);
    assert s.recorded[n - |replay|..n] == s.recorded[n - |replay|..];
    assert forall k :: 0 <= k < n ==> Genuine(s.log, s.recorded[k]);
    assert LiveEvents(Attached(s.log, replay, n)) == [];
  }

  lemma UpdateSourced(s: Stream, id: nat, v: Subscriber)
    requires Sourced(s) && id < |s.subscribers| && SameDeliveries(s.subscribers[id], v)
    ensures Sourced(s.(subscribers := s.subscribers[id := v]))
  {
    assert FromRecorded(s.recorded, s.subscribers[id]);
    assert FromRecorded(s.recorded, v);
  }

  // ------------------------------------------------------------------------- bookkeeping

  /** Nothing is served that was not, and the reader is not in the middle of sending. */
  lemma SameSources(s: Stream, t: Stream)
    requires Sourced(s) && t.recorded == s.recorded && t.subscribers == s.subscribers
    requires t.reader.Halted? ||
             (&& !s.reader.Halted?
              && (s.reader.Sending? ==> t.reader == s.reader && t.cached == s.cached && t.log == s.log)
              && forall id :: 0 <= id < |s.subscribers| && LiveEvents(s.subscribers[id]) == [] && IsServed(t, id) ==>
                   IsServed(s, id))
    ensures Sourced(t)
  {
  }

  lemma BookkeepingSourced(c: Config, s: Stream, a: Action)
    requires ValidConfig(c) && StreamInv(c, s) && Sourced(s) && CanDo(c, s, a)
    requires || a.ReadBytes? || a.RefreshCache? || a.ObserveActive? || a.ClearClaim? || a.RefreshAfterFailure?
             || a.DiscardBuffer? || a.Abort? || a.Seal? || a.DropOwner?
    ensures Sourced(Do(c, s, a))
  {
    if s.reader.Halted? {
      assert Do(c, s, a).reader.Halted?;
    }
    SameSources(s, Do(c, s, a));
  }

  lemma RecordChunkSourced(c: Config, s: Stream)
    requires ValidConfig(c) && StreamInv(c, s) && Sourced(s) && CanDo(c, s, RecordChunk)
    ensures Sourced(Do(c, s, RecordChunk))
  {
    var n := Min(c.readChunkSize, |s.buffer|);
    var t := s.(buffer := s.buffer[n..]);
    SameReader(c, s, t.buffer, s.ingested);
    SameData(c, s, t);
    SameSources(s, t);
    RecordSourced(c, t, Chunk(s.buffer[..n]));
  }

  lemma GiveUpClaimSourced(c: Config, s: Stream, id: nat)
    requires ValidConfig(c) && Sourced(s) && CanDo(c, s, GiveUpClaim(id))
    ensures Sourced(Do(c, s, GiveUpClaim(id)))
  {
    var u := s.subscribers[id].(handle := Dropped);
    UpdateSourced(s, id, u);
    SameSources(s.(subscribers := s.subscribers[id := u]), Do(c, s, GiveUpClaim(id)));
  }

  // ------------------------------------------------------------------------- all runs

  lemma ActionKeepsSources(c: Config, s: Stream, a: Action)
    requires ValidConfig(c) && StreamInv(c, s) && Sourced(s) && CanDo(c, s, a)
    ensures Sourced(Do(c, s, a))
  {
    match a
    case RecordChunk => RecordChunkSourced(c, s);
    case RecordTerminal(event) => RecordSourced(c, s, event);
    case SendEvent =>
      SendFromRecorded(c, s);
      SendFresh(c, s);
    case TrySubscribe => SubscribeSourced(c, s);
    case NextEvent(id) =>
      TakenOk(c, s.log, s.subscribers[id]);
      UpdateSourced(s, id, Taken(s.subscribers[id]));
    case CloseReceiver(id) => UpdateSourced(s, id, s.subscribers[id].(handle := Dropping, receiver := false));
    case GiveUpClaim(id) => GiveUpClaimSourced(c, s, id);
    case _ => BookkeepingSourced(c, s, a);
  }

  lemma {:induction false} HistoryKeepsSources(c: Config, run: seq<Stream>)
    requires ValidConfig(c) && IsHistory(c, run)
    ensures Sourced(run[|run| - 1])
    decreases |run|
  {
    var n := |run| - 1;
    if n > 0 {
      HistoryKeepsSources(c, run[..n]);
      HistoryKeepsInv(c, run[..n]);
      assert IsAction(c, run[n-1], run[n]);
      var a :| CanDo(c, run[n-1], a) && run[n] == Do(c, run[n-1], a);
      ActionKeepsSources(c, run[n-1], a);
    }
  }

  lemma CanReachSourced(c: Config, s: Stream)
    requires ValidConfig(c) && CanReach(c, s)
    ensures Sourced(s)
  {
    var run :| IsHistory(c, run) && run[|run| - 1] == s;
    HistoryKeepsSources(c, run);
  }
}
