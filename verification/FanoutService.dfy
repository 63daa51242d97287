/** Who the broadcast backend serves: an open subscription stays registered until the stream ends, gets
    every event, and loses events only when its queue is full. */
module FanoutService {
  import opened Events
  import opened Coverage
  import opened WideGaps
  import opened BroadcastShared
  import opened Fanout
  import opened FanoutInvariant

  /** A subscription that attached before the end of the stream and still wants events. */
  predicate IsLive(u: Subscription)
  {
    u.handle.Open? && !u.detached && u.id.Some?
  }

  predicate IsRegistered(shared: Shared, id: SubscriberId, h: Sender)
  {
    id in shared.subscribers && shared.subscribers[id] == h
  }

  /** As long as the stream goes on, every live subscription is registered. */
  ghost predicate Kept(s: System)
  {
    !s.shared.closed && !HasEnded(s.log) ==>
      forall h :: 0 <= h < |s.subscriptions| && IsLive(s.subscriptions[h]) ==>
        IsRegistered(s.shared, s.subscriptions[h].id.value, h)
  }

  ghost predicate Distinct(s: System)
  {
    forall g, h :: 0 <= g < h < |s.subscriptions| && s.subscriptions[g].id.Some? && s.subscriptions[h].id.Some? ==>
      s.subscriptions[g].id != s.subscriptions[h].id
  }

  /** A queue is closed only by dropping the stream or by the terminal event. */
  ghost predicate QueuesOk(s: System)
  {
    forall h :: 0 <= h < |s.subscriptions| && s.subscriptions[h].queue.closed ==>
      s.shared.closed || (HasEnded(s.log) && s.subscriptions[h].upTo == |s.log|)
  }

  /** Whoever refused the event in hand is not open, unless the stream is over. */
  ghost predicate StaleOk(s: System)
  {
    s.reader.Delivering? ==>
      && (forall id :: id in s.reader.stale ==> id < s.shared.nextSubscriberId)
      && (forall h :: 0 <= h < |s.subscriptions| && s.subscriptions[h].id.Some?
                      && s.subscriptions[h].id.value in s.reader.stale ==>
            !s.subscriptions[h].handle.Open? || s.shared.closed || HasEnded(s.log))
  }

  predicate IsPending(s: System, h: nat)
    requires h < |s.subscriptions| && s.subscriptions[h].id.Some?
  {
    s.reader.Delivering? && (s.subscriptions[h].id.value, h) in s.reader.pending
  }

  /** A live subscription has everything, or the event in hand is still to be sent to it. */
  ghost predicate Caught(s: System)
  {
    !s.reader.Stopped? && !s.shared.closed ==>
      forall h :: 0 <= h < |s.subscriptions| && IsLive(s.subscriptions[h]) ==>
        s.subscriptions[h].upTo == |s.log| || IsPending(s, h)
  }

  /** Gaps stand for at least a full queue. */
  ghost predicate LossesAreLarge(c: Config, s: System)
  {
    c.delivery.LossyWithoutBackpressure? ==>
      forall h :: 0 <= h < |s.subscriptions| ==>
        var u := s.subscriptions[h]; CoversWidely(s.log, AllOf(u), u.from, u.upTo, c.maxBufferedChunks)
  }

  ghost predicate Registry(s: System)
  {
    Kept(s) && Distinct(s) && QueuesOk(s) && StaleOk(s)
  }

  ghost predicate Service(c: Config, s: System)
  {
    Registry(s) && Caught(s) && LossesAreLarge(c, s)
  }

  // ------------------------------------------------------------------------- appending

  lemma AppendRegistry(c: Config, s: System, event: StreamEvent, order: seq<(SubscriberId, Sender)>)
    requires Registry(s) && ReaderMatches(s) && s.reader.Reading?
    ensures Registry(Append(c, s, event, order))
  {
  }

  lemma AppendCaught(c: Config, s: System, event: StreamEvent, order: seq<(SubscriberId, Sender)>)
    requires Kept(s) && Caught(s) && ReaderMatches(s) && s.reader.Reading? && Enumerates(order, s.shared.subscribers)
    ensures Caught(Append(c, s, event, order))
  {
    var t := Append(c, s, event, order);
    if !s.shared.closed {
      forall h | 0 <= h < |t.subscriptions| && IsLive(t.subscriptions[h]) ensures IsPending(t, h) {
        assert IsRegistered(s.shared, s.subscriptions[h].id.value, h);
      }
    }
  }

  lemma AppendLosses(c: Config, s: System, event: StreamEvent, order: seq<(SubscriberId, Sender)>)
    requires LossesAreLarge(c, s)
    ensures LossesAreLarge(c, Append(c, s, event, order))
  {
    if c.delivery.LossyWithoutBackpressure? && !s.shared.closed {
      forall h | 0 <= h < |s.subscriptions|
        ensures var u := s.subscriptions[h];
                CoversWidely(s.log + [event], AllOf(u), u.from, u.upTo, c.maxBufferedChunks)
      {
        var u := s.subscriptions[h];
        WideGrow(s.log, [event], AllOf(u), u.from, u.upTo, c.maxBufferedChunks);
      }
    }
  }

  lemma AppendService(c: Config, s: System, event: StreamEvent, order: seq<(SubscriberId, Sender)>)
    requires Service(c, s) && ReaderMatches(s) && s.reader.Reading? && Enumerates(order, s.shared.subscribers)
    ensures Service(c, Append(c, s, event, order))
  {
    AppendRegistry(c, s, event, order);
    AppendCaught(c, s, event, order);
    AppendLosses(c, s, event, order);
  }

  lemma AppendChunkService(c: Config, s: System, order: seq<(SubscriberId, Sender)>)
    requires Service(c, s) && ReaderMatches(s) && Enabled(c, s, AppendChunk(order))
    ensures Service(c, Apply(c, s, AppendChunk(order)))
  {
    var n := Min(c.readChunkSize, |s.buffer|);
    var t := s.(buffer := s.buffer[n..]);
    SameService(c, s, t);
    AppendService(c, t, Chunk(s.buffer[..n]), order);
  }

  /** Nothing here depends on the bytes read or on the history. */
  lemma SameService(c: Config, s: System, t: System)
    requires Service(c, s) && t.subscriptions == s.subscriptions && t.log == s.log
    requires t.reader == s.reader || t.reader.Stopped?
    requires t.shared.subscribers == s.shared.subscribers && t.shared.closed == s.shared.closed
    requires t.shared.nextSubscriberId == s.shared.nextSubscriberId
    ensures Service(c, t)
  {
  }

  // ------------------------------------------------------------------------- sending

  /** The subscription the event in hand goes to next. */
  lemma NextLacksEvent(c: Config, s: System)
    requires ReaderMatches(s) && PendingOk(s) && Enabled(c, s, SendNext)
    ensures var (id, h) := s.reader.pending[0];
            && s.subscriptions[h].id == Some(id) && s.subscriptions[h].upTo == |s.log| - 1
            && s.reader.event == IndexedEvent(|s.log| - 1, s.log[|s.log| - 1])
  {
    assert Lacks(s.subscriptions, s.reader.pending[0].0, s.reader.pending[0].1, s.reader.event.index);
  }

  lemma SendRegistryKept(c: Config, s: System)
    requires Registry(s) && ReaderMatches(s) && PendingOk(s) && RegistryOk(s) && Enabled(c, s, SendNext)
    ensures Registry(Send(c, s))
  {
    NextLacksEvent(c, s);
    SendQueues(c, s);
    SendStale(c, s);
  }

  lemma SendQueues(c: Config, s: System)
    requires QueuesOk(s) && ReaderMatches(s) && PendingOk(s) && Enabled(c, s, SendNext)
    ensures QueuesOk(Send(c, s))
  {
    NextLacksEvent(c, s);
  }

  lemma SendStale(c: Config, s: System)
    requires Registry(s) && ReaderMatches(s) && PendingOk(s) && RegistryOk(s) && Enabled(c, s, SendNext)
    ensures StaleOk(Send(c, s))
  {
    NextLacksEvent(c, s);
    var t := Send(c, s);
    var (id, g) := s.reader.pending[0];
    forall h | 0 <= h < |t.subscriptions| && t.subscriptions[h].id.Some?
               && t.subscriptions[h].id.value in t.reader.stale
      ensures !t.subscriptions[h].handle.Open? || t.shared.closed || HasEnded(t.log)
    {
      if t.subscriptions[h].id == Some(id) {
        assert h == g;
      }
    }
  }

  lemma SendCaught(c: Config, s: System)
    requires Caught(s) && QueuesOk(s) && Distinct(s) && ReaderMatches(s) && PendingOk(s) && Enabled(c, s, SendNext)
    ensures Caught(Send(c, s))
  {
    NextLacksEvent(c, s);
    var t := Send(c, s);
    if !s.shared.closed {
      var (id, g) := s.reader.pending[0];
      forall h | 0 <= h < |t.subscriptions| && IsLive(t.subscriptions[h])
        ensures t.subscriptions[h].upTo == |t.log| || IsPending(t, h)
      {
        if h != g && IsPending(s, h) {
          var i :| 0 <= i < |s.reader.pending| && s.reader.pending[i] == (s.subscriptions[h].id.value, h);
          assert t.reader.pending[i - 1] == s.reader.pending[i];
        }
      }
    }
  }

  lemma SendLosses(c: Config, s: System)
    requires ValidConfig(c) && LossesAreLarge(c, s) && LogShape(s.log) && ReaderMatches(s) && PendingOk(s)
    requires Enabled(c, s, SendNext)
    ensures LossesAreLarge(c, Send(c, s))
  {
    NextLacksEvent(c, s);
    var u := s.subscriptions[s.reader.pending[0].1];
    if c.delivery.LossyWithoutBackpressure? && !Refuses(c, u) {
      PushCoversWidely(s.log, u.received + u.replay, u.queue, c.maxBufferedChunks, u.from, u.upTo);
    }
  }

  lemma SendService(c: Config, s: System)
    requires ValidConfig(c) && Service(c, s) && Delivers(c, s) && Enabled(c, s, SendNext)
    ensures Service(c, Send(c, s))
  {
    SendRegistryKept(c, s);
    SendCaught(c, s);
    SendLosses(c, s);
  }

  lemma FinishService(c: Config, s: System)
    requires Service(c, s) && Enabled(c, s, FinishDelivery)
    ensures Service(c, Finish(s))
  {
  }

  // ------------------------------------------------------------------------- subscriptions

  lemma AttachService(c: Config, s: System)
    requires ValidConfig(c) && Service(c, s) && Delivers(c, s)
    ensures Service(c, Attach(c, s))
  {
    AttachRegistered(c, s);
    AttachLosses(c, s);
  }

  lemma AttachRegistered(c: Config, s: System)
    requires Registry(s) && Caught(s) && RegistryOk(s) && SharedMatches(c, s.shared, s.log)
    ensures Registry(Attach(c, s)) && Caught(Attach(c, s))
  {
    AttachKept(c, s);
    AttachStale(c, s);
  }

  lemma AttachKept(c: Config, s: System)
    requires Kept(s) && Distinct(s) && Caught(s) && RegistryOk(s) && SharedMatches(c, s.shared, s.log)
    ensures var t := Attach(c, s); Kept(t) && Distinct(t) && Caught(t)
  {
    var t := Attach(c, s);
    assert forall h :: 0 <= h < |s.subscriptions| ==> t.subscriptions[h] == s.subscriptions[h];
  }

  lemma AttachStale(c: Config, s: System)
    requires QueuesOk(s) && StaleOk(s)
    ensures var t := Attach(c, s); QueuesOk(t) && StaleOk(t)
  {
    var t := Attach(c, s);
    assert forall h :: 0 <= h < |s.subscriptions| ==> t.subscriptions[h] == s.subscriptions[h];
  }

  lemma AttachLosses(c: Config, s: System)
    requires LossesAreLarge(c, s) && LogShape(s.log) && SharedMatches(c, s.shared, s.log)
    ensures LossesAreLarge(c, Attach(c, s))
  {
    var t := Attach(c, s);
    var u := t.subscriptions[|s.subscriptions|];
    SnapshotCovers(c, s);
    assert AllOf(u) == u.replay;
    CoversWithoutGaps(s.log, AllOf(u), u.from, u.upTo, c.maxBufferedChunks);
    assert forall h :: 0 <= h < |s.subscriptions| ==> t.subscriptions[h] == s.subscriptions[h];
  }

  /** A change to one subscription that makes it no more than it was, and may unregister it if it is not
      live afterwards. */
  lemma UpdateService(c: Config, s: System, h: nat, v: Subscription, shared: Shared)
    requires Service(c, s) && h < |s.subscriptions|
    requires var u := s.subscriptions[h];
             && SameLive(u, v) && AllOf(v) == AllOf(u) && v.from == u.from
             && (IsLive(v) ==> IsLive(u)) && (v.handle.Open? ==> u.handle.Open?)
             && (shared == s.shared || (shared == Unregister(s.shared, u) && !IsLive(v)))
    ensures Service(c, s.(shared := shared, subscriptions := s.subscriptions[h := v]))
  {
    UpdateKept(s, h, v, shared);
    UpdateCaught(s, h, v, shared);
  }

  lemma UpdateKept(s: System, h: nat, v: Subscription, shared: Shared)
    requires Registry(s) && h < |s.subscriptions|
    requires var u := s.subscriptions[h];
             && SameLive(u, v) && (IsLive(v) ==> IsLive(u)) && (v.handle.Open? ==> u.handle.Open?)
             && (shared == s.shared || (shared == Unregister(s.shared, u) && !IsLive(v)))
    ensures Registry(s.(shared := shared, subscriptions := s.subscriptions[h := v]))
  {
  }

  lemma UpdateCaught(s: System, h: nat, v: Subscription, shared: Shared)
    requires Caught(s) && h < |s.subscriptions| && shared.closed == s.shared.closed
    requires SameLive(s.subscriptions[h], v) && (IsLive(v) ==> IsLive(s.subscriptions[h]))
    ensures Caught(s.(shared := shared, subscriptions := s.subscriptions[h := v]))
  {
    var t := s.(shared := shared, subscriptions := s.subscriptions[h := v]);
    forall g | 0 <= g < |t.subscriptions| && IsLive(t.subscriptions[g])
      ensures IsLive(s.subscriptions[g]) && s.subscriptions[g].upTo == t.subscriptions[g].upTo
      ensures IsPending(s, g) == IsPending(t, g)
    {
    }
  }

  lemma ReceiveService(c: Config, s: System, h: nat)
    requires Service(c, s) && SubscriptionsOk(c, s) && Enabled(c, s, Receive(h))
    ensures Service(c, Take(s, h))
  {
    TakeOk(c, s, h);
    var u := s.subscriptions[h];
    UpdateService(c, s, h, Take(s, h).subscriptions[h],
                  if Head(u).0.event.IsTerminal() then Unregister(s.shared, u) else s.shared);
  }

  lemma CloseAllService(c: Config, s: System)
    requires Service(c, s)
    ensures Service(c, CloseAll(c, s))
  {
    var t := CloseAll(c, s);
    assert forall h :: 0 <= h < |s.subscriptions| ==> AllOf(t.subscriptions[h]) == AllOf(s.subscriptions[h]);
    CloseAllRegistry(c, s);
  }

  lemma CloseAllRegistry(c: Config, s: System)
    requires Registry(s)
    ensures Registry(CloseAll(c, s))
  {
  }

  /** Whoever refused the event in hand is not registered any more: a subscription is unregistered before
      its receiver goes, so that removing it once more changes nothing. */
  lemma StaleAreGone(c: Config, s: System)
    requires Inv(c, s) && Service(c, s) && s.reader.Delivering?
    ensures forall id :: id in s.reader.stale ==> id !in s.shared.subscribers
  {
  }

  // ------------------------------------------------------------------------- all runs

  lemma StepKeepsService(c: Config, s: System, step: Step)
    requires ValidConfig(c) && Inv(c, s) && Service(c, s) && Enabled(c, s, step)
    ensures Service(c, Apply(c, s, step))
  {
    match step
    case Read(bytes) => SameService(c, s, Apply(c, s, step));
    case AppendChunk(order) => AppendChunkService(c, s, order);
    case AppendTerminal(event, order) => AppendService(c, s, event, order);
    case SendNext => SendService(c, s);
    case FinishDelivery => FinishService(c, s);
    case AbortReader => SameService(c, s, Apply(c, s, step));
    case Subscribe => AttachService(c, s);
    case Receive(h) => ReceiveService(c, s, h);
    case BeginDrop(h) =>
      var u := s.subscriptions[h];
      UpdateService(c, s, h, u.(handle := Dropping, detached := true), Unregister(s.shared, u));
    case EndDrop(h) => UpdateService(c, s, h, s.subscriptions[h].(handle := Dropped), s.shared);
    case SealReplay => SameService(c, s, Apply(c, s, step));
    case DropStream => CloseAllService(c, s);
  }

  lemma {:induction false} RunKeepsService(c: Config, run: seq<System>)
    requires ValidConfig(c) && IsRun(c, run)
    ensures Service(c, run[|run| - 1])
    decreases |run|
  {
    var n := |run| - 1;
    if n > 0 {
      RunKeepsService(c, run[..n]);
      RunKeepsInv(c, run[..n]);
      assert IsStep(c, run[n-1], run[n]);
      var step :| Enabled(c, run[n-1], step) && run[n] == Apply(c, run[n-1], step);
      StepKeepsService(c, run[n-1], step);
    }
  }

  lemma ReachableService(c: Config, s: System)
    requires ValidConfig(c) && Reachable(c, s)
    ensures Service(c, s)
  {
    var run :| IsRun(c, run) && run[|run| - 1] == s;
    RunKeepsService(c, run);
  }
}
