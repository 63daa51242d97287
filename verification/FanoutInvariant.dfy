/** What every reachable state of the broadcast backend satisfies. */
module FanoutInvariant {
  import opened Events
  import opened Coverage
  import opened Replay
  import opened LossyQueue
  import opened BroadcastShared
  import opened Fanout

  /** The stream has ended with a terminal event. */
  predicate HasEnded(log: seq<StreamEvent>)
  {
    log != [] && log[|log| - 1].IsTerminal()
  }

  /** The number of chunks in the log. */
  function ChunkCount(log: seq<StreamEvent>): nat
  {
    if HasEnded(log) then |log| - 1 else |log|
  }

  /** The log holds chunks, possibly followed by one terminal event. */
  predicate LogShape(log: seq<StreamEvent>)
  {
    forall i :: 0 <= i < ChunkCount(log) ==> log[i].Chunk?
  }

  /** The shared state is a function of the log, except for the registry and the flags. */
  predicate SharedMatches(c: Config, shared: Shared, log: seq<StreamEvent>)
  {
    && shared.nextSeq == |log|
    && shared.terminal == (if HasEnded(log) then Some(IndexedEvent(|log| - 1, log[|log| - 1])) else None)
    && shared.replay == (if shared.replaySealed then []
                         else Window(IndexedSize, c.retention, Labelled(log)[..ChunkCount(log)]))
  }

  /** Nothing read from the child is missing from the log, unless the stream was dropped. */
  predicate NothingLost(s: System)
  {
    && Payload(s.log) <= s.ingested
    && (!s.shared.closed || HasEnded(s.log) ==> Payload(s.log) + s.buffer == s.ingested)
    && (HasEnded(s.log) ==> s.buffer == [])
  }

  predicate ReaderMatches(s: System)
  {
    && (s.reader.Reading? ==> !HasEnded(s.log))
    && (s.reader.Delivering? ==>
          s.log != [] && s.reader.event == IndexedEvent(|s.log| - 1, s.log[|s.log| - 1]))
  }

  /** Everything a subscription returned or still holds. */
  function AllOf(u: Subscription): seq<IndexedEvent>
  {
    u.received + u.replay + u.queue.events
  }

  /** A subscription by itself: it accounts for a part of the log, without gaps if delivery is
      reliable, within its capacity, and holds no live event from before its start. */
  ghost predicate SubscriptionOk(c: Config, log: seq<StreamEvent>, u: Subscription)
  {
    && u.from <= u.liveStart <= u.upTo
    && Covers(log, AllOf(u), u.from, u.upTo)
    && (forall i :: 0 <= i < |u.queue.events| ==> u.liveStart <= u.queue.events[i].index)
    && (if c.delivery.ReliableWithBackpressure? then NoGap(AllOf(u)) && |u.queue.events| <= c.maxBufferedChunks
        else QueueShape(u.queue, c.maxBufferedChunks))
  }

  ghost predicate SubscriptionsOk(c: Config, s: System)
  {
    forall h :: 0 <= h < |s.subscriptions| ==> SubscriptionOk(c, s.log, s.subscriptions[h])
  }

  /** A registered subscription is open and its queue is not closed. */
  ghost predicate RegistryOk(s: System)
  {
    && (forall id :: id in s.shared.subscribers ==>
          var h := s.shared.subscribers[id];
          && id < s.shared.nextSubscriberId && h < |s.subscriptions|
          && var u := s.subscriptions[h];
             u.id == Some(id) && u.handle.Open? && !u.detached && !u.queue.closed && u.liveStart <= |s.log|)
    && (s.shared.closed || HasEnded(s.log) ==> s.shared.subscribers == map[])
    && (forall h :: 0 <= h < |s.subscriptions| && s.subscriptions[h].id.Some? ==>
          s.subscriptions[h].id.value < s.shared.nextSubscriberId)
  }

  predicate Lacks(subscriptions: seq<Subscription>, id: SubscriberId, h: Sender, index: nat)
  {
    && h < |subscriptions|
    && var u := subscriptions[h];
       u.id == Some(id) && u.liveStart <= index && u.upTo == index
  }

  /** The subscriptions still waiting for the event in the reader's hand lack exactly that event. */
  ghost predicate PendingOk(s: System)
  {
    s.reader.Delivering? ==>
      && (forall i :: 0 <= i < |s.reader.pending| ==>
            Lacks(s.subscriptions, s.reader.pending[i].0, s.reader.pending[i].1, s.reader.event.index))
      && (forall i, j :: 0 <= i < j < |s.reader.pending| ==> s.reader.pending[i].0 != s.reader.pending[j].0)
  }

  /** Unless the reader has stopped, a registered subscription that is not waiting has everything. */
  ghost predicate UpToDate(s: System)
  {
    forall id :: !s.reader.Stopped? && id in s.shared.subscribers && s.shared.subscribers[id] < |s.subscriptions| ==>
      || (s.reader.Delivering? && (id, s.shared.subscribers[id]) in s.reader.pending)
      || s.subscriptions[s.shared.subscribers[id]].upTo == |s.log|
  }

  ghost predicate Inv(c: Config, s: System)
  {
    Delivers(c, s) && NothingLost(s)
  }

  ghost predicate Delivers(c: Config, s: System)
  {
    && LogShape(s.log)
    && SharedMatches(c, s.shared, s.log)
    && ReaderMatches(s)
    && SubscriptionsOk(c, s)
    && RegistryOk(s)
    && PendingOk(s)
    && UpToDate(s)
  }

  // ------------------------------------------------------------------------- appending

  lemma AppendLog(c: Config, s: System, event: StreamEvent)
    requires LogShape(s.log) && SharedMatches(c, s.shared, s.log) && !HasEnded(s.log)
    requires event.Chunk? || event.IsTerminal()
    ensures LogShape(s.log + [event])
    ensures SharedMatches(c, Recorded(s.shared, event, c.retention), s.log + [event])
  {
    var log := s.log + [event];
    var e := IndexedEvent(|s.log|, event);
    assert Labelled(log) == Labelled(s.log) + [e];
    assert Labelled(s.log)[..|s.log|] == Labelled(s.log);
    if event.Chunk? {
      assert Labelled(log)[..|log|] == Labelled(log);
      WindowStep(IndexedSize, c.retention, Labelled(s.log), e);
    } else {
      assert Labelled(log)[..|s.log|] == Labelled(s.log);
    }
  }

  lemma AppendSubscriptions(c: Config, s: System, event: StreamEvent)
    requires SubscriptionsOk(c, s)
    ensures SubscriptionsOk(c, s.(log := s.log + [event]))
  {
    forall h | 0 <= h < |s.subscriptions| ensures SubscriptionOk(c, s.log + [event], s.subscriptions[h]) {
      var u := s.subscriptions[h];
      CoversGrow(s.log, [event], AllOf(u), u.from, u.upTo);
    }
  }

  lemma AppendPending(c: Config, s: System, event: StreamEvent, order: seq<(SubscriberId, Sender)>)
    requires RegistryOk(s) && UpToDate(s) && s.reader.Reading? && s.shared.nextSeq == |s.log|
    requires !s.shared.closed && !HasEnded(s.log)
    requires Enumerates(order, s.shared.subscribers)
    ensures var t := Append(c, s, event, order);
            RegistryOk(t) && PendingOk(t) && UpToDate(t)
  {
  }

  lemma AppendDelivers(c: Config, s: System, event: StreamEvent, order: seq<(SubscriberId, Sender)>)
    requires Delivers(c, s) && s.reader.Reading? && Enumerates(order, s.shared.subscribers)
    requires event.Chunk? || event.IsTerminal()
    ensures Delivers(c, Append(c, s, event, order))
  {
    if !s.shared.closed {
      AppendLog(c, s, event);
      AppendSubscriptions(c, s, event);
      AppendPending(c, s, event, order);
    }
  }

  lemma AppendedPayload(log: seq<StreamEvent>, buffer: Bytes, n: nat)
    requires n <= |buffer|
    ensures Payload(log + [Chunk(buffer[..n])]) + buffer[n..] == Payload(log) + buffer
  {
    var head, tail := buffer[..n], buffer[n..];
    PayloadAppend(log, [Chunk(head)]);
    assert Payload([Chunk(head)]) == head + Payload([]) == head;
    Assoc(Payload(log), head, tail);
    assert head + tail == buffer;
  }

  /** Splitting a chunk off the buffer moves bytes to the log and loses none. */
  lemma AppendChunkLosesNothing(c: Config, s: System, order: seq<(SubscriberId, Sender)>)
    requires s.reader.Reading? && s.buffer != [] && !HasEnded(s.log) && NothingLost(s)
    ensures var n := Min(c.readChunkSize, |s.buffer|);
            NothingLost(Append(c, s.(buffer := s.buffer[n..]), Chunk(s.buffer[..n]), order))
  {
    AppendedPayload(s.log, s.buffer, Min(c.readChunkSize, |s.buffer|));
  }

  lemma AppendChunkKeeps(c: Config, s: System, order: seq<(SubscriberId, Sender)>)
    requires Inv(c, s) && Enabled(c, s, AppendChunk(order))
    ensures Inv(c, Apply(c, s, AppendChunk(order)))
  {
    var n := Min(c.readChunkSize, |s.buffer|);
    AppendDelivers(c, s.(buffer := s.buffer[n..]), Chunk(s.buffer[..n]), order);
    AppendChunkLosesNothing(c, s, order);
  }

  lemma AppendTerminalKeeps(c: Config, s: System, event: StreamEvent, order: seq<(SubscriberId, Sender)>)
    requires ValidConfig(c) && Inv(c, s) && Enabled(c, s, AppendTerminal(event, order))
    ensures Inv(c, Apply(c, s, AppendTerminal(event, order)))
  {
    AppendDelivers(c, s, event, order);
    PayloadAppend(s.log, [event]);
    assert Payload([event]) == [];
  }

  // ------------------------------------------------------------------------- sending

  lemma ReadKeeps(c: Config, s: System, bytes: Bytes)
    requires Inv(c, s) && Enabled(c, s, Read(bytes))
    ensures Inv(c, Apply(c, s, Read(bytes)))
  {
    assert Payload(s.log) + [] == Payload(s.log);
  }

  /** A subscription that lacks exactly the next event accepts it. */
  lemma AcceptOk(c: Config, log: seq<StreamEvent>, u: Subscription, e: IndexedEvent)
    requires ValidConfig(c) && SubscriptionOk(c, log, u) && !Refuses(c, u)
    requires u.upTo < |log| && e == IndexedEvent(u.upTo, log[u.upTo]) && !e.event.Gap? && u.liveStart <= e.index
    requires c.delivery.ReliableWithBackpressure? ==> |u.queue.events| < c.maxBufferedChunks
    ensures SubscriptionOk(c, log, Accept(c, u, e))
  {
    var seen := u.received + u.replay;
    if c.delivery.ReliableWithBackpressure? {
      CoversNext(log, AllOf(u), u.from, u.upTo);
      assert AllOf(Accept(c, u, e)) == AllOf(u) + [e];
    } else {
      PushCovers(log, seen, u.queue, c.maxBufferedChunks, u.from, u.upTo);
      PushKeepsShape(u.queue, c.maxBufferedChunks, e);
    }
  }

  lemma SendKeeps(c: Config, s: System)
    requires ValidConfig(c) && Inv(c, s) && Enabled(c, s, SendNext)
    ensures Inv(c, Apply(c, s, SendNext))
  {
    SendSubscriptions(c, s);
    SendRegistry(c, s);
    SendChangesNoLog(c, s);
  }

  lemma SendChangesNoLog(c: Config, s: System)
    requires ReaderMatches(s) && NothingLost(s) && Enabled(c, s, SendNext)
    ensures Send(c, s).shared == s.shared && Send(c, s).log == s.log
    ensures ReaderMatches(Send(c, s)) && NothingLost(Send(c, s))
  {
  }

  lemma SendSubscriptions(c: Config, s: System)
    requires ValidConfig(c) && Enabled(c, s, SendNext)
    requires LogShape(s.log) && SubscriptionsOk(c, s) && ReaderMatches(s) && PendingOk(s)
    ensures SubscriptionsOk(c, Send(c, s))
  {
    var u := s.subscriptions[s.reader.pending[0].1];
    if !Refuses(c, u) {
      assert Lacks(s.subscriptions, s.reader.pending[0].0, s.reader.pending[0].1, s.reader.event.index);
      AcceptOk(c, s.log, u, s.reader.event);
    }
  }

  lemma SendRegistry(c: Config, s: System)
    requires Delivers(c, s) && Enabled(c, s, SendNext)
    ensures var t := Send(c, s); RegistryOk(t) && PendingOk(t) && UpToDate(t)
  {
    SendRegistered(c, s);
    SendPending(c, s);
    SendUpToDate(c, s);
  }

  lemma SendRegistered(c: Config, s: System)
    requires RegistryOk(s) && ReaderMatches(s) && Enabled(c, s, SendNext)
    ensures RegistryOk(Send(c, s))
  {
    if HasEnded(s.log) {
      assert s.shared.subscribers == map[];
    }
  }

  lemma SendPending(c: Config, s: System)
    requires PendingOk(s) && Enabled(c, s, SendNext)
    ensures PendingOk(Send(c, s))
  {
    var t := Send(c, s);
    assert forall i :: 0 <= i < |t.reader.pending| ==> t.reader.pending[i] == s.reader.pending[i+1];
  }

  lemma SendUpToDate(c: Config, s: System)
    requires RegistryOk(s) && PendingOk(s) && UpToDate(s) && ReaderMatches(s) && Enabled(c, s, SendNext)
    ensures UpToDate(Send(c, s))
  {
    var t := Send(c, s);
    var (id, h) := s.reader.pending[0];
    forall other | other in t.shared.subscribers && t.shared.subscribers[other] < |t.subscriptions|
      ensures || (t.reader.Delivering? && (other, t.shared.subscribers[other]) in t.reader.pending)
              || t.subscriptions[t.shared.subscribers[other]].upTo == |t.log|
    {
      var g := s.shared.subscribers[other];
      if (other, g) in s.reader.pending && other != id {
        var i :| 0 <= i < |s.reader.pending| && s.reader.pending[i] == (other, g);
        assert t.reader.pending[i-1] == (other, g);
      }
    }
  }

  lemma FinishKeeps(c: Config, s: System)
    requires Inv(c, s) && Enabled(c, s, FinishDelivery)
    ensures Inv(c, Finish(s))
  {
    FinishRegistry(c, s);
  }

  lemma FinishRegistry(c: Config, s: System)
    requires RegistryOk(s) && UpToDate(s) && ReaderMatches(s) && Enabled(c, s, FinishDelivery)
    ensures RegistryOk(Finish(s)) && UpToDate(Finish(s))
  {
  }

  lemma StopKeeps(c: Config, s: System)
    requires Inv(c, s)
    ensures Inv(c, s.(reader := Stopped))
  {
  }

  // ------------------------------------------------------------------------- subscribing

  /** The snapshot is the end of the log: replay never skips what live delivery starts after. */
  lemma SnapshotIsSuffix(c: Config, s: System)
    requires LogShape(s.log) && SharedMatches(c, s.shared, s.log)
    ensures var snapshot := Snapshot(s.shared, c.retention);
            |snapshot| <= |s.log| && snapshot == Labelled(s.log)[|s.log| - |snapshot|..]
  {
    var all, n := Labelled(s.log), ChunkCount(s.log);
    WindowIsSuffix(IndexedSize, c.retention, all[..n]);
    assert all[n..] == if s.shared.terminal.Some? then [s.shared.terminal.value] else [];
    if c.retention.Some? && !s.shared.replaySealed {
      SuffixThenRest(all, n, n - |Window(IndexedSize, c.retention, all[..n])|);
    } else {
      SuffixThenRest(all, n, n);
    }
  }

  lemma SuffixThenRest<T>(all: seq<T>, n: nat, k: nat)
    requires k <= n <= |all|
    ensures all[..n][k..] + all[n..] == all[k..]
  {
  }

  lemma SnapshotCovers(c: Config, s: System)
    requires LogShape(s.log) && SharedMatches(c, s.shared, s.log)
    ensures var snapshot := Snapshot(s.shared, c.retention);
            |snapshot| <= |s.log| && NoGap(snapshot) && Covers(s.log, snapshot, |s.log| - |snapshot|, |s.log|)
  {
    SnapshotIsSuffix(c, s);
    var from := |s.log| - |Snapshot(s.shared, c.retention)|;
    assert Labelled(s.log)[from..|s.log|] == Labelled(s.log)[from..];
    CoversExactly(s.log, from, |s.log|);
  }

  lemma FreshSubscriptionOk(c: Config, s: System)
    requires LogShape(s.log) && SharedMatches(c, s.shared, s.log)
    ensures var t := Attach(c, s);
            SubscriptionOk(c, s.log, t.subscriptions[|s.subscriptions|])
  {
    SnapshotCovers(c, s);
    var u := Attach(c, s).subscriptions[|s.subscriptions|];
    assert AllOf(u) == Snapshot(s.shared, c.retention);
  }

  lemma AttachRegistry(c: Config, s: System)
    requires RegistryOk(s) && PendingOk(s) && UpToDate(s) && SharedMatches(c, s.shared, s.log)
    ensures var t := Attach(c, s); RegistryOk(t) && PendingOk(t) && UpToDate(t)
  {
  }

  lemma AttachKeeps(c: Config, s: System)
    requires Inv(c, s)
    ensures Inv(c, Attach(c, s))
  {
    FreshSubscriptionOk(c, s);
    AttachRegistry(c, s);
  }

  // ------------------------------------------------------------------------- receiving, dropping

  /** Receiving moves an event from unread to received; it is never skipped. */
  lemma TakeOk(c: Config, s: System, h: nat)
    requires Enabled(c, s, Receive(h)) && SubscriptionOk(c, s.log, s.subscriptions[h])
    ensures var u, v := s.subscriptions[h], Take(s, h).subscriptions[h];
            && SubscriptionOk(c, s.log, v)
            && AllOf(v) == AllOf(u)
            && v.received == u.received + [Head(u).0]
  {
    var u, v := s.subscriptions[h], Take(s, h).subscriptions[h];
    if u.replay == [] {
      assert u.replay == v.replay == [] && u.queue.events == [u.queue.events[0]] + v.queue.events;
      assert u.received + [] == u.received && v.received + [] == v.received;
      Assoc(u.received, [u.queue.events[0]], v.queue.events);
    } else {
      assert u.replay == [u.replay[0]] + v.replay;
      Assoc(u.received, [u.replay[0]], v.replay);
    }
  }

  lemma UpdatePending(s: System, shared: Shared, h: nat, v: Subscription)
    requires PendingOk(s) && h < |s.subscriptions| && SameLive(s.subscriptions[h], v)
    ensures PendingOk(s.(shared := shared, subscriptions := s.subscriptions[h := v]))
  {
  }

  /** Changing a subscription that gives up its registration at the same time. */
  lemma UnregisterKeeps(c: Config, s: System, h: nat, v: Subscription)
    requires Delivers(c, s) && h < |s.subscriptions|
    requires SubscriptionOk(c, s.log, v) && SameLive(s.subscriptions[h], v)
    ensures Delivers(c, s.(shared := Unregister(s.shared, s.subscriptions[h]),
                           subscriptions := s.subscriptions[h := v]))
  {
    var u := s.subscriptions[h];
    var t := s.(shared := Unregister(s.shared, u), subscriptions := s.subscriptions[h := v]);
    UpdatePending(s, t.shared, h, v);
    UnregisterRegistry(s, h, v);
  }

  lemma UnregisterRegistry(s: System, h: nat, v: Subscription)
    requires RegistryOk(s) && UpToDate(s) && h < |s.subscriptions| && SameLive(s.subscriptions[h], v)
    ensures var shared := Unregister(s.shared, s.subscriptions[h]);
            var t := s.(shared := shared, subscriptions := s.subscriptions[h := v]);
            RegistryOk(t) && UpToDate(t)
  {
    var shared := Unregister(s.shared, s.subscriptions[h]);
    forall id | id in shared.subscribers ensures shared.subscribers[id] != h {
      assert s.subscriptions[shared.subscribers[id]].id == Some(id);
    }
  }

  /** The two subscriptions have the same identity and the same history of sends. */
  predicate SameLive(u: Subscription, v: Subscription)
  {
    v.id == u.id && v.liveStart == u.liveStart && v.upTo == u.upTo && v.queue.closed == u.queue.closed
  }

  /** Changing a subscription that keeps its registration. */
  lemma UpdateKeeps(c: Config, s: System, h: nat, v: Subscription)
    requires Delivers(c, s) && h < |s.subscriptions|
    requires SubscriptionOk(c, s.log, v) && SameLive(s.subscriptions[h], v)
    requires s.subscriptions[h].handle.Open? && !s.subscriptions[h].detached ==> v.handle.Open? && !v.detached
    ensures Delivers(c, s.(subscriptions := s.subscriptions[h := v]))
  {
    UpdatePending(s, s.shared, h, v);
    UpdateRegistry(s, h, v);
  }

  lemma UpdateRegistry(s: System, h: nat, v: Subscription)
    requires RegistryOk(s) && UpToDate(s) && h < |s.subscriptions| && SameLive(s.subscriptions[h], v)
    requires s.subscriptions[h].handle.Open? && !s.subscriptions[h].detached ==> v.handle.Open? && !v.detached
    ensures var t := s.(subscriptions := s.subscriptions[h := v]); RegistryOk(t) && UpToDate(t)
  {
  }

  lemma ReceiveKeeps(c: Config, s: System, h: nat)
    requires Inv(c, s) && Enabled(c, s, Receive(h))
    ensures Inv(c, Take(s, h))
  {
    TakeOk(c, s, h);
    var v := Take(s, h).subscriptions[h];
    if Head(s.subscriptions[h]).0.event.IsTerminal() {
      UnregisterKeeps(c, s, h, v);
    } else {
      UpdateKeeps(c, s, h, v);
    }
  }

  lemma BeginDropKeeps(c: Config, s: System, h: nat)
    requires Inv(c, s) && Enabled(c, s, BeginDrop(h))
    ensures Inv(c, Apply(c, s, BeginDrop(h)))
  {
    UnregisterKeeps(c, s, h, s.subscriptions[h].(handle := Dropping, detached := true));
  }

  lemma EndDropKeeps(c: Config, s: System, h: nat)
    requires Inv(c, s) && Enabled(c, s, EndDrop(h))
    ensures Inv(c, Apply(c, s, EndDrop(h)))
  {
    UpdateKeeps(c, s, h, s.subscriptions[h].(handle := Dropped));
  }

  lemma SealKeeps(c: Config, s: System)
    requires Inv(c, s)
    ensures Inv(c, s.(shared := Sealed(s.shared)))
  {
  }

  lemma CloseAllSubscriptions(c: Config, s: System)
    requires SubscriptionsOk(c, s)
    ensures SubscriptionsOk(c, CloseAll(c, s))
  {
    var t := CloseAll(c, s);
    forall h | 0 <= h < |t.subscriptions| ensures SubscriptionOk(c, t.log, t.subscriptions[h]) {
      assert AllOf(t.subscriptions[h]) == AllOf(s.subscriptions[h]);
    }
  }

  lemma CloseAllPending(c: Config, s: System)
    requires PendingOk(s)
    ensures PendingOk(CloseAll(c, s))
  {
  }

  lemma CloseAllKeeps(c: Config, s: System)
    requires Inv(c, s) && !s.shared.closed
    ensures Inv(c, CloseAll(c, s))
  {
    var t := CloseAll(c, s);
    CloseAllSubscriptions(c, s);
    CloseAllPending(c, s);
    assert RegistryOk(t) && UpToDate(t);
  }

  // ------------------------------------------------------------------------- all runs

  lemma StepKeepsInv(c: Config, s: System, step: Step)
    requires ValidConfig(c) && Inv(c, s) && Enabled(c, s, step)
    ensures Inv(c, Apply(c, s, step))
  {
    match step
    case Read(bytes) => ReadKeeps(c, s, bytes);
    case AppendChunk(order) => AppendChunkKeeps(c, s, order);
    case AppendTerminal(event, order) => AppendTerminalKeeps(c, s, event, order);
    case SendNext => SendKeeps(c, s);
    case FinishDelivery => FinishKeeps(c, s);
    case AbortReader => StopKeeps(c, s);
    case Subscribe => AttachKeeps(c, s);
    case Receive(h) => ReceiveKeeps(c, s, h);
    case BeginDrop(h) => BeginDropKeeps(c, s, h);
    case EndDrop(h) => EndDropKeeps(c, s, h);
    case SealReplay => SealKeeps(c, s);
    case DropStream => CloseAllKeeps(c, s);
  }

  lemma {:induction false} RunKeepsInv(c: Config, run: seq<System>)
    requires ValidConfig(c) && IsRun(c, run)
    ensures Inv(c, run[|run| - 1])
    decreases |run|
  {
    var n := |run| - 1;
    if n > 0 {
      RunKeepsInv(c, run[..n]);
      assert IsStep(c, run[n-1], run[n]);
      var step :| Enabled(c, run[n-1], step) && run[n] == Apply(c, run[n-1], step);
      StepKeepsInv(c, run[n-1], step);
    }
  }

  lemma ReachableInv(c: Config, s: System)
    requires ValidConfig(c) && Reachable(c, s)
    ensures Inv(c, s)
  {
    var run :| IsRun(c, run) && run[|run| - 1] == s;
    RunKeepsInv(c, run);
  }

  lemma ReachableSubscription(c: Config, s: System, h: nat)
    requires ValidConfig(c) && Reachable(c, s) && h < |s.subscriptions|
    ensures LogShape(s.log) && SubscriptionOk(c, s.log, s.subscriptions[h])
  {
    ReachableInv(c, s);
  }

  lemma ReachableShared(c: Config, s: System)
    requires ValidConfig(c) && Reachable(c, s)
    ensures LogShape(s.log) && SharedMatches(c, s.shared, s.log)
  {
    ReachableInv(c, s);
  }
}
