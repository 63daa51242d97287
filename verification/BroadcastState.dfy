/** The broadcast backend's lock-protected state: replay history, subscriber registry, terminal
    event. */
module BroadcastShared {
  import opened Events
  import opened Coverage
  import opened LossyQueue
  import opened Replay

  type SubscriberId = nat

  /** A sender is identified by the subscription it feeds. */
  type Sender = nat

  datatype Shared = Shared(
    replay: seq<IndexedEvent>,
    nextSeq: nat,
    nextSubscriberId: SubscriberId,
    subscribers: map<SubscriberId, Sender>,
    replaySealed: bool,
    terminal: Option<IndexedEvent>,
    closed: bool)

  const INITIAL := Shared([], 0, 0, map[], false, None, false)

  function IndexedSize(e: IndexedEvent): nat {
    EventSize(e.event)
  }

  /** Records an event: a chunk in the replay window, a terminal event in its own slot. */
  function Recorded(s: Shared, event: StreamEvent, retention: Option<ReplayRetention>): (t: Shared)
  {
    var e := IndexedEvent(s.nextSeq, event);
    s.(nextSeq := s.nextSeq + 1,
       replay := if event.Chunk? && retention.Some? && !s.replaySealed then
                   Window(IndexedSize, retention, s.replay + [e])
                 else s.replay,
       terminal := if event.IsTerminal() then Some(e) else s.terminal)
  }

  /** What a subscriber attaching now receives before live events. */
  function Snapshot(s: Shared, retention: Option<ReplayRetention>): (events: seq<IndexedEvent>)
  {
    (if retention.Some? && !s.replaySealed then s.replay else []) + if s.terminal.Some? then [s.terminal.value] else []
  }

  function Registered(s: Shared, sender: Sender): (t: Shared)
  {
    s.(nextSubscriberId := s.nextSubscriberId + 1, subscribers := s.subscribers[s.nextSubscriberId := sender])
  }

  function Unregistered(s: Shared, ids: set<SubscriberId>): (t: Shared)
  {
    s.(subscribers := s.subscribers - ids)
  }

  function Sealed(s: Shared): (t: Shared)
  {
    s.(replaySealed := true, replay := [])
  }

  function ClosedForDrop(s: Shared): (t: Shared)
  {
    s.(closed := true, subscribers := map[])
  }

  class BroadcastState {
    var replay: seq<IndexedEvent>
    var nextSeq: nat
    var replayStartSeq: nat
    var replayChunkCount: nat
    var replayByteCount: nat
    var nextSubscriberId: SubscriberId
    var subscribers: map<SubscriberId, Sender>
    var replaySealed: bool
    var terminal: Option<IndexedEvent>
    var closed: bool

    function View(): (s: Shared)
      reads this
    {
      Shared(replay, nextSeq, nextSubscriberId, subscribers, replaySealed, terminal, closed)
    }

    /** The counters agree with the history, which holds chunks only and is empty once sealed; the
        start position is that of the oldest retained event, if there is one. */
    predicate Valid()
      reads this
    {
      && (forall i :: 0 <= i < |replay| ==> replay[i].event.Chunk?)
      && replayChunkCount == |replay|
      && replayByteCount == Total(IndexedSize, replay)
      && (replay != [] ==> replayStartSeq == replay[0].index)
      && (replaySealed ==> replay == [])
    }

    constructor ()
      ensures Valid() && View() == INITIAL
    {
      replay, nextSeq, replayStartSeq, replayChunkCount, replayByteCount := [], 0, 0, 0, 0;
      nextSubscriberId, subscribers, replaySealed, terminal, closed := 0, map[], false, None, false;
    }

    method PushEvent(event: StreamEvent, retention: Option<ReplayRetention>) returns (indexed: IndexedEvent)
      requires Valid()
      modifies this
      ensures Valid()
      ensures indexed == IndexedEvent(old(nextSeq), event)
      ensures View() == Recorded(old(View()), event, retention)
    {
      indexed := IndexedEvent(nextSeq, event);
      nextSeq := nextSeq + 1;
      if event.Chunk? && retention.Some? && !replaySealed {
        RetainChunk(indexed);
        TrimReplayWindow(retention);
      } else if event.IsTerminal() {
        terminal := Some(indexed);
      }
    }

    /** The part of `PushEvent` that appends a chunk to the history. */
    method RetainChunk(indexed: IndexedEvent)
      requires Counted() && indexed.event.Chunk?
      modifies this
      ensures Counted() && View() == old(View()).(replay := old(replay) + [indexed])
    {
      TotalAppend(IndexedSize, replay, [indexed]);
      assert Total(IndexedSize, [indexed]) == |indexed.event.bytes|;
      replayChunkCount := replayChunkCount + 1;
      replayByteCount := replayByteCount + |indexed.event.bytes|;
      replay := replay + [indexed];
    }

    method ReplaySnapshot(retention: Option<ReplayRetention>) returns (snapshot: seq<IndexedEvent>, liveStart: nat)
      ensures snapshot == Snapshot(View(), retention) && liveStart == nextSeq
    {
      snapshot := if retention.Some? && !replaySealed then replay else [];
      if terminal.Some? {
        snapshot := snapshot + [terminal.value];
      }
      liveStart := nextSeq;
    }

    method AddSubscriber(sender: Sender) returns (id: SubscriberId)
      requires Valid()
      modifies this
      ensures Valid() && id == old(nextSubscriberId)
      ensures View() == Registered(old(View()), sender)
    {
      id := nextSubscriberId;
      nextSubscriberId := nextSubscriberId + 1;
      subscribers := subscribers[id := sender];
    }

    method RemoveSubscriber(id: SubscriberId)
      requires Valid()
      modifies this
      ensures Valid() && View() == Unregistered(old(View()), {id})
    {
      subscribers := subscribers - {id};
    }

    method SealReplay()
      requires Valid()
      modifies this
      ensures Valid() && View() == Sealed(old(View()))
    {
      replaySealed := true;
      ClearReplay();
      replayStartSeq := nextSeq;
    }

    /** Closes the registered lossy queues and no others; `queues` holds the queue of every lossy
        sender. A reliable sender closes by being dropped. */
    method CloseForDrop(queues: map<Sender, BestEffortLiveQueue>)
      requires Valid() && forall a, b :: a in queues && b in queues && a != b ==> queues[a] != queues[b]
      modifies this, queues.Values
      ensures Valid() && View() == ClosedForDrop(old(View()))
      ensures forall a :: a in queues ==>
                && queues[a].events == old(queues[a].events)
                && queues[a].closed == (old(queues[a].closed) || a in old(subscribers).Values)
    {
      closed := true;
      CloseQueues(subscribers.Values, queues);
      subscribers := map[];
    }

    method CloseQueues(senders: set<Sender>, queues: map<Sender, BestEffortLiveQueue>)
      requires forall a, b :: a in queues && b in queues && a != b ==> queues[a] != queues[b]
      modifies queues.Values
      ensures forall a :: a in queues ==>
                && queues[a].events == old(queues[a].events)
                && queues[a].closed == (old(queues[a].closed) || a in senders)
    {
      var left := senders;
      while left != {}
        invariant left <= senders
        invariant forall a :: a in queues ==>
                    && queues[a].events == old(queues[a].events)
                    && queues[a].closed == (old(queues[a].closed) || a in senders - left)
        decreases |left|
      {
        var sender :| sender in left;
        if sender in queues {
          queues[sender].Close();
        }
        left := left - {sender};
      }
    }

    method ClearReplay()
      modifies this
      ensures View() == old(View()).(replay := [])
      ensures replayChunkCount == replayByteCount == 0
    {
      replay, replayChunkCount, replayByteCount := [], 0, 0;
    }

    method PopReplayFront() returns (event: Option<IndexedEvent>)
      requires Counted()
      modifies this
      ensures Counted()
      ensures old(replay) == [] ==> event.None? && View() == old(View())
      ensures old(replay) != [] ==> event == Some(old(replay)[0]) && View() == old(View()).(replay := old(replay)[1..])
    {
      if replay == [] {
        return None;
      }
      event := Some(replay[0]);
      replay := replay[1..];
      if event.value.event.Chunk? {
        replayChunkCount := replayChunkCount - 1;
        replayByteCount := replayByteCount - |event.value.event.bytes|;
      }
      replayStartSeq := if replay == [] then nextSeq else replay[0].index;
    }

    /** The part of `Valid` that trimming relies on and keeps. */
    predicate Counted()
      reads this
    {
      && (forall i :: 0 <= i < |replay| ==> replay[i].event.Chunk?)
      && replayChunkCount == |replay|
      && replayByteCount == Total(IndexedSize, replay)
    }

    /** Removes what the retention does not keep. */
    method TrimReplayWindow(retention: Option<ReplayRetention>)
      requires Counted()
      modifies this
      ensures Counted() && (replay != [] ==> replayStartSeq == replay[0].index)
      ensures View() == old(View()).(replay := if replaySealed then [] else Window(IndexedSize, retention, old(replay)))
    {
      if retention.None? || replaySealed || retention.value == LastChunks(0) || retention.value == LastBytes(0) {
        ClearReplay();
        if !replaySealed {
          EmptyWindow(IndexedSize, retention, old(replay));
        }
      } else if retention.value.LastChunks? {
        while replayChunkCount > retention.value.chunks
          invariant Counted() && View() == old(View()).(replay := replay)
          invariant Window(IndexedSize, retention, old(replay)) == Window(IndexedSize, retention, replay)
        {
          DropOldest(IndexedSize, retention.value, replay);
          var removed := PopReplayFront();
        }
      } else if retention.value.LastBytes? {
        while replay != [] && replayByteCount - IndexedSize(replay[0]) >= retention.value.bytes
          invariant Counted() && View() == old(View()).(replay := replay)
          invariant Window(IndexedSize, retention, old(replay)) == Window(IndexedSize, retention, replay)
          decreases |replay|
        {
          DropOldest(IndexedSize, retention.value, replay);
          var removed := PopReplayFront();
        }
      }
      replayStartSeq := if replay == [] then nextSeq else replay[0].index;
    }
  }
}
