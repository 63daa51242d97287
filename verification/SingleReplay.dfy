/** The single-subscriber backend's lock-protected state, its shared handle and its subscription, as
    objects that implement the states of the transition system. */
module SingleReplay {
  import opened Events
  import opened Coverage
  import opened Replay
  import opened BroadcastShared
  import opened SingleSubscriber

  // ------------------------------------------------------------------------- unlabelled windows

  lemma {:induction false} TotalUnlabelled(items: seq<IndexedEvent>)
    ensures Total(IndexedSize, items) == Total(EventSize, Unlabelled(items))
  {
    if items != [] {
      TotalUnlabelled(items[1..]);
      assert Unlabelled(items)[1..] == Unlabelled(items[1..]);
    }
  }

  lemma {:induction false} CoverUnlabelled(bytes: nat, items: seq<IndexedEvent>)
    ensures Unlabelled(ShortestCover(IndexedSize, bytes, items)) == ShortestCover(EventSize, bytes, Unlabelled(items))
  {
    if items != [] {
      TotalUnlabelled(items[1..]);
      CoverUnlabelled(bytes, items[1..]);
      assert Unlabelled(items)[1..] == Unlabelled(items[1..]);
    }
  }

  /** Retention looks only at the events, never at their positions: both backends keep the same
      window of the same output. */
  lemma WindowUnlabelled(retention: Option<ReplayRetention>, items: seq<IndexedEvent>)
    ensures Unlabelled(Window(IndexedSize, retention, items)) == Window(EventSize, retention, Unlabelled(items))
  {
    if retention.Some? && retention.value.LastBytes? {
      CoverUnlabelled(retention.value.bytes, items);
    }
  }

  function TerminalOf(e: Option<IndexedEvent>): Option<StreamEvent> {
    if e.Some? then Some(e.value.event) else None
  }

  // ------------------------------------------------------------------------- the locked state

  class ReplayState {
    var events: seq<StreamEvent>
    var chunkCount: nat
    var byteCount: nat
    var replaySealed: bool
    var terminalEvent: Option<StreamEvent>
    var activeId: Option<SubscriberId>
    var nextSubscriberId: SubscriberId

    /** The history holds chunks only and the counters agree with it. */
    predicate Valid()
      reads this
    {
      && (forall i :: 0 <= i < |events| ==> events[i].Chunk?)
      && chunkCount == |events|
      && byteCount == Total(EventSize, events)
    }

    constructor ()
      ensures Valid() && events == [] && !replaySealed && terminalEvent.None? && activeId.None? && nextSubscriberId == 0
    {
      events, chunkCount, byteCount, replaySealed := [], 0, 0, false;
      terminalEvent, activeId, nextSubscriberId := None, None, 0;
    }

    /** Records an event for later subscribers and says whether they receive it. */
    method PushReplayEvent(event: StreamEvent, retention: Option<ReplayRetention>) returns (recorded: bool)
      requires Valid()
      modifies this`events, this`chunkCount, this`byteCount, this`terminalEvent
      ensures Valid()
      ensures var kept := event.Chunk? && retention.Some? && !replaySealed;
              && events == (if kept then Window(EventSize, retention, old(events) + [event]) else old(events))
              && terminalEvent == (if event.IsTerminal() then Some(event) else old(terminalEvent))
              && recorded == (event.IsTerminal() || (kept && events != []))
    {
      match event {
        case Eof =>
          terminalEvent := Some(event);
          recorded := true;
        case ReadError(_) =>
          terminalEvent := Some(event);
          recorded := true;
        case Chunk(_) =>
          if retention.Some? && !replaySealed {
            PushRetainedEvent(event);
            TrimReplayWindow(retention);
            recorded := events != [];
          } else {
            recorded := false;
          }
        case Gap =>
          recorded := false;
      }
    }

    method PushRetainedEvent(event: StreamEvent)
      requires Valid() && event.Chunk?
      modifies this`events, this`chunkCount, this`byteCount
      ensures Valid() && events == old(events) + [event]
    {
      TotalAppend(EventSize, events, [event]);
      assert Total(EventSize, [event]) == |event.bytes|;
      chunkCount := chunkCount + 1;
      byteCount := byteCount + |event.bytes|;
      events := events + [event];
    }

    method PopReplayFront() returns (event: Option<StreamEvent>)
      requires Valid()
      modifies this`events, this`chunkCount, this`byteCount
      ensures Valid()
      ensures old(events) == [] ==> event.None? && events == []
      ensures old(events) != [] ==> event == Some(old(events)[0]) && events == old(events)[1..]
    {
      if events == [] {
        return None;
      }
      event := Some(events[0]);
      events := events[1..];
      chunkCount := chunkCount - 1;
      byteCount := byteCount - |event.value.bytes|;
    }

    method PopAll()
      requires Valid()
      modifies this`events, this`chunkCount, this`byteCount
      ensures Valid() && events == []
    {
      while events != []
        invariant Valid()
        decreases |events|
      {
        var removed := PopReplayFront();
      }
    }

    /** Removes what the retention does not keep. */
    method TrimReplayWindow(retention: Option<ReplayRetention>)
      requires Valid()
      modifies this`events, this`chunkCount, this`byteCount
      ensures Valid()
      ensures events == if replaySealed then [] else Window(EventSize, retention, old(events))
    {
      if retention.None? || replaySealed || retention.value == LastChunks(0) || retention.value == LastBytes(0) {
        PopAll();
        if !replaySealed {
          EmptyWindow(EventSize, retention, old(events));
        }
      } else if retention.value.LastChunks? {
        while chunkCount > retention.value.chunks
          invariant Valid()
          invariant Window(EventSize, retention, old(events)) == Window(EventSize, retention, events)
        {
          DropOldest(EventSize, retention.value, events);
          var removed := PopReplayFront();
        }
      } else if retention.value.LastBytes? {
        while events != [] && byteCount - |events[0].bytes| >= retention.value.bytes
          invariant Valid()
          invariant Window(EventSize, retention, old(events)) == Window(EventSize, retention, events)
          decreases |events|
        {
          DropOldest(EventSize, retention.value, events);
          var removed := PopReplayFront();
        }
      }
    }

    method AttachSubscriber() returns (id: SubscriberId)
      modifies this`activeId, this`nextSubscriberId
      ensures id == old(nextSubscriberId) && nextSubscriberId == id + 1 && activeId == Some(id)
    {
      id := nextSubscriberId;
      nextSubscriberId := nextSubscriberId + 1;
      activeId := Some(id);
    }
  }

  // ------------------------------------------------------------------------- the shared handle

  /** `model` is the state of the transition system that this object implements. */
  class ConfiguredShared {
    const state: ReplayState
    var active: Option<SubscriberId>
    ghost var model: SharedState

    ghost predicate Valid()
      reads this, state
    {
      && state.Valid()
      && state.events == Unlabelled(model.events)
      && state.replaySealed == model.replaySealed
      && state.terminalEvent == TerminalOf(model.terminal)
      && state.activeId == model.activeId
      && state.nextSubscriberId == model.nextSubscriberId
      && active == model.watch
    }

    constructor ()
      ensures Valid() && fresh(state) && model == INITIAL_STREAM.shared
    {
      state := new ReplayState();
      active := None;
      model := INITIAL_STREAM.shared;
    }

    /** Recording and refreshing the cache are one critical section. */
    method RecordEvent(event: StreamEvent, retention: Option<ReplayRetention>, ghost index: nat)
      returns (recorded: bool, cached: Option<SubscriberId>)
      requires Valid()
      modifies this, state
      ensures Valid() && model == RecordedIn(old(model), IndexedEvent(index, event), retention)
      ensures recorded == IsRecorded(old(model), IndexedEvent(index, event), retention)
      ensures cached == old(model).watch
    {
      ghost var e := IndexedEvent(index, event);
      WindowUnlabelled(retention, model.events + [e]);
      assert Unlabelled(model.events + [e]) == state.events + [event];
      recorded := state.PushReplayEvent(event, retention);
      model := RecordedIn(model, e, retention);
      cached := active;
    }

    method ClearActiveIfCurrent(id: SubscriberId)
      requires Valid()
      modifies this, state
      ensures Valid() && model == ClearedIfCurrent(old(model), id)
    {
      if state.activeId == Some(id) {
        state.activeId := None;
        active := None;
      }
      model := ClearedIfCurrent(model, id);
    }

    method ClearActive()
      requires Valid()
      modifies this, state
      ensures Valid() && model == ClearedOfClaim(old(model))
    {
      state.activeId := None;
      active := None;
      model := ClearedOfClaim(model);
    }

    method SealReplay(retention: Option<ReplayRetention>)
      requires Valid()
      modifies this, state
      ensures Valid() && model == SealedIn(old(model))
    {
      state.replaySealed := true;
      state.TrimReplayWindow(retention);
      model := SealedIn(model);
    }

    /** Refused while another subscriber holds the claim; otherwise the new one takes the claim and
        gets the replay window and the terminal event, all under the lock. */
    method TrySubscribe(retention: Option<ReplayRetention>) returns (subscription: Option<SingleSubscription>)
      requires Valid()
      modifies this, state
      ensures Valid()
      ensures subscription.None? <==> old(model).activeId.Some?
      ensures subscription.None? ==> model == old(model)
      ensures subscription.Some? ==>
                var id := old(model).nextSubscriberId;
                && model == old(model).(activeId := Some(id), nextSubscriberId := id + 1, watch := Some(id))
                && fresh(subscription.value) && subscription.value.id == id
                && subscription.value.replay == Unlabelled(ReplaySnapshot(old(model), retention))
                && subscription.value.terminalEvent == TerminalOf(old(model).terminal)
                && subscription.value.liveReceiver == Some([])
    {
      if state.activeId.Some? {
        return None;
      }
      var replay := if state.replaySealed || retention.None? then [] else state.events;
      var id := state.AttachSubscriber();
      active := Some(id);
      model := model.(activeId := Some(id), nextSubscriberId := id + 1, watch := Some(id));
      var s := new SingleSubscription(id, replay, state.terminalEvent);
      subscription := Some(s);
    }
  }

  // ------------------------------------------------------------------------- the subscription

  /** A subscription; the live receiver is its channel until it is closed. */
  class SingleSubscription {
    const id: SubscriberId
    var replay: seq<StreamEvent>
    var terminalEvent: Option<StreamEvent>
    var liveReceiver: Option<seq<StreamEvent>>

    constructor (id: SubscriberId, replay: seq<StreamEvent>, terminalEvent: Option<StreamEvent>)
      ensures this.id == id && this.replay == replay && this.terminalEvent == terminalEvent && liveReceiver == Some([])
    {
      this.id, this.replay, this.terminalEvent, this.liveReceiver := id, replay, terminalEvent, Some([]);
    }

    /** Whether this object is subscriber `u` of the transition system. */
    predicate Is(u: Subscriber)
      reads this
    {
      && replay == Unlabelled(u.replay)
      && terminalEvent == TerminalOf(u.terminal)
      && (liveReceiver.Some? <==> u.receiver)
      && (u.receiver ==> liveReceiver.value == Unlabelled(u.channel))
    }

    /** The next event: replay, then the stored terminal event, then live events; nothing exactly if
        the transition system has nothing to receive. */
    method NextEvent(ghost u: Subscriber) returns (event: Option<StreamEvent>)
      requires Is(u)
      modifies this
      ensures event.Some? <==> HasNext(u)
      ensures !HasNext(u) ==> Is(u)
      ensures HasNext(u) ==> Is(Taken(u)) && Taken(u).received == u.received + [Taken(u).received[|u.received|]]
                             && event.value == Taken(u).received[|u.received|].event
    {
      if replay != [] {
        event := Some(replay[0]);
        replay := replay[1..];
        assert Unlabelled(u.replay)[1..] == Unlabelled(u.replay[1..]);
        return;
      }
      if terminalEvent.Some? {
        event := terminalEvent;
        terminalEvent := None;
        liveReceiver := None;
        return;
      }
      match liveReceiver {
        case Some(channel) =>
          if channel == [] {
            return None;
          }
          event := Some(channel[0]);
          liveReceiver := Some(channel[1..]);
          assert Unlabelled(u.channel)[1..] == Unlabelled(u.channel[1..]);
        case None =>
          event := None;
      }
    }

    /** Dropping closes the receiver and gives up the claim, but only its own. */
    method Drop(shared: ConfiguredShared)
      requires shared.Valid()
      modifies this, shared, shared.state
      ensures liveReceiver.None?
      ensures shared.Valid() && shared.model == ClearedIfCurrent(old(shared.model), id)
    {
      liveReceiver := None;
      shared.ClearActiveIfCurrent(id);
    }
  }
}
