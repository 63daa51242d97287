/** A broadcast subscription as an object, and what one receive does to it. */
module BroadcastSubscription {
  import opened Events
  import opened Coverage
  import opened LossyQueue
  import opened BroadcastShared
  import opened Fanout

  /** The first queued event that is not from before the live start, or the end of the queue. */
  function FirstLive(events: seq<IndexedEvent>, liveStart: nat): (k: nat)
    ensures k <= |events|
    ensures k < |events| ==> events[k].index >= liveStart
    ensures forall i :: 0 <= i < k ==> events[i].index < liveStart
  {
    if events == [] || events[0].index >= liveStart then 0 else 1 + FirstLive(events[1..], liveStart)
  }

  /** A receive takes one step of the transition system per skipped event, and one for the event it
      returns. */
  function Steps(u: Subscription): (n: nat)
  {
    if u.replay != [] then 1
    else
      var k := FirstLive(u.queue.events, u.liveStart);
      if k < |u.queue.events| then k + 1 else k
  }

  function Repeat(s: System, h: nat, n: nat): (t: System)
    requires h < |s.subscriptions| && n <= |s.subscriptions[h].replay| + |s.subscriptions[h].queue.events|
    ensures |t.subscriptions| == |s.subscriptions|
    decreases n
  {
    if n == 0 then s else Repeat(Take(s, h), h, n - 1)
  }

  /** The subscription after a receive: everything skipped is gone and at most one event is returned. */
  lemma {:induction false} ReceiveTakesNext(s: System, h: nat, n: nat)
    requires h < |s.subscriptions| && n == Steps(s.subscriptions[h])
    ensures n <= |s.subscriptions[h].replay| + |s.subscriptions[h].queue.events|
    ensures var u, v := s.subscriptions[h], Repeat(s, h, n).subscriptions[h];
            var k := FirstLive(u.queue.events, u.liveStart);
            if u.replay != [] then
              v.received == u.received + [u.replay[0]] && v.replay == u.replay[1..] && v.queue == u.queue
            else if k < |u.queue.events| then
              && v.received == u.received + [u.queue.events[k]] && v.replay == []
              && v.queue.events == u.queue.events[k+1..]
            else
              v.received == u.received && v.replay == [] && v.queue.events == []
    decreases n
  {
    var u := s.subscriptions[h];
    if u.replay == [] && u.queue.events != [] && u.queue.events[0].index < u.liveStart {
      ReceiveTakesNext(Take(s, h), h, n - 1);
      assert Take(s, h).subscriptions[h].queue.events == u.queue.events[1..];
    } else if n == 1 {
      assert Repeat(s, h, 1) == Repeat(Take(s, h), h, 0) == Take(s, h);
    }
  }

  /** The receiving end of a bounded channel. It ends once it is empty and all senders are gone. */
  class ReliableReceiver {
    var events: seq<IndexedEvent>
    var sendersGone: bool

    constructor ()
      ensures events == [] && !sendersGone
    {
      events, sendersGone := [], false;
    }

    method Recv() returns (poll: Poll)
      modifies this
      ensures sendersGone == old(sendersGone)
      ensures old(events) != [] ==> poll == Ready(old(events)[0]) && events == old(events)[1..]
      ensures old(events) == [] ==> events == [] && poll == if sendersGone then Ended else Pending
    {
      if events == [] {
        poll := if sendersGone then Ended else Pending;
      } else {
        poll := Ready(events[0]);
        events := events[1..];
      }
    }
  }

  /** Where live events come from; nowhere if the stream had ended before the subscription. */
  datatype LiveReceiver = Reliable(channel: ReliableReceiver) | BestEffort(queue: BestEffortLiveQueue) | Closed {
    ghost function Footprint(): set<object>
    {
      match this
      case Reliable(channel) => {channel}
      case BestEffort(queue) => {queue}
      case Closed => {}
    }

    ghost function Unread(): seq<IndexedEvent>
      reads Footprint()
    {
      match this
      case Reliable(channel) => channel.events
      case BestEffort(queue) => queue.events
      case Closed => []
    }

    /** Nothing comes after what is unread. */
    ghost predicate IsOver()
      reads Footprint()
    {
      match this
      case Reliable(channel) => channel.sendersGone
      case BestEffort(queue) => queue.closed
      case Closed => true
    }

    method Recv() returns (poll: Poll)
      modifies Footprint()
      ensures IsOver() == old(IsOver())
      ensures old(Unread()) != [] ==> poll == Ready(old(Unread())[0]) && Unread() == old(Unread())[1..]
      ensures old(Unread()) == [] ==> Unread() == [] && poll == if IsOver() then Ended else Pending
    {
      match this {
        case Reliable(channel) => poll := channel.Recv();
        case BestEffort(queue) => poll := queue.Recv();
        case Closed => poll := Ended;
      }
    }
  }

  class SharedSubscription {
    const shared: BroadcastState
    const receiver: LiveReceiver
    const liveStart: nat
    var id: Option<SubscriberId>
    var replay: seq<IndexedEvent>
    var done: bool

    constructor (shared: BroadcastState, receiver: LiveReceiver, id: Option<SubscriberId>,
                 replay: seq<IndexedEvent>, liveStart: nat)
      ensures this.shared == shared && this.receiver == receiver && this.liveStart == liveStart
      ensures this.id == id && this.replay == replay && !done
    {
      this.shared, this.receiver, this.liveStart := shared, receiver, liveStart;
      this.id, this.replay, this.done := id, replay, false;
    }

    /** Unregisters the subscription at most once. */
    method Detach()
      requires shared.Valid()
      modifies this`id, this`done, shared
      ensures shared.Valid() && done && id.None?
      ensures shared.View() == if old(id).Some? then Unregistered(old(shared.View()), {old(id).value})
                               else old(shared.View())
    {
      if id.Some? {
        shared.RemoveSubscriber(id.value);
        id := None;
      }
      done := true;
    }

    /** Replay first, then the first live event, skipping what the replay already held. Exactly a
        terminal event detaches. */
    method Recv() returns (poll: Poll)
      requires shared.Valid()
      modifies this, shared, receiver.Footprint()
      ensures shared.Valid() && receiver.IsOver() == old(receiver.IsOver())
      ensures old(replay) != [] ==>
                && poll == Ready(old(replay)[0]) && replay == old(replay)[1..]
                && receiver.Unread() == old(receiver.Unread())
      ensures old(replay) == [] ==>
                var events := old(receiver.Unread());
                var k := FirstLive(events, liveStart);
                && replay == []
                && (if k < |events| then poll == Ready(events[k]) && receiver.Unread() == events[k+1..]
                    else receiver.Unread() == [] && poll == if receiver.IsOver() then Ended else Pending)
      ensures var terminal := poll.Ready? && poll.event.event.IsTerminal();
              && done == (old(done) || terminal)
              && id == (if terminal then None else old(id))
              && shared.View() == (if terminal && old(id).Some? then Unregistered(old(shared.View()), {old(id).value})
                                   else old(shared.View()))
    {
      if replay != [] {
        poll := Ready(replay[0]);
        replay := replay[1..];
      } else {
        poll := RecvLive();
      }
      if poll.Ready? && poll.event.event.IsTerminal() {
        Detach();
      }
    }

    /** The receive loop: the first live event that the replay did not hold already. */
    method RecvLive() returns (poll: Poll)
      modifies receiver.Footprint()
      ensures receiver.IsOver() == old(receiver.IsOver())
      ensures var events := old(receiver.Unread());
              var k := FirstLive(events, liveStart);
              if k < |events| then poll == Ready(events[k]) && receiver.Unread() == events[k+1..]
              else receiver.Unread() == [] && poll == if receiver.IsOver() then Ended else Pending
    {
      ghost var events := receiver.Unread();
      ghost var k := 0;
      poll := receiver.Recv();
      while poll.Ready? && poll.event.index < liveStart
        invariant k <= FirstLive(events, liveStart)
        invariant poll.Ready? ==> k < |events| && poll.event == events[k] && receiver.Unread() == events[k+1..]
        invariant !poll.Ready? ==> k == |events| && receiver.Unread() == []
        invariant !poll.Ready? ==> poll == if receiver.IsOver() then Ended else Pending
        invariant receiver.IsOver() == old(receiver.IsOver())
        decreases poll.Ready?, |receiver.Unread()|
      {
        poll := receiver.Recv();
        k := k + 1;
      }
    }

    /** Dropping unregisters a subscription that is not detached. */
    method Drop()
      requires shared.Valid()
      modifies this`id, shared
      ensures shared.Valid()
      ensures shared.View() == if !done && old(id).Some? then Unregistered(old(shared.View()), {old(id).value})
                               else old(shared.View())
    {
      if !done && id.Some? {
        shared.RemoveSubscriber(id.value);
        id := None;
      }
    }
  }
}
