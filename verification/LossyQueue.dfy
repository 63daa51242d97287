/** The bounded queue of a lossy subscriber. When it overflows, everything unread collapses into a
    single gap. */
module LossyQueue {
  import opened Events
  import opened Coverage

  datatype Queue = Queue(events: seq<IndexedEvent>, closed: bool)

  /** The result of polling a queue: an event, the end, or nothing yet. */
  datatype Poll = Ready(event: IndexedEvent) | Ended | Pending

  const EMPTY_QUEUE := Queue([], false)

  /** The queue after an accepted event. */
  function Pushed(q: Queue, capacity: nat, e: IndexedEvent): (r: Queue)
    requires !q.closed
  {
    if e.event.IsTerminal() then Queue(q.events + [e], true)
    else if |q.events| < capacity then Queue(q.events + [e], false)
    else
      var gap := IndexedEvent(e.index, Gap);
      Queue(if capacity > 1 then [gap, e] else [gap], false)
  }

  /** Gaps only at the head, at most `capacity` events besides a terminal one, and nothing after
      the terminal event, which closes the queue. */
  predicate QueueShape(q: Queue, capacity: nat)
  {
    var n := |q.events|;
    && (forall i :: 0 < i < n ==> !q.events[i].event.Gap?)
    && (forall i :: 0 <= i < n - 1 ==> !q.events[i].event.IsTerminal())
    && (n > 0 && q.events[n-1].event.IsTerminal() ==> q.closed)
    && (n <= capacity || (n == capacity + 1 && q.events[n-1].event.IsTerminal()))
  }

  lemma PushKeepsShape(q: Queue, capacity: nat, e: IndexedEvent)
    requires QueueShape(q, capacity) && capacity > 0 && !q.closed && !e.event.Gap?
    ensures QueueShape(Pushed(q, capacity, e), capacity)
  {
  }

  /** A push accounts for the next event of the log: it is appended, or the unread events and
      possibly the new one are replaced by a gap. */
  lemma PushCovers(log: seq<StreamEvent>, seen: seq<IndexedEvent>, q: Queue, capacity: nat, lo: nat, hi: nat)
    requires capacity > 0 && !q.closed && hi < |log| && !log[hi].Gap?
    requires Covers(log, seen + q.events, lo, hi)
    ensures Covers(log, seen + Pushed(q, capacity, IndexedEvent(hi, log[hi])).events, lo, hi + 1)
  {
    var e := IndexedEvent(hi, log[hi]);
    if e.event.IsTerminal() || |q.events| < capacity {
      CoversNext(log, seen + q.events, lo, hi);
      assert seen + q.events + [e] == seen + (q.events + [e]);
    } else {
      var mid := CoversSplit(log, seen, q.events, lo, hi);
      CoversBounds(log, q.events, mid, hi);
      var gap := IndexedEvent(hi, Gap);
      if capacity > 1 {
        CoversGap(log, seen, gap, lo, mid, hi);
        CoversNext(log, seen + [gap], lo, hi);
        assert seen + [gap] + [e] == seen + [gap, e];
      } else {
        CoversGap(log, seen, gap, lo, mid, hi + 1);
      }
    }
  }

  class BestEffortLiveQueue {
    const capacity: nat
    var events: seq<IndexedEvent>
    var closed: bool

    function View(): (q: Queue)
      reads this
    {
      Queue(events, closed)
    }

    constructor (capacity: nat)
      ensures View() == EMPTY_QUEUE && this.capacity == capacity
    {
      this.capacity, events, closed := capacity, [], false;
    }

    /** A closed queue rejects the event. */
    method Push(event: IndexedEvent) returns (accepted: bool)
      modifies this
      ensures accepted == !old(closed)
      ensures View() == if accepted then Pushed(old(View()), capacity, event) else old(View())
    {
      if closed {
        return false;
      }
      match event.event {
        case Chunk(_) =>
          PushLossy(event);
        case Gap =>
          PushLossy(event);
        case Eof =>
          events := events + [event];
          closed := true;
        case ReadError(_) =>
          events := events + [event];
          closed := true;
      }
      accepted := true;
    }

    method PushLossy(event: IndexedEvent)
      modifies this
      ensures closed == old(closed)
      ensures |old(events)| < capacity ==> events == old(events) + [event]
      ensures |old(events)| >= capacity ==>
                events == [IndexedEvent(event.index, Gap)] + if capacity > 1 then [event] else []
    {
      if |events| >= capacity {
        events := [];
        events := events + [IndexedEvent(event.index, Gap)];
        if capacity > 1 {
          events := events + [event];
        }
      } else {
        events := events + [event];
      }
    }

    /** One poll of the receive loop; `Pending` is where the source waits to be notified. */
    method Recv() returns (poll: Poll)
      modifies this
      ensures closed == old(closed)
      ensures old(events) != [] ==> poll == Ready(old(events)[0]) && events == old(events)[1..]
      ensures old(events) == [] ==> events == [] && poll == if closed then Ended else Pending
    {
      if events != [] {
        poll := Ready(events[0]);
        events := events[1..];
      } else if closed {
        poll := Ended;
      } else {
        poll := Pending;
      }
    }

    method Close()
      modifies this
      ensures View() == Queue(old(events), true)
    {
      closed := true;
    }
  }
}
