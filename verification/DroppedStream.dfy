/** Runs of both backends in which the owner drops the stream in the middle of a line. The consumer is
    shown the beginning of the line as a whole one, although nothing was lost on the way to it. */
module DroppedStream {
  import opened Events
  import opened Subsequences
  import opened LineSpec
  import opened ParserMachine
  import opened GapParsing
  import opened CutOffLines
  import opened Coverage
  import opened Replay
  import opened LossyQueue
  import opened BroadcastShared
  import opened Fanout
  import opened SingleSubscriber
  import opened DiscardedReplay

  const LIMITS := Limits(0, LineOverflowBehavior.DropAdditionalData)

  const CHUNK_AB := IndexedEvent(0, Chunk([97, 98]))

  /** A consumer that received "ab" before its stream closed sees the line "ab". That is a line of no
      stream that goes on with "c". */
  lemma CutOff()
    ensures Drive(LIMITS, FRESH, Unlabelled([CHUNK_AB])) == [[97, 98]]
    ensures Lines(LIMITS, [97, 98, 99]) == [[97, 98, 99]]
    ensures !Subsequence([[97, 98]], Lines(LIMITS, [97, 98, 99]))
    ensures !EndsCleanly(LIMITS, After(LIMITS, FRESH, Unlabelled([CHUNK_AB])).parser)
  {
    var chunks := [Chunk([97, 98])];
    assert Unlabelled([CHUNK_AB]) == chunks;
    OnePayload();
    OneLine(LIMITS, [97, 98]);
    OneLine(LIMITS, [97, 98, 99]);
    NotAmong([97, 98], [97, 98, 99]);
    DriveAfter(LIMITS, FRESH, chunks);
    RechunkingInvariance(LIMITS, chunks);
    BufferScan(LIMITS, [], [97, 98]);
    AfterChunks(LIMITS, FRESH, chunks);
  }

  lemma OnePayload()
    ensures Payload([Chunk([97, 98])]) == [97, 98]
  {
  }

  lemma NotAmong(a: Line, b: Line)
    requires a != b
    ensures !Subsequence([a], [b])
  {
    assert [b][1..] == [];
  }

  // ------------------------------------------------------------------------- the broadcast backend

  const LOSSY := Config(LossyWithoutBackpressure, Some(All), 2, 1)

  lemma {:induction false} NextStep(c: Config, s: System, step: Step)
    requires Reachable(c, s) && Enabled(c, s, step)
    ensures Reachable(c, Apply(c, s, step))
  {
    var run :| IsRun(c, run) && run[|run| - 1] == s;
    var longer := run + [Apply(c, s, step)];
    forall i | 0 <= i < |longer| - 1 ensures IsStep(c, longer[i], longer[i+1]) {
      if i < |run| - 1 {
        assert IsStep(c, run[i], run[i+1]);
      }
    }
    assert IsRun(c, longer) && longer[|longer| - 1] == Apply(c, s, step);
  }

  function Listener(queue: Queue, received: seq<IndexedEvent>, upTo: nat): Subscription
  {
    Subscription(Some(0), false, Handle.Open, [], 0, queue, received, 0, upTo)
  }

  function SharedWith(replay: seq<IndexedEvent>, subscribers: map<SubscriberId, Sender>, closed: bool): Shared
  {
    Shared(replay, |replay|, 1, subscribers, false, None, closed)
  }

  /** A subscription has attached and "ab" was read. */
  const LISTENING :=
    System(SharedWith([], map[0 := 0], false), [Listener(EMPTY_QUEUE, [], 0)], Reading, [97, 98], [], [97, 98])

  lemma ReachListening()
    ensures Reachable(LOSSY, LISTENING)
  {
    assert IsRun(LOSSY, [START]);
    NextStep(LOSSY, START, Subscribe);
    var s := Apply(LOSSY, START, Subscribe);
    assert s == LISTENING.(buffer := [], ingested := []);
    NextStep(LOSSY, s, Read([97, 98]));
    assert Apply(LOSSY, s, Read([97, 98])) == LISTENING;
  }

  /** "ab" was appended. */
  const APPENDED :=
    LISTENING.(shared := SharedWith([CHUNK_AB], map[0 := 0], false), buffer := [], log := [CHUNK_AB.event],
               reader := Delivering(CHUNK_AB, [(0, 0)], {}))

  lemma ReachAppended()
    ensures Reachable(LOSSY, APPENDED)
  {
    ReachListening();
    NextStep(LOSSY, LISTENING, AppendChunk([(0, 0)]));
    assert [97, 98][..2] == [97, 98] && [97, 98][2..] == [];
    assert Apply(LOSSY, LISTENING, AppendChunk([(0, 0)])) == APPENDED;
  }

  lemma ReplaceOnly<T>(a: T, b: T)
    ensures [a][0 := b] == [b] && [a][1..] == []
  {
  }

  /** "ab" was sent. */
  const SENT := APPENDED.(subscriptions := [Listener(Queue([CHUNK_AB], false), [], 1)], reader := Reading)

  lemma ReachSent()
    ensures Reachable(LOSSY, SENT)
  {
    ReachAppended();
    NextStep(LOSSY, APPENDED, SendNext);
    var u, v := APPENDED.subscriptions[0], SENT.subscriptions[0];
    assert EMPTY_QUEUE.events + [CHUNK_AB] == [CHUNK_AB];
    assert Accept(LOSSY, u, CHUNK_AB) == v;
    ReplaceOnly(u, v);
    ReplaceOnly((0, 0), (0, 0));
    var s := Apply(LOSSY, APPENDED, SendNext);
    assert s == SENT.(reader := Delivering(CHUNK_AB, [], {}));
    NextStep(LOSSY, s, FinishDelivery);
    assert SENT.shared.subscribers - {} == SENT.shared.subscribers;
    assert Apply(LOSSY, s, FinishDelivery) == SENT;
  }

  /** "ab" was received. */
  const HEARD := SENT.(subscriptions := [Listener(EMPTY_QUEUE, [CHUNK_AB], 1)])

  lemma ReachHeard()
    ensures Reachable(LOSSY, HEARD)
  {
    ReachSent();
    NextStep(LOSSY, SENT, Receive(0));
    ReplaceOnly(CHUNK_AB, CHUNK_AB);
    var u, v := SENT.subscriptions[0], HEARD.subscriptions[0];
    assert Head(u) == (CHUNK_AB, u.(queue := EMPTY_QUEUE));
    assert u.received + [CHUNK_AB] == v.received;
    ReplaceOnly(u, v);
    assert Take(SENT, 0).subscriptions == [v];
    assert Apply(LOSSY, SENT, Receive(0)) == HEARD;
  }

  /** "c" was read and the stream dropped. */
  const DROPPED :=
    HEARD.(shared := SharedWith([CHUNK_AB], map[], true), reader := Stopped, buffer := [99], ingested := [97, 98, 99],
           subscriptions := [Listener(Queue([], true), [CHUNK_AB], 1)])

  lemma ReachDropped()
    ensures Reachable(LOSSY, DROPPED)
  {
    ReachHeard();
    NextStep(LOSSY, HEARD, Read([99]));
    var s1 := Apply(LOSSY, HEARD, Read([99]));
    assert s1 == HEARD.(buffer := [99], ingested := [97, 98, 99]);
    NextStep(LOSSY, s1, AbortReader);
    var s2 := Apply(LOSSY, s1, AbortReader);
    assert s2 == s1.(reader := Stopped);
    NextStep(LOSSY, s2, DropStream);
    assert 0 in s2.shared.subscribers && s2.shared.subscribers[0] in s2.shared.subscribers.Values;
    assert CloseAll(LOSSY, s2).subscriptions == DROPPED.subscriptions;
    assert Apply(LOSSY, s2, DropStream) == DROPPED;
  }

  /** The subscription has ended without a terminal event, and its consumer has seen the line "ab",
      although the child wrote "abc". */
  lemma BroadcastCutsLineOff() returns (s: System)
    ensures ValidConfig(LOSSY) && Reachable(LOSSY, s) && |s.subscriptions| == 1
    ensures var u := s.subscriptions[0];
            && u.replay == [] && u.queue == Queue([], true) && u.received == [CHUNK_AB]
            && Drive(LIMITS, FRESH, Unlabelled(u.received)) == [[97, 98]]
            && Lines(LIMITS, s.ingested) == [[97, 98, 99]]
            && !Subsequence(Drive(LIMITS, FRESH, Unlabelled(u.received)), Lines(LIMITS, s.ingested))
  {
    s := DROPPED;
    ReachDropped();
    CutOff();
  }

  // ------------------------------------------------------------------------- the single-subscriber backend

  const RELIABLE := Config(ReliableWithBackpressure, None, 2, 1)

  function Reader(channel: seq<IndexedEvent>, received: seq<IndexedEvent>, hi: nat): Subscriber
  {
    Subscriber(Handle.Open, true, [], None, channel, received, received, [], 0, false, 0, hi, 0)
  }

  /** A subscriber has attached and "ab" was read. */
  const ATTACHED :=
    Stream(SharedBy([], None, Some(0), 1), false, [Reader([], [], 0)], Idle, None, Lag(None, false), [97, 98], [], [],
           [97, 98])

  lemma ReachAttached()
    ensures CanReach(RELIABLE, ATTACHED)
  {
    DiscardedReplay.Start(RELIABLE);
    Extend(RELIABLE, INITIAL_STREAM, TrySubscribe);
    var s := Do(RELIABLE, INITIAL_STREAM, TrySubscribe);
    assert s == ATTACHED.(buffer := [], ingested := []);
    Extend(RELIABLE, s, ReadBytes([97, 98]));
    assert Do(RELIABLE, s, ReadBytes([97, 98])) == ATTACHED;
  }

  /** "ab" is being sent. */
  const SENDING :=
    ATTACHED.(buffer := [], log := [CHUNK_AB.event], recorded := [CHUNK_AB], cached := Some(0),
              reader := Sending(Reliably(CHUNK_AB, false, false)))

  lemma ReachSending()
    ensures CanReach(RELIABLE, SENDING)
  {
    ReachAttached();
    Extend(RELIABLE, ATTACHED, RecordChunk);
    assert [97, 98][..2] == [97, 98] && [97, 98][2..] == [];
    assert Do(RELIABLE, ATTACHED, RecordChunk) == SENDING;
  }

  /** "ab" was sent and received. */
  const TAKEN := SENDING.(subscribers := [Reader([], [CHUNK_AB], 1)], reader := Idle)

  lemma ReachTaken()
    ensures CanReach(RELIABLE, TAKEN)
  {
    ReachSending();
    Extend(RELIABLE, SENDING, SendEvent);
    var u := SENDING.subscribers[0];
    var v := Deliver(u, CHUNK_AB, 1);
    assert LiveEvents(u) == [] && v == u.(channel := [CHUNK_AB], hi := 1);
    var s := Do(RELIABLE, SENDING, SendEvent);
    assert s == SENDING.(subscribers := [v], reader := Idle);
    Extend(RELIABLE, s, NextEvent(0));
    assert Taken(v) == Reader([], [CHUNK_AB], 1);
    assert Do(RELIABLE, s, NextEvent(0)) == TAKEN;
  }

  /** "c" was read and the stream dropped. */
  const GONE_AWAY :=
    TAKEN.(shared := SharedBy([], None, None, 1), dropped := true, reader := Halted, buffer := [99],
           ingested := [97, 98, 99])

  lemma ReachGoneAway()
    ensures CanReach(RELIABLE, GONE_AWAY)
  {
    ReachTaken();
    Extend(RELIABLE, TAKEN, ReadBytes([99]));
    var s1 := Do(RELIABLE, TAKEN, ReadBytes([99]));
    assert s1 == TAKEN.(buffer := [99], ingested := [97, 98, 99]);
    Extend(RELIABLE, s1, Abort);
    var s2 := Do(RELIABLE, s1, Abort);
    assert s2 == s1.(reader := Halted);
    Extend(RELIABLE, s2, DropOwner);
    assert Do(RELIABLE, s2, DropOwner) == GONE_AWAY;
  }

  /** The same with the single-subscriber backend and reliable delivery: the reader has halted and
      nobody is active, so no sender is left and the empty channel has ended. */
  lemma SingleCutsLineOff() returns (s: Stream)
    ensures ValidConfig(RELIABLE) && CanReach(RELIABLE, s) && |s.subscribers| == 1
    ensures s.reader.Halted? && s.shared.watch.None?
    ensures var u := s.subscribers[0];
            && !HasNext(u) && u.received == [CHUNK_AB]
            && Drive(LIMITS, FRESH, Unlabelled(u.received)) == [[97, 98]]
            && Lines(LIMITS, s.ingested) == [[97, 98, 99]]
            && !Subsequence(Drive(LIMITS, FRESH, Unlabelled(u.received)), Lines(LIMITS, s.ingested))
  {
    s := GONE_AWAY;
    ReachGoneAway();
    CutOff();
  }
}
