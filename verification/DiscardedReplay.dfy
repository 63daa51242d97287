/** A run of the lossy single-subscriber backend in which a consumer sees a line that the child never
    wrote: the reader discards a buffer while one subscriber lags, and the next subscriber replays
    what was recorded before and receives what came after, with nothing in between. */
module DiscardedReplay {
  import opened Events
  import opened LineSpec
  import opened ParserMachine
  import opened GapParsing
  import opened Coverage
  import opened Replay
  import opened Fanout
  import opened FanoutTheorems
  import opened SingleSubscriber
  import opened ReplayTheorems

  const CONFIG := Config(LossyWithoutBackpressure, Some(All), 2, 1)

  const CHUNK_A := IndexedEvent(0, Chunk([97]))
  const CHUNK_B := IndexedEvent(1, Chunk([98]))
  const LOST := Chunk([NEWLINE, 99])
  const CHUNK_D := IndexedEvent(3, Chunk([100]))
  const END := IndexedEvent(4, Eof)

  // ------------------------------------------------------------------------- playing actions

  lemma {:induction false} Extend(c: Config, s: Stream, a: Action)
    requires ValidConfig(c) && CanReach(c, s) && CanDo(c, s, a)
    ensures CanReach(c, Do(c, s, a))
  {
    var run :| IsHistory(c, run) && run[|run| - 1] == s;
    var longer := run + [Do(c, s, a)];
    forall i | 0 <= i < |longer| - 1 ensures IsAction(c, longer[i], longer[i+1]) {
      if i < |run| - 1 {
        assert IsAction(c, run[i], run[i+1]);
      }
    }
    assert IsHistory(c, longer) && longer[|longer| - 1] == Do(c, s, a);
  }

  lemma Start(c: Config)
    requires ValidConfig(c)
    ensures CanReach(c, INITIAL_STREAM)
  {
    assert IsHistory(c, [INITIAL_STREAM]);
  }

  lemma ReplaceSecond<T>(a: T, b: T, c: T)
    ensures [a, b][1 := c] == [a, c]
  {
  }

  // ------------------------------------------------------------------------- the run

  /** The lagging subscriber with the first chunk in its channel. */
  const LAGGARD := Subscriber(Open, true, [], None, [CHUNK_A], [], [], [], 0, false, 0, 1, 0)

  function SharedBy(events: seq<IndexedEvent>, terminal: Option<IndexedEvent>, active: Option<nat>,
                    next: nat): SharedState
  {
    SharedState(events, false, terminal, active, next, active)
  }

  /** "a" was delivered. */
  const DELIVERED :=
    Stream(SharedBy([CHUNK_A], None, Some(0), 1), false, [LAGGARD], Idle, Some(0), Lag(None, false), [],
           [Chunk([97])], [CHUNK_A], [97])

  const NEWCOMER := Subscriber(Open, true, [], None, [], [], [], [], 0, false, 0, 0, 0)

  /** "a" was read. */
  const READ :=
    Stream(SharedBy([], None, Some(0), 1), false, [NEWCOMER], Ready, None, Lag(None, false), [97], [], [], [97])

  lemma ReachRead()
    ensures CanReach(CONFIG, READ)
  {
    Start(CONFIG);
    var s1 := Do(CONFIG, INITIAL_STREAM, TrySubscribe);
    Extend(CONFIG, INITIAL_STREAM, TrySubscribe);
    assert s1 == INITIAL_STREAM.(shared := SharedBy([], None, Some(0), 1), subscribers := [NEWCOMER]);
    var s2 := Do(CONFIG, s1, ReadBytes([97]));
    Extend(CONFIG, s1, ReadBytes([97]));
    assert s2 == s1.(buffer := [97], ingested := [97]);
    Extend(CONFIG, s2, ObserveActive);
    assert Do(CONFIG, s2, ObserveActive) == READ;
  }

  const RECORDED := DELIVERED.(subscribers := [NEWCOMER], reader := Sending(TryChunk(CHUNK_A, true, false)))

  lemma ReachRecorded()
    ensures CanReach(CONFIG, RECORDED)
  {
    ReachRead();
    Extend(CONFIG, READ, RecordChunk);
    assert [97][..1] == [97] && [97][1..] == [];
    assert RecordedIn(READ.shared, CHUNK_A, Some(All)) == DELIVERED.shared;
    assert Do(CONFIG, READ, RecordChunk) == RECORDED;
  }

  lemma ReachDelivered()
    ensures CanReach(CONFIG, DELIVERED)
  {
    ReachRecorded();
    Extend(CONFIG, RECORDED, SendEvent);
    assert LiveEvents(NEWCOMER) == [] && Deliver(NEWCOMER, CHUNK_A, 1) == LAGGARD;
    assert Do(CONFIG, RECORDED, SendEvent) == DELIVERED;
  }

  /** "b" was recorded and found the channel full. */
  const LAGGING :=
    DELIVERED.(shared := SharedBy([CHUNK_A, CHUNK_B], None, Some(0), 1), lag := Lag(Some(0), true),
               log := [Chunk([97]), Chunk([98])], recorded := [CHUNK_A, CHUNK_B], ingested := [97, 98])

  const LAGGING_SOON :=
    DELIVERED.(buffer := [98], ingested := [97, 98], reader := Ready, lag := Lag(Some(0), false))

  lemma ReachLaggingSoon()
    ensures CanReach(CONFIG, LAGGING_SOON)
  {
    ReachDelivered();
    var s := Do(CONFIG, DELIVERED, ReadBytes([98]));
    Extend(CONFIG, DELIVERED, ReadBytes([98]));
    assert [97] + [98] == [97, 98];
    assert s == DELIVERED.(buffer := [98], ingested := [97, 98]);
    Extend(CONFIG, s, ObserveActive);
    assert Do(CONFIG, s, ObserveActive) == LAGGING_SOON;
  }

  const FULL := LAGGING.(lag := Lag(Some(0), false), reader := Sending(TryChunk(CHUNK_B, true, false)))

  lemma ReachFull()
    ensures CanReach(CONFIG, FULL)
  {
    ReachLaggingSoon();
    Extend(CONFIG, LAGGING_SOON, RecordChunk);
    assert [98][..1] == [98] && [98][1..] == [];
    assert RecordedIn(LAGGING_SOON.shared, CHUNK_B, Some(All)) == LAGGING.shared;
    assert Do(CONFIG, LAGGING_SOON, RecordChunk) == FULL;
  }

  lemma ReachLagging()
    ensures CanReach(CONFIG, LAGGING)
  {
    ReachFull();
    Extend(CONFIG, FULL, SendEvent);
    assert Do(CONFIG, FULL, SendEvent) == LAGGING;
  }

  /** "\nc" was discarded, since the gap could not be sent either. */
  const DISCARDED := LAGGING.(log := [Chunk([97]), Chunk([98]), LOST], ingested := [97, 98, NEWLINE, 99])

  lemma ReachDiscarded()
    ensures CanReach(CONFIG, DISCARDED)
  {
    ReachLagging();
    var s1 := Do(CONFIG, LAGGING, ReadBytes([NEWLINE, 99]));
    Extend(CONFIG, LAGGING, ReadBytes([NEWLINE, 99]));
    assert s1 == LAGGING.(buffer := [NEWLINE, 99], ingested := [97, 98, NEWLINE, 99]);
    var s2 := Do(CONFIG, s1, ObserveActive);
    Extend(CONFIG, s1, ObserveActive);
    assert s2 == s1.(reader := Sending(TryGap));
    var s3 := Do(CONFIG, s2, SendEvent);
    Extend(CONFIG, s2, SendEvent);
    assert s3 == s2.(reader := Discarding);
    Extend(CONFIG, s3, DiscardBuffer);
    assert [NEWLINE, 99][..2] == [NEWLINE, 99] && [NEWLINE, 99][2..] == [];
    assert SplitBuffer(2, [NEWLINE, 99]) == [LOST];
    assert Do(CONFIG, s3, DiscardBuffer) == DISCARDED;
  }

  const GONE := LAGGARD.(handle := Dropped, receiver := false)

  /** The second subscriber, at various times. */
  function Newer(replay: seq<IndexedEvent>, channel: seq<IndexedEvent>, received: seq<IndexedEvent>,
                 live: seq<IndexedEvent>, hi: nat): Subscriber
  {
    Subscriber(Open, true, replay, None, channel, received, live, [CHUNK_A, CHUNK_B], 3, false, 3, hi, 2)
  }

  /** The laggard is gone and a second subscriber replays "a" and "b". */
  const REPLACED :=
    DISCARDED.(shared := SharedBy([CHUNK_A, CHUNK_B], None, Some(1), 2),
               subscribers := [GONE, Newer([CHUNK_A, CHUNK_B], [], [], [], 3)])

  lemma ReachReplaced()
    ensures CanReach(CONFIG, REPLACED)
  {
    ReachDiscarded();
    var s1 := Do(CONFIG, DISCARDED, CloseReceiver(0));
    Extend(CONFIG, DISCARDED, CloseReceiver(0));
    assert s1 == DISCARDED.(subscribers := [LAGGARD.(handle := Dropping, receiver := false)]);
    var s2 := Do(CONFIG, s1, GiveUpClaim(0));
    Extend(CONFIG, s1, GiveUpClaim(0));
    assert s2 == s1.(subscribers := [GONE], shared := SharedBy([CHUNK_A, CHUNK_B], None, None, 1));
    Extend(CONFIG, s2, TrySubscribe);
    assert Do(CONFIG, s2, TrySubscribe) == REPLACED;
  }

  /** "d" was read and the reader found out that its subscriber is gone. */
  const REFRESHED :=
    REPLACED.(buffer := [100], ingested := [97, 98, NEWLINE, 99, 100], reader := Ready, cached := Some(1),
              lag := Lag(Some(1), false))

  lemma ReachRefreshed()
    ensures CanReach(CONFIG, REFRESHED)
  {
    ReachReplaced();
    var s1 := Do(CONFIG, REPLACED, ReadBytes([100]));
    Extend(CONFIG, REPLACED, ReadBytes([100]));
    assert s1 == REPLACED.(buffer := [100], ingested := [97, 98, NEWLINE, 99, 100]);
    var s2 := Do(CONFIG, s1, ObserveActive);
    Extend(CONFIG, s1, ObserveActive);
    assert s2 == s1.(reader := Sending(TryGap));
    var s3 := Do(CONFIG, s2, SendEvent);
    Extend(CONFIG, s2, SendEvent);
    assert s3 == s2.(reader := Failed(TryGap, 0));
    var s4 := Do(CONFIG, s3, ClearClaim);
    Extend(CONFIG, s3, ClearClaim);
    assert s4 == s3.(reader := Cleared(TryGap, 0));
    Extend(CONFIG, s4, RefreshAfterFailure);
    assert Do(CONFIG, s4, RefreshAfterFailure) == REFRESHED;
  }

  /** "d" was delivered to the second subscriber. */
  const CONTINUED :=
    REFRESHED.(shared := SharedBy([CHUNK_A, CHUNK_B, CHUNK_D], None, Some(1), 2), buffer := [], reader := Idle,
               log := [Chunk([97]), Chunk([98]), LOST, Chunk([100])], recorded := [CHUNK_A, CHUNK_B, CHUNK_D],
               subscribers := [GONE, Newer([CHUNK_A, CHUNK_B], [CHUNK_D], [], [], 4)])

  const CONTINUING :=
    CONTINUED.(subscribers := REFRESHED.subscribers, reader := Sending(TryChunk(CHUNK_D, true, false)))

  lemma ReachContinuing()
    ensures CanReach(CONFIG, CONTINUING)
  {
    ReachRefreshed();
    Extend(CONFIG, REFRESHED, RecordChunk);
    assert [100][..1] == [100] && [100][1..] == [];
    assert Do(CONFIG, REFRESHED, RecordChunk) == CONTINUING;
  }

  lemma ReachContinued()
    ensures CanReach(CONFIG, CONTINUED)
  {
    ReachContinuing();
    Extend(CONFIG, CONTINUING, SendEvent);
    var u, v := REFRESHED.subscribers[1], CONTINUED.subscribers[1];
    assert LiveEvents(u) == [] && Deliver(u, CHUNK_D, 4) == v;
    ReplaceSecond(GONE, u, v);
    assert Do(CONFIG, CONTINUING, SendEvent) == CONTINUED;
  }

  /** The second subscriber has returned everything but the end. */
  const RECEIVED :=
    CONTINUED.(subscribers := [GONE, Newer([], [], [CHUNK_A, CHUNK_B, CHUNK_D], [CHUNK_D], 4)])

  lemma ReachReceived()
    ensures CanReach(CONFIG, RECEIVED)
  {
    ReachReplayed();
    var t := Receive(REPLAYED, REPLAYED.subscribers[1], RECEIVED.subscribers[1]);
  }

  /** The second subscriber has returned what it had to replay. */
  const REPLAYED := CONTINUED.(subscribers := [GONE, Newer([], [CHUNK_D], [CHUNK_A, CHUNK_B], [], 4)])

  lemma ReachReplayed()
    ensures CanReach(CONFIG, REPLAYED)
  {
    ReachContinued();
    var u := Newer([CHUNK_B], [CHUNK_D], [CHUNK_A], [], 4);
    assert [CHUNK_A, CHUNK_B][1..] == [CHUNK_B];
    var s := Receive(CONTINUED, CONTINUED.subscribers[1], u);
    var t := Receive(s, u, REPLAYED.subscribers[1]);
  }

  /** The second subscriber receives. */
  lemma Receive(s: Stream, u: Subscriber, v: Subscriber) returns (t: Stream)
    requires CanReach(CONFIG, s) && s.subscribers == [GONE, u] && u.handle.Open? && HasNext(u) && v == Taken(u)
    ensures t == s.(subscribers := [GONE, v]) && CanReach(CONFIG, t)
  {
    Extend(CONFIG, s, NextEvent(1));
    ReplaceSecond(GONE, u, v);
    t := Do(CONFIG, s, NextEvent(1));
  }

  /** The stream has ended and the second subscriber knows. */
  const ENDED :=
    RECEIVED.(shared := SharedBy([CHUNK_A, CHUNK_B, CHUNK_D], Some(END), Some(1), 2), reader := Halted,
              log := [Chunk([97]), Chunk([98]), LOST, Chunk([100]), Eof],
              subscribers := [GONE, Newer([], [], [CHUNK_A, CHUNK_B, CHUNK_D, END], [CHUNK_D, END], 5)])

  const ENDING := ENDED.(subscribers := RECEIVED.subscribers, reader := Sending(Reliably(END, true, false)))

  lemma ReachEnding()
    ensures CanReach(CONFIG, ENDING)
  {
    ReachReceived();
    Extend(CONFIG, RECEIVED, RecordTerminal(Eof));
    assert Do(CONFIG, RECEIVED, RecordTerminal(Eof)) == ENDING;
  }

  const ENDED_UNREAD :=
    ENDED.(subscribers := [GONE, Newer([], [END], [CHUNK_A, CHUNK_B, CHUNK_D], [CHUNK_D], 5)])

  lemma ReachEndedUnread()
    ensures CanReach(CONFIG, ENDED_UNREAD)
  {
    ReachEnding();
    Extend(CONFIG, ENDING, SendEvent);
    var u, v := RECEIVED.subscribers[1], ENDED_UNREAD.subscribers[1];
    assert LiveEvents(u) == [CHUNK_D] && Deliver(u, END, 5) == v;
    ReplaceSecond(GONE, u, v);
    assert Do(CONFIG, ENDING, SendEvent) == ENDED_UNREAD;
  }

  lemma ReachEnded()
    ensures CanReach(CONFIG, ENDED)
  {
    ReachEndedUnread();
    var t := Receive(ENDED_UNREAD, ENDED_UNREAD.subscribers[1], ENDED.subscribers[1]);
  }

  // ------------------------------------------------------------------------- what the consumer sees

  lemma TwoLines(l: Limits)
    requires l.max == 0
    ensures Lines(l, [97, 98, NEWLINE, 99, 100]) == [[97, 98], [99, 100]]
    ensures Lines(l, [97, 98, 100]) == [[97, 98, 100]]
  {
    assert [97, 98] + [NEWLINE] + [99, 100] == [97, 98, NEWLINE, 99, 100];
    TwoSegments(l, [97, 98], [99, 100]);
    OneLine(l, [97, 98, 100]);
  }

  lemma TwoSegments(l: Limits, a: Bytes, b: Bytes)
    requires l.max == 0 && NEWLINE !in a && NEWLINE !in b && b != []
    ensures Lines(l, a + [NEWLINE] + b) == [a, b]
  {
    var bytes := a + [NEWLINE] + b;
    assert bytes[..|a|] == a && bytes[|a| + 1..] == b;
    NewlineAtUnique(bytes, |a|);
    LinesUnfold(l, bytes);
    OneLine(l, b);
  }

  lemma OneLine(l: Limits, segment: Bytes)
    requires l.max == 0 && NEWLINE !in segment && segment != []
    ensures Lines(l, segment) == [segment]
  {
    assert segment[..|segment|] == segment;
    NewlineAtUnique(segment, |segment|);
    LinesUnfold(l, segment);
  }

  /** The consumer sees "abd", although the child wrote the lines "ab" and "cd". */
  lemma ReplayCanInventLine() returns (s: Stream)
    ensures ValidConfig(CONFIG) && CanReach(CONFIG, s) && |s.subscribers| == 2
    ensures var u, l := s.subscribers[1], Limits(0, LineOverflowBehavior.DropAdditionalData);
            && !NothingDiscarded(s, u) && EndsWithEof(u.received)
            && Offered(l, FRESH, Unlabelled(u.received)) == Drive(l, FRESH, Unlabelled(u.received)) == [[97, 98, 100]]
            && Lines(l, s.ingested) == [[97, 98], [99, 100]]
            && [97, 98, 100] !in Lines(l, s.ingested)
  {
    s := ENDED;
    ReachEnded();
    SomethingDiscarded();
    SeenByNewer();
    WrittenByChild();
  }

  lemma WrittenByChild()
    ensures var l := Limits(0, LineOverflowBehavior.DropAdditionalData);
            Lines(l, ENDED.ingested) == [[97, 98], [99, 100]] && [97, 98, 100] !in Lines(l, ENDED.ingested)
  {
    TwoLines(Limits(0, LineOverflowBehavior.DropAdditionalData));
    assert ENDED.ingested == [97, 98, NEWLINE, 99, 100];
  }

  lemma SomethingDiscarded()
    ensures !NothingDiscarded(ENDED, ENDED.subscribers[1])
  {
    assert LiveEvents(ENDED.subscribers[1]) == [CHUNK_D, END];
    assert IndexedEvent(2, ENDED.log[2]) !in ENDED.recorded;
  }

  lemma SeenByNewer()
    ensures var events := Unlabelled([CHUNK_A, CHUNK_B, CHUNK_D, END]);
            var l := Limits(0, LineOverflowBehavior.DropAdditionalData);
            Offered(l, FRESH, events) == Drive(l, FRESH, events) == [[97, 98, 100]]
  {
    var l := Limits(0, LineOverflowBehavior.DropAdditionalData);
    var chunks := [Chunk([97]), Chunk([98]), Chunk([100])];
    assert Unlabelled([CHUNK_A, CHUNK_B, CHUNK_D, END]) == chunks + [Eof];
    SomePayload();
    RechunkingInvariance(l, chunks);
    OfferedAfter(l, FRESH, chunks, [Eof]);
    TwoLines(l);
  }

  lemma SomePayload()
    ensures Payload([Chunk([97]), Chunk([98]), Chunk([100])]) == [97, 98, 100]
  {
    var chunks := [Chunk([97]), Chunk([98]), Chunk([100])];
    assert chunks[1..] == [Chunk([98]), Chunk([100])] && chunks[1..][1..] == [Chunk([100])];
    assert Payload([Chunk([100])]) == [100];
    assert Payload([Chunk([98]), Chunk([100])]) == [98, 100];
  }
}
