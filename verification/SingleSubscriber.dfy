/** The single-subscriber backend as a transition system. Every step is one critical section, one
    send or one receive; between steps the reader, the subscriber and the owner of the stream
    interleave freely. Both read loops are covered: the reliable one waits for capacity, the lossy
    one drops chunks and owes its subscriber a gap. */
module SingleSubscriber {
  import opened Events
  import opened Coverage
  import opened Replay
  import opened BroadcastShared
  import opened Fanout

  /** The lock-protected state and the watch that publishes the active subscriber. The recorded
      events carry their position in the reader's output as a history label. */
  datatype SharedState = SharedState(
    events: seq<IndexedEvent>,
    replaySealed: bool,
    terminal: Option<IndexedEvent>,
    activeId: Option<SubscriberId>,
    nextSubscriberId: SubscriberId,
    watch: Option<SubscriberId>)

  /** A subscription; its id is its position among all subscriptions. Dropping it closes the receiver
      first and gives up the claim afterwards. The last eight fields are history: the events returned,
      those of them that came from the channel, the replay snapshot, the length of the log when it
      attached, whether the stream had ended by then, the part of the log its live events account
      for, and the number of chunks recorded when it attached. */
  datatype Subscriber = Subscriber(
    handle: Handle,
    receiver: bool,
    replay: seq<IndexedEvent>,
    terminal: Option<IndexedEvent>,
    channel: seq<IndexedEvent>,
    received: seq<IndexedEvent>,
    live: seq<IndexedEvent>,
    snapshot: seq<IndexedEvent>,
    attachedAt: nat,
    late: bool,
    lo: nat,
    hi: nat,
    recordedAt: nat)

  /** What the reader is sending to the cached subscriber. */
  datatype Purpose =
    | Reliably(event: IndexedEvent, recorded: bool, retried: bool)
    | TryChunk(event: IndexedEvent, recorded: bool, retried: bool)
    | TryGap
    | GapBefore(event: IndexedEvent)

  /** `Idle` is the top of the read loops, `Ready` the lossy loop after its pending gap was dealt
      with. A send to a closed receiver is followed by clearing the claim and refreshing the cache,
      as two further steps. */
  datatype ReaderState =
    | Idle
    | Ready
    | Sending(purpose: Purpose)
    | Failed(purpose: Purpose, target: SubscriberId)
    | Cleared(purpose: Purpose, target: SubscriberId)
    | Discarding
    | Halted

  /** Which subscriber missed output and is still owed a gap. */
  datatype Lag = Lag(subscriberId: Option<SubscriberId>, gapPending: bool)

  /** `log`, `recorded` and `ingested` are history: all chunks and the terminal event the reader
      produced, including chunks it discarded; the chunks it recorded; and the bytes it read. */
  datatype Stream = Stream(
    shared: SharedState,
    dropped: bool,
    subscribers: seq<Subscriber>,
    reader: ReaderState,
    cached: Option<SubscriberId>,
    lag: Lag,
    buffer: Bytes,
    log: seq<StreamEvent>,
    recorded: seq<IndexedEvent>,
    ingested: Bytes)

  const INITIAL_STREAM :=
    Stream(SharedState([], false, None, None, 0, None), false, [], Idle, None, Lag(None, false), [], [], [], [])

  datatype Action =
    | ReadBytes(bytes: Bytes)
    | RefreshCache
    | ObserveActive
    | RecordChunk
    | RecordTerminal(event: StreamEvent)
    | SendEvent
    | ClearClaim
    | RefreshAfterFailure
    | DiscardBuffer
    | Abort
    | TrySubscribe
    | NextEvent(id: SubscriberId)
    | CloseReceiver(id: SubscriberId)
    | GiveUpClaim(id: SubscriberId)
    | Seal
    | DropOwner

  // ------------------------------------------------------------------------- shared state

  /** Records an event for later subscribers. */
  function RecordedIn(r: SharedState, e: IndexedEvent, retention: Option<ReplayRetention>): (t: SharedState)
  {
    if e.event.IsTerminal() then r.(terminal := Some(e))
    else if e.event.Chunk? && retention.Some? && !r.replaySealed then
      r.(events := Window(IndexedSize, retention, r.events + [e]))
    else r
  }

  /** Whether a later subscriber receives an event just recorded. */
  predicate IsRecorded(r: SharedState, e: IndexedEvent, retention: Option<ReplayRetention>)
  {
    || e.event.IsTerminal()
    || (e.event.Chunk? && retention.Some? && !r.replaySealed && RecordedIn(r, e, retention).events != [])
  }

  /** What a subscriber attaching now gets to replay. */
  function ReplaySnapshot(r: SharedState, retention: Option<ReplayRetention>): (events: seq<IndexedEvent>)
  {
    if r.replaySealed || retention.None? then [] else r.events
  }

  /** Clears the claim, but only if `id` holds it. */
  function ClearedIfCurrent(r: SharedState, id: SubscriberId): (t: SharedState)
  {
    if r.activeId == Some(id) then r.(activeId := None, watch := None) else r
  }

  /** Clears the claim, whoever holds it. */
  function ClearedOfClaim(r: SharedState): (t: SharedState)
  {
    r.(activeId := None, watch := None)
  }

  function SealedIn(r: SharedState): (t: SharedState)
  {
    r.(replaySealed := true, events := [])
  }

  /** The lag bookkeeping after looking at the active subscriber. */
  function Observe(lag: Lag, active: Option<SubscriberId>): (l: Lag)
  {
    if lag.subscriberId != active then Lag(active, false) else lag
  }

  // ------------------------------------------------------------------------- the reader

  function LiveEvents(u: Subscriber): seq<IndexedEvent>
  {
    u.live + u.channel
  }

  /** Puts an event into a subscriber's channel; a gap accounts for everything up to `upTo`. */
  function Deliver(u: Subscriber, e: IndexedEvent, upTo: nat): Subscriber
  {
    u.(channel := u.channel + [e], hi := upTo, lo := if LiveEvents(u) == [] && upTo > 0 then upTo - 1 else u.lo)
  }

  /** Reading a chunk off the buffer and recording it, refreshing the cache under the same lock. */
  function Record(c: Config, s: Stream, event: StreamEvent): Stream
  {
    var e := IndexedEvent(|s.log|, event);
    s.(shared := RecordedIn(s.shared, e, c.retention),
       cached := s.shared.watch,
       log := s.log + [event],
       recorded := if event.Chunk? then s.recorded + [e] else s.recorded)
  }

  function AfterRecord(c: Config, s: Stream, event: StreamEvent): Stream
  {
    var e := IndexedEvent(|s.log|, event);
    var t := Record(c, s, event);
    if c.delivery.ReliableWithBackpressure? then
      t.(reader := Sending(Reliably(e, IsRecorded(s.shared, e, c.retention), false)))
    else if event.Chunk? then
      t.(reader := Sending(TryChunk(e, IsRecorded(s.shared, e, c.retention), false)))
    else
      var lag := Observe(s.lag, t.cached);
      t.(lag := lag, reader := Sending(if lag.gapPending then GapBefore(e) else Reliably(e, true, false)))
  }

  /** Where the reader continues once an event is dealt with. */
  function Next(event: IndexedEvent): ReaderState
  {
    if event.event.IsTerminal() then Halted else Idle
  }

  /** There is no subscriber to send to. */
  function SendToNobody(s: Stream): Stream
    requires s.reader.Sending?
  {
    match s.reader.purpose
    case Reliably(event, _, _) => s.(reader := Next(event))
    case TryChunk(_, _, _) => s.(reader := Idle, lag := Observe(s.lag, None))
    case TryGap => s.(reader := Ready, lag := Observe(s.lag, None))
    case GapBefore(event) => s.(reader := Sending(Reliably(event, true, false)), lag := Observe(s.lag, None))
  }

  /** The channel of the cached subscriber takes the event. */
  function SendAccepted(s: Stream, id: SubscriberId): Stream
    requires s.reader.Sending? && id < |s.subscribers|
  {
    var u := s.subscribers[id];
    var gap := IndexedEvent(|s.log|, Gap);
    match s.reader.purpose
    case Reliably(event, _, _) =>
      s.(reader := Next(event), subscribers := s.subscribers[id := Deliver(u, event, event.index + 1)])
    case TryChunk(event, _, _) =>
      s.(reader := Idle, subscribers := s.subscribers[id := Deliver(u, event, event.index + 1)])
    case TryGap =>
      s.(reader := Ready, lag := s.lag.(gapPending := false),
         subscribers := s.subscribers[id := Deliver(u, gap, |s.log|)])
    case GapBefore(event) =>
      s.(reader := Sending(Reliably(event, true, false)), lag := s.lag.(gapPending := false),
         subscribers := s.subscribers[id := Deliver(u, gap, event.index)])
  }

  /** A lossy send finds the channel full. */
  function SendFull(s: Stream): Stream
    requires s.reader.Sending?
  {
    if s.reader.purpose.TryChunk? then s.(reader := Idle, lag := s.lag.(gapPending := true))
    else s.(reader := Discarding)
  }

  function Sent(c: Config, s: Stream): Stream
    requires s.reader.Sending? && (s.cached.Some? ==> s.cached.value < |s.subscribers|)
  {
    if s.cached.None? then SendToNobody(s)
    else
      var id := s.cached.value;
      if !s.subscribers[id].receiver then s.(reader := Failed(s.reader.purpose, id))
      else if |s.subscribers[id].channel| < c.maxBufferedChunks then SendAccepted(s, id)
      else SendFull(s)
  }

  /** After a failed send: refresh the cache, and retry an unrecorded event once. */
  function Refreshed(s: Stream): Stream
    requires s.reader.Cleared?
  {
    var t := s.(cached := s.shared.watch);
    match s.reader.purpose
    case Reliably(event, recorded, retried) =>
      t.(reader := if recorded || retried then Next(event) else Sending(Reliably(event, recorded, true)))
    case TryChunk(event, recorded, retried) =>
      if recorded || retried then t.(reader := Idle, lag := Observe(s.lag, t.cached))
      else t.(reader := Sending(TryChunk(event, recorded, true)))
    case TryGap => t.(reader := Ready, lag := Observe(s.lag, t.cached))
    case GapBefore(event) => t.(reader := Sending(Reliably(event, true, false)), lag := Observe(s.lag, t.cached))
  }

  /** The chunks a discarded buffer would have been split into. */
  function SplitBuffer(size: nat, buffer: Bytes): (chunks: seq<StreamEvent>)
    requires size > 0
    decreases |buffer|
  {
    if buffer == [] then []
    else
      var n := Min(size, |buffer|);
      [Chunk(buffer[..n])] + SplitBuffer(size, buffer[n..])
  }

  // ------------------------------------------------------------------------- the subscribers

  /** Attaching under the lock; refused while another subscriber holds the claim. */
  function Subscribed(c: Config, s: Stream): Stream
  {
    if s.shared.activeId.Some? then s
    else
      var id := s.shared.nextSubscriberId;
      var replay := ReplaySnapshot(s.shared, c.retention);
      var u := Subscriber(Open, true, replay, s.shared.terminal, [], [], [], replay, |s.log|,
                          s.shared.terminal.Some?, |s.log|, |s.log|, |s.recorded|);
      s.(shared := s.shared.(activeId := Some(id), nextSubscriberId := id + 1, watch := Some(id)),
         subscribers := s.subscribers + [u])
  }

  predicate HasNext(u: Subscriber)
  {
    u.replay != [] || u.terminal.Some? || (u.receiver && u.channel != [])
  }

  /** One receive: replay, then the stored terminal event, which closes the receiver, then live. */
  function Taken(u: Subscriber): Subscriber
    requires HasNext(u)
  {
    if u.replay != [] then u.(replay := u.replay[1..], received := u.received + [u.replay[0]])
    else if u.terminal.Some? then u.(terminal := None, receiver := false, received := u.received + [u.terminal.value])
    else
      var e := u.channel[0];
      u.(channel := u.channel[1..], received := u.received + [e], live := u.live + [e])
  }

  // ------------------------------------------------------------------------- steps

  /** Dropping the stream aborts the reader before it clears the claim, and the reader halts at some
      later point; `Abort` may come at any time, which includes all of these. */
  predicate CanDo(c: Config, s: Stream, a: Action)
  {
    var lossy := c.delivery.LossyWithoutBackpressure?;
    match a
    case ReadBytes(bytes) => s.reader.Idle? && s.buffer == [] && bytes != []
    case RefreshCache => s.reader.Idle? && s.cached.None?
    case ObserveActive => s.reader.Idle? && s.buffer != [] && lossy
    case RecordChunk => s.buffer != [] && if lossy then s.reader.Ready? else s.reader.Idle?
    case RecordTerminal(event) => s.reader.Idle? && s.buffer == [] && event.IsTerminal()
    case SendEvent =>
      && s.reader.Sending?
      && (s.cached.Some? ==> s.cached.value < |s.subscribers|)
      && (s.cached.Some? && s.subscribers[s.cached.value].receiver
          && !(s.reader.purpose.TryChunk? || s.reader.purpose.TryGap?) ==>
            |s.subscribers[s.cached.value].channel| < c.maxBufferedChunks)
    case ClearClaim => s.reader.Failed?
    case RefreshAfterFailure => s.reader.Cleared?
    case DiscardBuffer => s.reader.Discarding?
    case Abort => true
    case TrySubscribe => !s.dropped
    case NextEvent(id) => id < |s.subscribers| && s.subscribers[id].handle.Open? && HasNext(s.subscribers[id])
    case CloseReceiver(id) => id < |s.subscribers| && s.subscribers[id].handle.Open?
    case GiveUpClaim(id) => id < |s.subscribers| && s.subscribers[id].handle.Dropping?
    case Seal => !s.dropped && c.retention.Some?
    case DropOwner => !s.dropped
  }

  function Do(c: Config, s: Stream, a: Action): Stream
    requires ValidConfig(c) && CanDo(c, s, a)
  {
    match a
    case ReadBytes(bytes) => s.(buffer := bytes, ingested := s.ingested + bytes)
    case RefreshCache => s.(cached := s.shared.watch, lag := Observe(s.lag, s.shared.watch))
    case ObserveActive =>
      var lag := Observe(s.lag, s.cached);
      s.(lag := lag, reader := if lag.gapPending then Sending(TryGap) else Ready)
    case RecordChunk =>
      var n := Min(c.readChunkSize, |s.buffer|);
      AfterRecord(c, s.(buffer := s.buffer[n..]), Chunk(s.buffer[..n]))
    case RecordTerminal(event) => AfterRecord(c, s, event)
    case SendEvent => Sent(c, s)
    case ClearClaim =>
      s.(shared := ClearedIfCurrent(s.shared, s.reader.target), reader := Cleared(s.reader.purpose, s.reader.target))
    case RefreshAfterFailure => Refreshed(s)
    case DiscardBuffer => s.(reader := Idle, buffer := [], log := s.log + SplitBuffer(c.readChunkSize, s.buffer))
    case Abort => s.(reader := Halted)
    case TrySubscribe => Subscribed(c, s)
    case NextEvent(id) => s.(subscribers := s.subscribers[id := Taken(s.subscribers[id])])
    case CloseReceiver(id) =>
      s.(subscribers := s.subscribers[id := s.subscribers[id].(handle := Dropping, receiver := false)])
    case GiveUpClaim(id) =>
      s.(shared := ClearedIfCurrent(s.shared, id),
         subscribers := s.subscribers[id := s.subscribers[id].(handle := Dropped)])
    case Seal => s.(shared := SealedIn(s.shared))
    case DropOwner => s.(dropped := true, shared := ClearedOfClaim(s.shared))
  }

  ghost predicate IsAction(c: Config, s: Stream, t: Stream)
    requires ValidConfig(c)
  {
    exists a :: CanDo(c, s, a) && t == Do(c, s, a)
  }

  /** A run: every state follows from the previous one by a possible action. */
  ghost predicate IsHistory(c: Config, run: seq<Stream>)
    requires ValidConfig(c)
  {
    && run != [] && run[0] == INITIAL_STREAM
    && (forall i :: 0 <= i < |run| - 1 ==> IsAction(c, run[i], run[i+1]))
  }

  ghost predicate CanReach(c: Config, s: Stream)
    requires ValidConfig(c)
  {
    exists run :: IsHistory(c, run) && run[|run| - 1] == s
  }
}
