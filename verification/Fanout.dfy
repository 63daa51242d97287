/** The broadcast backend as a transition system. Every step is one critical section, one send or
    one receive; between steps the reader, the subscribers and the owner of the stream interleave
    freely. */
module Fanout {
  import opened Events
  import opened Coverage
  import opened Replay
  import opened LossyQueue
  import opened BroadcastShared

  datatype Delivery = ReliableWithBackpressure | LossyWithoutBackpressure

  datatype Config = Config(
    delivery: Delivery,
    retention: Option<ReplayRetention>,
    readChunkSize: nat,
    maxBufferedChunks: nat)

  predicate ValidConfig(c: Config)
  {
    c.readChunkSize > 0 && c.maxBufferedChunks > 0
  }

  /** Dropping a subscription unregisters it first and drops its receiver afterwards. */
  datatype Handle = Open | Dropping | Dropped

  /** A subscription. The last three fields are history: the events it returned so far, and the part
      of the log that these and its unread events account for. */
  datatype Subscription = Subscription(
    id: Option<SubscriberId>,
    detached: bool,
    handle: Handle,
    replay: seq<IndexedEvent>,
    liveStart: nat,
    queue: Queue,
    received: seq<IndexedEvent>,
    from: nat,
    upTo: nat)

  /** The reader between two events, or sending one event to the registered subscribers in turn. */
  datatype Reader =
    | Reading
    | Delivering(event: IndexedEvent, pending: seq<(SubscriberId, Sender)>, stale: set<SubscriberId>)
    | Stopped

  /** `buffer` is read but not yet split into chunks. `log` and `ingested` are history: the events
      appended and the bytes read from the child. */
  datatype System = System(
    shared: Shared,
    subscriptions: seq<Subscription>,
    reader: Reader,
    buffer: Bytes,
    log: seq<StreamEvent>,
    ingested: Bytes)

  const START := System(INITIAL, [], Reading, [], [], [])

  datatype Step =
    | Read(bytes: Bytes)
    | AppendChunk(order: seq<(SubscriberId, Sender)>)
    | AppendTerminal(event: StreamEvent, order: seq<(SubscriberId, Sender)>)
    | SendNext
    | FinishDelivery
    | AbortReader
    | Subscribe
    | Receive(subscription: nat)
    | BeginDrop(subscription: nat)
    | EndDrop(subscription: nat)
    | SealReplay
    | DropStream

  /** `order` lists the registry in some order, each subscriber once. */
  ghost predicate Enumerates(order: seq<(SubscriberId, Sender)>, registry: map<SubscriberId, Sender>)
  {
    && (forall i :: 0 <= i < |order| ==> order[i].0 in registry && registry[order[i].0] == order[i].1)
    && (forall i, j :: 0 <= i < j < |order| ==> order[i].0 != order[j].0)
    && (forall id :: id in registry ==> (id, registry[id]) in order)
  }

  /** Dropping the stream aborts the reader before it closes the stream, and the reader stops at some
      later point; `AbortReader` may come at any time, which includes all of these. */
  ghost predicate Enabled(c: Config, s: System, step: Step)
  {
    match step
    case Read(bytes) => s.reader.Reading? && s.buffer == [] && bytes != []
    case AppendChunk(order) => s.reader.Reading? && s.buffer != [] && Enumerates(order, s.shared.subscribers)
    case AppendTerminal(event, order) =>
      s.reader.Reading? && s.buffer == [] && event.IsTerminal() && Enumerates(order, s.shared.subscribers)
    case SendNext =>
      && s.reader.Delivering? && s.reader.pending != [] && s.reader.pending[0].1 < |s.subscriptions|
      && var u := s.subscriptions[s.reader.pending[0].1];
         c.delivery.LossyWithoutBackpressure? || u.handle.Dropped? || |u.queue.events| < c.maxBufferedChunks
    case FinishDelivery => s.reader.Delivering? && s.reader.pending == []
    case AbortReader => true
    case Subscribe => true
    case Receive(h) =>
      && h < |s.subscriptions|
      && var u := s.subscriptions[h];
         u.handle.Open? && (u.replay != [] || (u.id.Some? && u.queue.events != []))
    case BeginDrop(h) => h < |s.subscriptions| && s.subscriptions[h].handle.Open?
    case EndDrop(h) => h < |s.subscriptions| && s.subscriptions[h].handle.Dropping?
    case SealReplay => c.retention.Some?
    case DropStream => !s.shared.closed
  }

  /** Appends one event: recorded and snapshotting the registry under the lock. A closed stream
      drops it. */
  function Append(c: Config, s: System, event: StreamEvent, order: seq<(SubscriberId, Sender)>): System
  {
    if s.shared.closed then s.(reader := if event.IsTerminal() then Stopped else Reading)
    else
      var shared := Recorded(s.shared, event, c.retention);
      s.(shared := if event.IsTerminal() then shared.(subscribers := map[]) else shared,
         reader := Delivering(IndexedEvent(s.shared.nextSeq, event), order, {}),
         log := s.log + [event])
  }

  /** Whether a send to this subscription is refused. */
  predicate Refuses(c: Config, u: Subscription)
  {
    if c.delivery.ReliableWithBackpressure? then u.handle.Dropped? else u.queue.closed
  }

  /** The subscription after it accepted an event. */
  function Accept(c: Config, u: Subscription, e: IndexedEvent): Subscription
    requires !Refuses(c, u)
  {
    u.(upTo := u.upTo + 1,
       queue := if c.delivery.ReliableWithBackpressure? then u.queue.(events := u.queue.events + [e])
                else Pushed(u.queue, c.maxBufferedChunks, e))
  }

  function Send(c: Config, s: System): System
    requires s.reader.Delivering? && s.reader.pending != [] && s.reader.pending[0].1 < |s.subscriptions|
  {
    var (id, h) := s.reader.pending[0];
    var rest := s.reader.pending[1..];
    if Refuses(c, s.subscriptions[h]) then
      s.(reader := s.reader.(pending := rest, stale := s.reader.stale + {id}))
    else
      s.(reader := s.reader.(pending := rest),
         subscriptions := s.subscriptions[h := Accept(c, s.subscriptions[h], s.reader.event)])
  }

  function Finish(s: System): System
    requires s.reader.Delivering?
  {
    if s.reader.event.event.IsTerminal() then s.(reader := Stopped)
    else s.(reader := Reading, shared := Unregistered(s.shared, s.reader.stale))
  }

  /** Attaching under the lock: the snapshot, and a registration unless the stream has ended. */
  function Attach(c: Config, s: System): System
  {
    var snapshot := Snapshot(s.shared, c.retention);
    var h := |s.subscriptions|;
    var live := !(s.shared.closed || s.shared.terminal.Some?);
    var u := Subscription(if live then Some(s.shared.nextSubscriberId) else None, false, Open, snapshot,
                          s.shared.nextSeq, EMPTY_QUEUE, [],
                          if |snapshot| <= |s.log| then |s.log| - |snapshot| else 0, |s.log|);
    s.(shared := if live then Registered(s.shared, h) else s.shared, subscriptions := s.subscriptions + [u])
  }

  /** Gives up the registration, if the subscription still has one. */
  function Unregister(shared: Shared, u: Subscription): Shared
  {
    if u.id.Some? && !u.detached then Unregistered(shared, {u.id.value}) else shared
  }

  /** The event the next call to `recv` takes, and the subscription without it. */
  function Head(u: Subscription): (IndexedEvent, Subscription)
    requires u.replay != [] || u.queue.events != []
  {
    if u.replay != [] then (u.replay[0], u.(replay := u.replay[1..]))
    else (u.queue.events[0], u.(queue := u.queue.(events := u.queue.events[1..])))
  }

  /** One receive: replay first, then live events, skipping those before the live start. A terminal
      event detaches the subscription. */
  function Take(s: System, h: nat): System
    requires h < |s.subscriptions|
    requires s.subscriptions[h].replay != [] || s.subscriptions[h].queue.events != []
  {
    var u := s.subscriptions[h];
    var (e, v) := Head(u);
    if u.replay == [] && e.index < u.liveStart then s.(subscriptions := s.subscriptions[h := v])
    else
      var w := v.(received := u.received + [e], detached := u.detached || e.event.IsTerminal());
      s.(subscriptions := s.subscriptions[h := w],
         shared := if e.event.IsTerminal() then Unregister(s.shared, u) else s.shared)
  }

  /** Dropping the stream closes the registered lossy queues and forgets all subscribers. */
  function CloseAll(c: Config, s: System): System
  {
    var closing := if c.delivery.LossyWithoutBackpressure? then s.shared.subscribers.Values else {};
    s.(shared := ClosedForDrop(s.shared),
       subscriptions := seq(|s.subscriptions|, i requires 0 <= i < |s.subscriptions| =>
         if i in closing then s.subscriptions[i].(queue := s.subscriptions[i].queue.(closed := true))
         else s.subscriptions[i]))
  }

  ghost function Apply(c: Config, s: System, step: Step): System
    requires Enabled(c, s, step)
  {
    match step
    case Read(bytes) => s.(buffer := bytes, ingested := s.ingested + bytes)
    case AppendChunk(order) =>
      var n := Min(c.readChunkSize, |s.buffer|);
      Append(c, s.(buffer := s.buffer[n..]), Chunk(s.buffer[..n]), order)
    case AppendTerminal(event, order) => Append(c, s, event, order)
    case SendNext => Send(c, s)
    case FinishDelivery => Finish(s)
    case AbortReader => s.(reader := Stopped)
    case Subscribe => Attach(c, s)
    case Receive(h) => Take(s, h)
    case BeginDrop(h) =>
      var u := s.subscriptions[h];
      s.(shared := Unregister(s.shared, u),
         subscriptions := s.subscriptions[h := u.(handle := Dropping, detached := true)])
    case EndDrop(h) => s.(subscriptions := s.subscriptions[h := s.subscriptions[h].(handle := Dropped)])
    case SealReplay => s.(shared := Sealed(s.shared))
    case DropStream => CloseAll(c, s)
  }

  /** A run: every state follows from the previous one by an enabled step. */
  ghost predicate IsRun(c: Config, run: seq<System>)
  {
    && run != [] && run[0] == START
    && (forall i :: 0 <= i < |run| - 1 ==> IsStep(c, run[i], run[i+1]))
  }

  ghost predicate IsStep(c: Config, s: System, t: System)
  {
    exists step :: Enabled(c, s, step) && t == Apply(c, s, step)
  }

  ghost predicate Reachable(c: Config, s: System)
  {
    exists run :: IsRun(c, run) && run[|run| - 1] == s
  }
}
