/** Both backends keep the same replay history. */
module ReplayAgreement {
  import opened Events
  import opened Coverage
  import opened Replay
  import opened BroadcastShared
  import opened SingleSubscriber
  import opened SingleReplay

  datatype ReplayOp = Push(event: StreamEvent) | Seal

  /** The broadcast history after some pushes and seals. */
  function BroadcastHistory(ops: seq<ReplayOp>, retention: Option<ReplayRetention>): (s: Shared)
  {
    if ops == [] then INITIAL
    else
      var before := BroadcastHistory(ops[..|ops| - 1], retention);
      match ops[|ops| - 1]
      case Push(event) => Recorded(before, event, retention)
      case Seal => Sealed(before)
  }

  /** The single-subscriber history after the same. */
  function SingleHistory(ops: seq<ReplayOp>, retention: Option<ReplayRetention>): (r: SharedState)
  {
    if ops == [] then INITIAL_STREAM.shared
    else
      var before := SingleHistory(ops[..|ops| - 1], retention);
      match ops[|ops| - 1]
      case Push(event) => RecordedIn(before, IndexedEvent(|ops| - 1, event), retention)
      case Seal => SealedIn(before)
  }

  /** The chunks pushed. */
  function Chunks(ops: seq<ReplayOp>): (chunks: seq<StreamEvent>)
  {
    if ops == [] then []
    else
      var before, op := Chunks(ops[..|ops| - 1]), ops[|ops| - 1];
      if op.Push? && op.event.Chunk? then before + [op.event] else before
  }

  predicate NeverSealed(ops: seq<ReplayOp>)
  {
    forall i :: 0 <= i < |ops| ==> ops[i].Push?
  }

  /** After any pushes and seals both histories hold the window of all pushed chunks, or nothing once
      sealed, and the same terminal event. */
  lemma {:induction false} HistoriesAgree(ops: seq<ReplayOp>, retention: Option<ReplayRetention>)
    ensures var b, s := BroadcastHistory(ops, retention), SingleHistory(ops, retention);
            && Unlabelled(b.replay) == Unlabelled(s.events)
               == (if NeverSealed(ops) then Window(EventSize, retention, Chunks(ops)) else [])
            && b.replaySealed == s.replaySealed == !NeverSealed(ops)
            && TerminalOf(b.terminal) == TerminalOf(s.terminal)
  {
    if ops == [] {
      InitialWindow(retention);
    } else {
      var before, op := ops[..|ops| - 1], ops[|ops| - 1];
      HistoriesAgree(before, retention);
      assert NeverSealed(ops) <==> NeverSealed(before) && op.Push?;
      var b, s := BroadcastHistory(before, retention), SingleHistory(before, retention);
      if op.Push? {
        PushAgrees(b, s, op.event, |before|, retention, Chunks(before));
      } else {
        SealAgrees(b, s);
      }
    }
  }

  /** One push keeps the histories in agreement. */
  lemma PushAgrees(b: Shared, s: SharedState, event: StreamEvent, index: nat, retention: Option<ReplayRetention>,
                   chunks: seq<StreamEvent>)
    requires Unlabelled(b.replay) == Unlabelled(s.events)
    requires b.replaySealed == s.replaySealed && TerminalOf(b.terminal) == TerminalOf(s.terminal)
    requires !b.replaySealed ==> Unlabelled(b.replay) == Window(EventSize, retention, chunks)
    ensures var c, t := Recorded(b, event, retention), RecordedIn(s, IndexedEvent(index, event), retention);
            && Unlabelled(c.replay) == Unlabelled(t.events)
            && c.replaySealed == t.replaySealed == b.replaySealed && TerminalOf(c.terminal) == TerminalOf(t.terminal)
            && (!b.replaySealed ==> Unlabelled(c.replay)
                                    == Window(EventSize, retention, if event.Chunk? then chunks + [event] else chunks))
            && (b.replaySealed ==> c.replay == b.replay)
  {
    if event.Chunk? && retention.Some? && !b.replaySealed {
      PushedWindow(b.replay, IndexedEvent(b.nextSeq, event), retention, chunks);
      PushedWindow(s.events, IndexedEvent(index, event), retention, chunks);
    }
  }

  /** So does a seal, which empties both. */
  lemma SealAgrees(b: Shared, s: SharedState)
    requires TerminalOf(b.terminal) == TerminalOf(s.terminal)
    ensures var c, t := Sealed(b), SealedIn(s);
            && Unlabelled(c.replay) == Unlabelled(t.events) == []
            && c.replaySealed && t.replaySealed && TerminalOf(c.terminal) == TerminalOf(t.terminal)
  {
  }

  lemma InitialWindow(retention: Option<ReplayRetention>)
    ensures Window(EventSize, retention, []) == []
  {
  }

  lemma PushedWindow(history: seq<IndexedEvent>, e: IndexedEvent, retention: Option<ReplayRetention>,
                     chunks: seq<StreamEvent>)
    requires Unlabelled(history) == Window(EventSize, retention, chunks)
    ensures Unlabelled(Window(IndexedSize, retention, history + [e]))
            == Window(EventSize, retention, chunks + [e.event])
  {
    WindowUnlabelled(retention, history + [e]);
    assert Unlabelled(history + [e]) == Unlabelled(history) + [e.event];
    WindowStep(EventSize, retention, chunks, e.event);
  }
}
