/** One relay, any number of projectors, and connections that lose whatever is in flight. */
module Replication {
  import opened Text
  import opened Wire
  import opened Engine
  import opened CaptionStore
  import opened Relay
  import opened Agreement
  import opened Turns

  /** `wire` was sent on the open connection and has not arrived; `got` is everything that ever arrived. */
  datatype Client = Client(role: Role, open: bool, wire: seq<RelayMessage>, got: seq<RelayMessage>)

  datatype System = System(relay: RelayState, clients: map<nat, Client>)

  datatype SystemEvent =
    | RelayTurn(ev: RelayEvent)
    | PageLoad(id: nat, role: Role)
    | Attach(id: nat)
    | Deliver(id: nat)
    | Disconnect(id: nat)

  const HISTORY_LIMIT: nat := 500

  /** The sequence number a client resumes from: that of the last message it received. */
  function LastSeq(got: seq<RelayMessage>): Option<nat> {
    if got == [] then None
    else if got[|got| - 1].Sequenced? then Some(got[|got| - 1].seqNo)
    else LastSeq(got[..|got| - 1])
  }

  /** The frames missed since `lastSeq`, when the last five hundred log entries still reach back that far. */
  function Backfill(log: seq<Event>, lastSeq: nat, role: Role): Option<seq<RelayMessage>> {
    if lastSeq > |log| || log == [] || lastSeq + HISTORY_LIMIT < |log| then None
    else Some(Visible(log, lastSeq, role))
  }

  function SnapshotOf(r: RelayState, cfg: RelayConfig): RelayMessage {
    Sequenced(|r.log|, Event.Snapshot(cfg.sessionId, ToCaptionCards(Engine.Snapshot(r.engine)), r.render,
                                      cfg.watermark))
  }

  function AttachReply(r: RelayState, cfg: RelayConfig, role: Role, lastSeq: Option<nat>): seq<RelayMessage> {
    var backfill := if lastSeq.Some? then Backfill(r.log, lastSeq.value, role) else None;
    if backfill.Some? then backfill.value else [SnapshotOf(r, cfg)]
  }

  /** Stamped messages go to every attached projector whose role allows them; the end of a session detaches all. */
  function Broadcast(c: Client, before: RelayState, after: RelayState): Client {
    if after.phase == Closed && before.phase != Closed then c.(open := false, wire := [])
    else if c.open then c.(wire := c.wire + Visible(after.log, |before.log|, c.role))
    else c
  }

  predicate Possible(s: System, ev: SystemEvent) {
    match ev
    case RelayTurn(e) => Enabled(s.relay, e)
    case PageLoad(id, _) => id !in s.clients
    case Attach(id) => id in s.clients && !s.clients[id].open && s.relay.phase != Closed
    case Deliver(id) => id in s.clients && s.clients[id].open && s.clients[id].wire != []
    case Disconnect(id) => id in s.clients && s.clients[id].open
  }

  function Next(s: System, cfg: RelayConfig, ev: SystemEvent): System
    requires Possible(s, ev)
  {
    match ev
    case RelayTurn(e) =>
      var after := Step(s.relay, cfg, e);
      System(after, map id | id in s.clients :: Broadcast(s.clients[id], s.relay, after))
    case PageLoad(id, role) => s.(clients := s.clients[id := Client(role, false, [], [])])
    case Attach(id) =>
      var c := s.clients[id];
      s.(clients := s.clients[id := c.(open := true, wire := AttachReply(s.relay, cfg, c.role, LastSeq(c.got)))])
    case Deliver(id) =>
      s.(clients := s.clients[id := Received(s.clients[id])])
    case Disconnect(id) =>
      s.(clients := s.clients[id := s.clients[id].(open := false, wire := [])])
  }

  /* Runs */

  predicate Legal(s: System, cfg: RelayConfig, run: seq<SystemEvent>)
    decreases run
  {
    run == [] || (Possible(s, run[0]) && Legal(Next(s, cfg, run[0]), cfg, run[1..]))
  }

  function After(s: System, cfg: RelayConfig, run: seq<SystemEvent>): System
    requires Legal(s, cfg, run)
    decreases run
  {
    if run == [] then s else After(Next(s, cfg, run[0]), cfg, run[1..])
  }

  function Begin(render: RenderConfig): System {
    System(Start(render), map[])
  }

  /* The invariant */

  predicate NoSnapshots(log: seq<Event>) {
    forall ev | ev in log :: !ev.Snapshot?
  }

  /** Position of the last snapshot received. */
  function LastSnapshot(got: seq<RelayMessage>): (i: nat)
    ensures i <= |got|
    ensures i < |got| ==> got[i].Sequenced? && got[i].event.Snapshot?
    ensures forall j | i < j < |got| :: !(got[j].Sequenced? && got[j].event.Snapshot?)
  {
    if got == [] then 0
    else
      var n := |got| - 1;
      if got[n].Sequenced? && got[n].event.Snapshot? then n
      else
        var i := LastSnapshot(got[..n]);
        if i == n then n + 1 else i
  }

  function Store(got: seq<RelayMessage>): ProjectorState {
    Fold(INITIAL_STATE, got)
  }

  /** Since its last snapshot the client received exactly the visible log up to its resume point. */
  predicate GapFree(log: seq<Event>, role: Role, got: seq<RelayMessage>) {
    got != [] ==>
      && LastSnapshot(got) < |got| && LastSeq(got).Some?
      && var i := LastSnapshot(got);
      && got[i].seqNo <= LastSeq(got).value <= |log|
      && got[i + 1..] == Visible(log[..LastSeq(got).value], got[i].seqNo, role)
  }

  predicate SnapshotPending(c: Client) {
    c.open && c.wire != [] && c.wire[0].Sequenced? && c.wire[0].event.Snapshot?
  }

  /** What is in flight completes what was received: the rest of the log, or a snapshot and the rest from there. */
  predicate InFlight(log: seq<Event>, c: Client) {
    c.open ==>
      if SnapshotPending(c) then
        c.wire[0].seqNo <= |log| && c.wire[1..] == Visible(log, c.wire[0].seqNo, c.role)
      else
        LastSeq(c.got).Some? && c.wire == Visible(log, LastSeq(c.got).value, c.role)
  }

  /** What a captions client will show when everything due to it has arrived agrees with the engine. */
  predicate Converges(r: RelayState, c: Client) {
    c.role == Captions ==>
      && (LastSeq(c.got).Some? ==>
            Agrees(r.engine, Store(c.got + Visible(r.log, LastSeq(c.got).value, Captions)), |r.log|))
      && (SnapshotPending(c) ==> Agrees(r.engine, Store(c.got + c.wire), |r.log|))
  }

  predicate ClientOk(r: RelayState, c: Client) {
    GapFree(r.log, c.role, c.got) && InFlight(r.log, c) && Converges(r, c)
  }

  predicate SystemOk(s: System) {
    && Valid(s.relay.engine) && NoSnapshots(s.relay.log)
    && forall id | id in s.clients :: ClientOk(s.relay, s.clients[id])
  }

  /* Facts about the visible log */

  lemma {:induction false} VisibleIsSequenced(log: seq<Event>, from: nat, role: Role)
    requires NoSnapshots(log)
    ensures forall m | m in Visible(log, from, role) ::
              m.Sequenced? && !m.event.Snapshot? && from < m.seqNo <= |log|
    decreases |log|
  {
    if |log| > from {
      VisibleIsSequenced(log[..|log| - 1], from, role);
    }
  }

  /** The first visible message splits the log: nothing is visible before it, the rest is visible after it. */
  lemma {:induction false} VisibleHead(log: seq<Event>, from: nat, role: Role)
    requires Visible(log, from, role) != []
    ensures var m := Visible(log, from, role)[0];
            && m.Sequenced? && from < m.seqNo <= |log|
            && Visible(log[..m.seqNo], from, role) == [m]
            && Visible(log, m.seqNo, role) == Visible(log, from, role)[1..]
    decreases |log|
  {
    var n := |log| - 1;
    var front := Visible(log[..n], from, role);
    if front != [] {
      VisibleHead(log[..n], from, role);
      assert log[..n][..front[0].seqNo] == log[..front[0].seqNo];
    } else {
      assert log[..n + 1] == log;
    }
  }

  lemma VisibleTail(log: seq<Event>, role: Role)
    ensures Visible(log, |log|, role) == []
  {
  }

  /* The invariant is kept */

  lemma {:induction false} LastSnapshotKept(got: seq<RelayMessage>, m: RelayMessage)
    ensures LastSnapshot(got + [m]) ==
      if m.Sequenced? && m.event.Snapshot? then |got|
      else if LastSnapshot(got) == |got| then |got| + 1
      else LastSnapshot(got)
  {
    assert (got + [m])[..|got|] == got;
  }

  /** The news of a step carry any projector in agreement with the engine before to agreement with the engine after. */
  ghost predicate Carries(r: RelayState, s: RelayState) {
    && r.log <= s.log && NoSnapshots(s.log) && Valid(s.engine)
    && forall p | Agrees(r.engine, p, |r.log|) ::
         Agrees(s.engine, Fold(p, Visible(s.log, |r.log|, Captions)), |s.log|)
  }

  lemma {:induction false} EventsAreNoSnapshots(e: EngineState, ops: seq<CaptionOp>)
    ensures NoSnapshots(EventsOf(e, ops))
    decreases |ops|
  {
    if ops != [] {
      EventsAreNoSnapshots(e, ops[..|ops| - 1]);
    }
  }

  lemma TurnAddsNoSnapshots(r: RelayState, cfg: RelayConfig, t: Turn)
    requires NoSnapshots(r.log)
    ensures NoSnapshots(ApplyTurn(r, cfg, t).log)
  {
    EventsAreNoSnapshots(t.state, t.ops);
  }

  lemma StepCarries(r: RelayState, cfg: RelayConfig, ev: RelayEvent)
    requires Enabled(r, ev) && Valid(r.engine) && NoSnapshots(r.log)
    ensures Carries(r, Step(r, cfg, ev))
  {
    match ev {
      case Speech(event, nextId) => TurnAddsNoSnapshots(r, cfg, Push(r.engine, cfg.engine, event, nextId));
      case Reply(slot, result) =>
        if result.Some? {
          TurnAddsNoSnapshots(r, cfg, ReplyTurn(r, cfg, r.queue.inflight[slot], result.value));
        }
      case _ =>
    }
    LogGrows(r, cfg, ev);
    StepKeepsValid(r, cfg, ev);
    forall p | Agrees(r.engine, p, |r.log|)
      ensures Agrees(Step(r, cfg, ev).engine, Fold(p, Visible(Step(r, cfg, ev).log, |r.log|, Captions)),
                     |Step(r, cfg, ev).log|)
    {
      StepFollows(r, cfg, ev, p);
    }
  }

  /** One more relay step: the missing part of the log grows by the news, on the wire or off it. */
  lemma StepKeepsClient(r: RelayState, s: RelayState, c: Client)
    requires Carries(r, s) && ClientOk(r, c)
    ensures ClientOk(s, Broadcast(c, r, s))
  {
    GapFreeKept(r.log, s.log, c);
    InFlightKept(r, s, c);
    ConvergesKept(r, s, c);
  }

  lemma GapFreeKept(log: seq<Event>, longer: seq<Event>, c: Client)
    requires log <= longer && GapFree(log, c.role, c.got)
    ensures GapFree(longer, c.role, c.got)
  {
    if c.got != [] {
      assert longer[..LastSeq(c.got).value] == log[..LastSeq(c.got).value];
    }
  }

  lemma VisibleExtends(log: seq<Event>, longer: seq<Event>, from: nat, role: Role)
    requires log <= longer && from <= |log|
    ensures Visible(longer, from, role) == Visible(log, from, role) + Visible(longer, |log|, role)
  {
    assert longer == log + longer[|log|..];
    VisibleGrows(log, longer[|log|..], from, role);
  }

  lemma InFlightKept(r: RelayState, s: RelayState, c: Client)
    requires r.log <= s.log && NoSnapshots(s.log)
    requires GapFree(r.log, c.role, c.got) && InFlight(r.log, c)
    ensures InFlight(s.log, Broadcast(c, r, s))
  {
    if c.open && !(s.phase == Closed && r.phase != Closed) {
      if SnapshotPending(c) {
        SnapshotStaysInFlight(r.log, s.log, c);
      } else {
        FramesStayInFlight(r.log, s.log, c);
      }
    }
  }

  lemma SnapshotStaysInFlight(log: seq<Event>, longer: seq<Event>, c: Client)
    requires log <= longer && c.open && SnapshotPending(c) && InFlight(log, c)
    ensures InFlight(longer, c.(wire := c.wire + Visible(longer, |log|, c.role)))
  {
    var news := Visible(longer, |log|, c.role);
    VisibleExtends(log, longer, c.wire[0].seqNo, c.role);
    assert (c.wire + news)[1..] == c.wire[1..] + news;
  }

  lemma FramesStayInFlight(log: seq<Event>, longer: seq<Event>, c: Client)
    requires log <= longer && NoSnapshots(longer) && c.open && !SnapshotPending(c)
    requires GapFree(log, c.role, c.got) && InFlight(log, c)
    ensures InFlight(longer, c.(wire := c.wire + Visible(longer, |log|, c.role)))
  {
    var from := LastSeq(c.got).value;
    VisibleExtends(log, longer, from, c.role);
    FramesNotPending(longer, from, c.(wire := Visible(longer, from, c.role)));
  }

  /** The news extend what was sent, so they keep what was received and sent in agreement. */
  lemma NewsConverge(r: RelayState, s: RelayState, got: seq<RelayMessage>, sent: seq<RelayMessage>,
                     longer: seq<RelayMessage>)
    requires Carries(r, s) && Agrees(r.engine, Store(got + sent), |r.log|)
    requires longer == sent + Visible(s.log, |r.log|, Captions)
    ensures Agrees(s.engine, Store(got + longer), |s.log|)
  {
    FoldConcat(INITIAL_STATE, got + sent, Visible(s.log, |r.log|, Captions));
    assert got + longer == got + sent + Visible(s.log, |r.log|, Captions);
  }

  /** Frames of the log never look like a snapshot on its way. */
  lemma PendingKept(r: RelayState, s: RelayState, c: Client)
    requires r.log <= s.log && NoSnapshots(s.log)
    ensures SnapshotPending(Broadcast(c, r, s)) ==>
              SnapshotPending(c) && Broadcast(c, r, s).wire == c.wire + Visible(s.log, |r.log|, c.role)
  {
    VisibleIsSequenced(s.log, |r.log|, c.role);
    var news := Visible(s.log, |r.log|, c.role);
    assert news != [] ==> news[0] in news;
    assert c.wire == [] ==> c.wire + news == news;
  }

  lemma ConvergesKept(r: RelayState, s: RelayState, c: Client)
    requires Carries(r, s) && ClientOk(r, c)
    ensures Converges(s, Broadcast(c, r, s))
  {
    if c.role == Captions {
      PendingKept(r, s, c);
      if LastSeq(c.got).Some? {
        var from := LastSeq(c.got).value;
        VisibleExtends(r.log, s.log, from, Captions);
        NewsConverge(r, s, c.got, Visible(r.log, from, Captions), Visible(s.log, from, Captions));
      }
      if SnapshotPending(c) {
        NewsConverge(r, s, c.got, c.wire, c.wire + Visible(s.log, |r.log|, Captions));
      }
    }
  }

  function Received(c: Client): Client
    requires c.wire != []
  {
    c.(wire := c.wire[1..], got := c.got + [c.wire[0]])
  }

  /** A visible log tail is never mistaken for a snapshot on its way. */
  lemma FramesNotPending(log: seq<Event>, from: nat, c: Client)
    requires NoSnapshots(log) && c.wire == Visible(log, from, c.role)
    ensures !SnapshotPending(c)
  {
    VisibleIsSequenced(log, from, c.role);
    assert c.wire != [] ==> c.wire[0] in c.wire;
  }

  lemma SnapshotArrives(log: seq<Event>, c: Client)
    requires NoSnapshots(log) && InFlight(log, c) && SnapshotPending(c)
    ensures GapFree(log, c.role, Received(c).got) && InFlight(log, Received(c)) && !SnapshotPending(Received(c))
    ensures LastSeq(Received(c).got) == Some(c.wire[0].seqNo)
  {
    var m := c.wire[0];
    LastSnapshotKept(c.got, m);
    VisibleTail(log[..m.seqNo], c.role);
    assert Received(c).got[|c.got| + 1..] == [];
    FramesNotPending(log, m.seqNo, Received(c));
  }

  lemma FrameArrives(log: seq<Event>, c: Client)
    requires NoSnapshots(log) && GapFree(log, c.role, c.got) && InFlight(log, c)
    requires c.open && c.wire != [] && !SnapshotPending(c)
    ensures GapFree(log, c.role, Received(c).got) && InFlight(log, Received(c)) && !SnapshotPending(Received(c))
    ensures LastSeq(Received(c).got) == Some(c.wire[0].seqNo)
    ensures Received(c).wire == Visible(log, c.wire[0].seqNo, c.role)
  {
    var m := c.wire[0];
    VisibleHead(log, LastSeq(c.got).value, c.role);
    VisibleIsSequenced(log, LastSeq(c.got).value, c.role);
    assert m in c.wire;
    FramesNotPending(log, m.seqNo, Received(c));
    FrameFollows(log, c.role, c.got, m);
  }

  /** The next visible frame extends what was received without a gap. */
  lemma FrameFollows(log: seq<Event>, role: Role, got: seq<RelayMessage>, m: RelayMessage)
    requires GapFree(log, role, got) && got != []
    requires m.Sequenced? && !m.event.Snapshot? && LastSeq(got).value < m.seqNo <= |log|
    requires Visible(log[..m.seqNo], LastSeq(got).value, role) == [m]
    ensures GapFree(log, role, got + [m])
  {
    var from, i := LastSeq(got).value, LastSnapshot(got);
    LastSnapshotKept(got, m);
    PrefixOfPrefix(log, m.seqNo, from);
    VisibleExtends(log[..from], log[..m.seqNo], got[i].seqNo, role);
    SuffixOfMore(got, m, i + 1);
  }

  lemma PrefixOfPrefix(log: seq<Event>, n: nat, k: nat)
    requires k <= n <= |log|
    ensures log[..n][..k] == log[..k] && log[..k] <= log[..n]
  {
  }

  lemma SuffixOfMore(got: seq<RelayMessage>, m: RelayMessage, k: nat)
    requires k <= |got|
    ensures (got + [m])[k..] == got[k..] + [m]
  {
  }

  /** What was received and what is in flight stay the same together. */
  lemma DeliverConverges(r: RelayState, c: Client, n: nat)
    requires c.open && c.wire != [] && !SnapshotPending(Received(c))
    requires LastSeq(Received(c).got) == Some(n) && Received(c).wire == Visible(r.log, n, c.role)
    requires c.role == Captions ==> Agrees(r.engine, Store(c.got + c.wire), |r.log|)
    ensures Converges(r, Received(c))
  {
    assert Received(c).got + Received(c).wire == c.got + c.wire;
  }

  /** Receiving the next frame moves it from what is in flight to what was received. */
  lemma DeliverKeepsClient(r: RelayState, c: Client)
    requires NoSnapshots(r.log) && ClientOk(r, c) && c.open && c.wire != []
    ensures ClientOk(r, Received(c))
  {
    if SnapshotPending(c) {
      SnapshotArrives(r.log, c);
      DeliverConverges(r, c, c.wire[0].seqNo);
    } else {
      FrameArrives(r.log, c);
      DeliverConverges(r, c, c.wire[0].seqNo);
    }
  }

  /** An attach sends exactly what is missing, or the whole state. */
  lemma AttachKeepsClient(r: RelayState, cfg: RelayConfig, c: Client)
    requires Valid(r.engine) && NoSnapshots(r.log) && ClientOk(r, c) && !c.open
    ensures ClientOk(r, c.(open := true, wire := AttachReply(r, cfg, c.role, LastSeq(c.got))))
  {
    var d := c.(open := true, wire := AttachReply(r, cfg, c.role, LastSeq(c.got)));
    var snapshot := SnapshotOf(r, cfg);
    if d.wire == [snapshot] {
      VisibleTail(r.log, c.role);
      FoldConcat(INITIAL_STATE, c.got, [snapshot]);
      FoldOne(Store(c.got), snapshot);
      SnapshotAgrees(r.engine, Store(c.got), |r.log|, snapshot.event);
    } else {
      VisibleIsSequenced(r.log, LastSeq(c.got).value, c.role);
    }
  }

  /** Snapshots overwrite everything, so only what follows the last one matters. */
  lemma OnlySinceSnapshot(got: seq<RelayMessage>, frames: seq<RelayMessage>)
    requires LastSnapshot(got) < |got|
    ensures var i := LastSnapshot(got);
            Store(got + frames) == Fold(ApplyRelayMessage(INITIAL_STATE, got[i]), got[i + 1..] + frames)
  {
    var i := LastSnapshot(got);
    assert got + frames == got[..i] + [got[i]] + (got[i + 1..] + frames);
    FoldConcat(INITIAL_STATE, got[..i] + [got[i]], got[i + 1..] + frames);
    FoldConcat(INITIAL_STATE, got[..i], [got[i]]);
    FoldOne(Store(got[..i]), got[i]);
  }

  /** What was received since the last snapshot, and then what is in flight, are exactly the visible log from that
      snapshot on; so the projector ends where one that got the snapshot and was never disconnected ends. */
  predicate NothingLost(log: seq<Event>, c: Client) {
    var i := LastSnapshot(c.got);
    && i < |c.got|
    && c.got[i + 1..] + c.wire == Visible(log, c.got[i].seqNo, c.role)
    && Store(c.got + c.wire)
       == Fold(ApplyRelayMessage(INITIAL_STATE, c.got[i]), Visible(log, c.got[i].seqNo, c.role))
  }

  lemma CompletesLog(log: seq<Event>, c: Client)
    requires GapFree(log, c.role, c.got) && InFlight(log, c) && c.open && !SnapshotPending(c)
    ensures NothingLost(log, c)
  {
    ReceivedAndSent(log, c);
    OnlySinceSnapshot(c.got, c.wire);
  }

  lemma ReceivedAndSent(log: seq<Event>, c: Client)
    requires GapFree(log, c.role, c.got) && InFlight(log, c) && c.open && !SnapshotPending(c)
    ensures var i := LastSnapshot(c.got);
            i < |c.got| && c.got[i + 1..] + c.wire == Visible(log, c.got[i].seqNo, c.role)
  {
    VisibleExtends(log[..LastSeq(c.got).value], log, c.got[LastSnapshot(c.got)].seqNo, c.role);
  }

  lemma NextOk(s: System, cfg: RelayConfig, ev: SystemEvent)
    requires SystemOk(s) && Possible(s, ev)
    ensures SystemOk(Next(s, cfg, ev))
  {
    match ev {
      case RelayTurn(e) =>
        var after := Step(s.relay, cfg, e);
        StepCarries(s.relay, cfg, e);
        forall id | id in s.clients
          ensures ClientOk(after, Broadcast(s.clients[id], s.relay, after))
        {
          StepKeepsClient(s.relay, after, s.clients[id]);
        }
      case PageLoad(id, role) =>
      case Attach(id) => AttachKeepsClient(s.relay, cfg, s.clients[id]);
      case Deliver(id) => DeliverKeepsClient(s.relay, s.clients[id]);
      case Disconnect(id) =>
    }
  }

  lemma {:induction false} AfterOk(s: System, cfg: RelayConfig, run: seq<SystemEvent>)
    requires SystemOk(s) && Legal(s, cfg, run)
    ensures SystemOk(After(s, cfg, run))
    decreases run
  {
    if run != [] {
      NextOk(s, cfg, run[0]);
      AfterOk(Next(s, cfg, run[0]), cfg, run[1..]);
    }
  }

  /* Main results */

  /** In every reachable state, a captions projector that has received everything sent to it agrees with the engine:
      every card both hold has the same text, stable count, state and translations, and the live card is on screen. */
  lemma ReplicaAgreement(cfg: RelayConfig, render: RenderConfig, run: seq<SystemEvent>, id: nat)
    requires Legal(Begin(render), cfg, run)
    requires var s := After(Begin(render), cfg, run);
             id in s.clients && s.clients[id].open && s.clients[id].wire == [] && s.clients[id].role == Captions
    ensures var s := After(Begin(render), cfg, run);
            Agrees(s.relay.engine, Store(s.clients[id].got), |s.relay.log|)
  {
    AfterOk(Begin(render), cfg, run);
    var c := After(Begin(render), cfg, run).clients[id];
    assert c.got + c.wire == c.got;
  }

  /** Whatever connections were lost, a resumed projector with no snapshot on its way misses, repeats and reorders
      nothing. */
  lemma GapFreeResume(cfg: RelayConfig, render: RenderConfig, run: seq<SystemEvent>, id: nat)
    requires Legal(Begin(render), cfg, run)
    requires var s := After(Begin(render), cfg, run);
             id in s.clients && s.clients[id].open && !SnapshotPending(s.clients[id])
    ensures var s := After(Begin(render), cfg, run);
            NothingLost(s.relay.log, s.clients[id])
  {
    AfterOk(Begin(render), cfg, run);
    var s := After(Begin(render), cfg, run);
    assert ClientOk(s.relay, s.clients[id]);
    CompletesLog(s.relay.log, s.clients[id]);
  }
}
