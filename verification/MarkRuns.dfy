/** When a projector's final marks are the engine's: the marks a projector shows are followed through the turns of the
    relay, its connections and whole systems. */
module MarkRuns {
  import opened Text
  import opened Wire
  import opened Engine
  import opened CaptionStore
  import opened Relay
  import opened Agreement
  import opened Turns
  import opened Marks
  import S = Scheduler
  import R = Replication

  /* A projector that agrees with the engine receives the events of one more turn */

  /** A card on screen is marked final when the engine marks it, or a translation of it has been told since the snapshot
      that was taken at `base`. */
  predicate FlagsAgree(e: EngineState, p: ProjectorState, log: seq<Event>, base: nat) {
    forall c | c in p.cards && Holds(e, c.cardId) ::
      c.trFinal <==> CardOf(e, c.cardId).trFinal || RestatedSince(log, base, c.cardId)
  }

  /** The engine never marked the card, if it holds it, and nothing was told of it. */
  predicate Unmarked(e: EngineState, log: seq<Event>, base: nat, id: string) {
    Holds(e, id) ==> !CardOf(e, id).trFinal && !RestatedSince(log, base, id)
  }

  lemma EventFlags(f: EngineState, p: ProjectorState, n: nat, m: Event, log: seq<Event>, base: nat)
    requires NamesCard(m) && !Restates(m) && Bounded(p.cards) && FlagsAgree(f, p, log, base)
    requires Unmarked(f, log, base, m.cardId)
    ensures FlagsAgree(f, WithCard(p, n, m), log + [m], base) && Bounded(WithCard(p, n, m).cards)
  {
    var q := WithCard(p, n, m);
    WithCardShape(p, n, m);
    forall c | c in q.cards && Holds(f, c.cardId)
      ensures c.trFinal <==> CardOf(f, c.cardId).trFinal || RestatedSince(log + [m], base, c.cardId)
    {
      RestatedOneMore(log, m, base, c.cardId);
    }
  }

  lemma ReceiveMore(p: ProjectorState, log: seq<Event>, events: seq<Event>, ev: Event)
    ensures Receive(p, log, events + [ev]) == Receive(Receive(p, log, events), log + events, [ev])
  {
    assert log + (events + [ev]) == log + events + [ev];
    VisibleGrows(log + events, [ev], |log|, Captions);
    FoldConcat(p, Visible(log + events, |log|, Captions), Visible(log + events + [ev], |log + events|, Captions));
  }

  lemma {:induction false} EventsFlags(f: EngineState, p: ProjectorState, log: seq<Event>, events: seq<Event>,
                                       base: nat)
    requires Bounded(p.cards) && p.lastSeq <= |log| && FlagsAgree(f, p, log, base) && NoneRestates(events)
    requires forall m | m in events :: NamesCard(m) && Unmarked(f, log, base, m.cardId)
    ensures var q := Receive(p, log, events);
            FlagsAgree(f, q, log + events, base) && Bounded(q.cards) && q.lastSeq <= |log + events|
    decreases |events|
  {
    if events == [] {
      ReceiveNothing(p, log);
      assert log + [] == log;
    } else {
      var front, m := events[..|events| - 1], events[|events| - 1];
      EventsFlags(f, p, log, front, base);
      assert events == front + [m] && log + events == log + front + [m];
      ReceiveMore(p, log, front, m);
      ReceiveCard(Receive(p, log, front), log + front, m);
      StillRestated(log, front, base, m.cardId);
      EventFlags(f, Receive(p, log, front), |log + front| + 1, m, log + front, base);
    }
  }

  ghost predicate HasRecord(e: EngineState, log: seq<Event>, id: string) {
    exists ts :: Records(e, log, ts, id)
  }

  /** Every card has its record. */
  ghost predicate Recorded(e: EngineState, log: seq<Event>) {
    forall id :: HasRecord(e, log, id)
  }

  lemma SubjectIsUnmarked(e: EngineState, log: seq<Event>, base: nat, id: string)
    requires Recorded(e, log) && IsSubject(e, id)
    ensures Unmarked(e, log, base, id) && !RestatedSince(log, base, id)
  {
    assert HasRecord(e, log, id);
    var ts :| Records(e, log, ts, id);
  }

  /** The same marks, seen from the engine after a turn that keeps them. */
  lemma KeptFlags(e: EngineState, f: EngineState, p: ProjectorState, log: seq<Event>, base: nat)
    requires Agrees(e, p, |log|) && FlagsAgree(e, p, log, base) && forall id :: MarkKept(e, f, id)
    ensures FlagsAgree(f, p, log, base)
  {
    forall c | c in p.cards && Holds(f, c.cardId)
      ensures c.trFinal <==> CardOf(f, c.cardId).trFinal || RestatedSince(log, base, c.cardId)
    {
      assert CardAgrees(e, c) && MarkKept(e, f, c.cardId);
    }
  }

  lemma SpeechFlags(e: EngineState, cfg: EngineConfig, event: SttEvent, nextId: string, p: ProjectorState,
                    log: seq<Event>, base: nat)
    requires Valid(e) && nextId !in e.issued && Agrees(e, p, |log|) && Recorded(e, log) && FlagsAgree(e, p, log, base)
    ensures var t := Push(e, cfg, event, nextId);
            var events := EventsOf(t.state, t.ops);
            FlagsAgree(t.state, Receive(p, log, events), log + events, base)
  {
    var t := Push(e, cfg, event, nextId);
    var events := EventsOf(t.state, t.ops);
    forall id ensures MarkKept(e, t.state, id) {
      PushKeepsMark(e, cfg, event, nextId, id);
    }
    PushTells(e, cfg, event, nextId);
    forall m | m in events ensures NamesCard(m) && Unmarked(t.state, log, base, m.cardId) {
      if Holds(t.state, m.cardId) {
        SubjectIsUnmarked(e, log, base, m.cardId);
        assert MarkKept(e, t.state, m.cardId);
      }
    }
    KeptFlags(e, t.state, p, log, base);
    EventsFlags(t.state, p, log, events, base);
  }

  /** The card is restated: a live one as unmarked, a settled one as final. */
  lemma RestatedFlags(e: EngineState, f: EngineState, view: CardView, p: ProjectorState, n: nat, log: seq<Event>,
                      base: nat)
    requires Bounded(p.cards) && FlagsAgree(e, p, log, base) && base <= |log| && OthersKept(e, f, view.cardId)
    requires Holds(f, view.cardId) && CardOf(f, view.cardId) == view && TrOf(view).Some?
    requires view.state == Live ==> !view.trFinal && !RestatedSince(log, base, view.cardId)
    ensures FlagsAgree(f, WithCard(p, n, Restated(view)), log + [Restated(view)], base)
  {
    var q, m := WithCard(p, n, Restated(view)), Restated(view);
    WithCardShape(p, n, m);
    forall c | c in q.cards && Holds(f, c.cardId)
      ensures c.trFinal <==> CardOf(f, c.cardId).trFinal || RestatedSince(log + [m], base, c.cardId)
    {
      RestatedOneMore(log, m, base, c.cardId);
    }
  }

  lemma TranslationFlags(e: EngineState, cfg: EngineConfig, cardId: string, lang: string, text: string, final: bool,
                         p: ProjectorState, log: seq<Event>, base: nat)
    requires Valid(e) && Agrees(e, p, |log|) && Recorded(e, log) && FlagsAgree(e, p, log, base) && base <= |log|
    requires final ==> !IsLive(e, cardId)
    ensures var t := ApplyTranslation(e, cfg, cardId, lang, text, final);
            var events := EventsOf(t.state, t.ops);
            FlagsAgree(t.state, Receive(p, log, events), log + events, base)
  {
    var t := ApplyTranslation(e, cfg, cardId, lang, text, final);
    if Holds(e, cardId) && !(CardOf(e, cardId).trFinal && !final) {
      TranslationEffect(e, cfg, cardId, lang, text, final);
      TranslationTells(e, cfg, cardId, lang, text, final);
      if IsLive(e, cardId) {
        SubjectIsUnmarked(e, log, base, cardId);
      }
      var view := CardOf(t.state, cardId);
      RestatedFlags(e, t.state, view, p, |log| + 1, log, base);
      ReceiveCard(p, log, Restated(view));
    } else {
      ReceiveNothing(p, log);
      assert log + [] == log;
    }
  }

  lemma StepFlags(r: RelayState, cfg: RelayConfig, ev: RelayEvent, p: ProjectorState, base: nat)
    requires Enabled(r, ev) && S.RelayOk(r) && Agrees(r.engine, p, |r.log|) && Recorded(r.engine, r.log)
    requires FlagsAgree(r.engine, p, r.log, base) && base <= |r.log|
    ensures var s := Step(r, cfg, ev);
            FlagsAgree(s.engine, Fold(p, Visible(s.log, |r.log|, Captions)), s.log, base)
  {
    ReceiveNothing(p, r.log);
    match ev {
      case Speech(event, nextId) => SpeechFlags(r.engine, cfg.engine, event, nextId, p, r.log, base);
      case Reply(slot, result) =>
        if result.Some? {
          var job := r.queue.inflight[slot];
          if !job.speculative {
            FinalsAreSettled(r, slot);
          }
          TranslationFlags(r.engine, cfg.engine, job.cardId, job.lang, result.value, !job.speculative, p, r.log, base);
        }
      case Configure(patch) => OtherFlags(r.engine, p, r.log, Event.Render(Patched(r.render, patch)), base);
      case VoiceChunk(cardId, lang, chunk, final) =>
        OtherFlags(r.engine, p, r.log, Tts(cardId, lang, chunk, final), base);
      case _ =>
    }
  }

  lemma SameCardsFlags(e: EngineState, p: ProjectorState, q: ProjectorState, log: seq<Event>, ev: Event, base: nat)
    requires FlagsAgree(e, p, log, base) && q.cards == p.cards && !Restates(ev)
    ensures FlagsAgree(e, q, log + [ev], base)
  {
    forall c | c in q.cards && Holds(e, c.cardId)
      ensures c.trFinal <==> CardOf(e, c.cardId).trFinal || RestatedSince(log + [ev], base, c.cardId)
    {
      RestatedOneMore(log, ev, base, c.cardId);
    }
  }

  lemma OtherKeepsCards(p: ProjectorState, log: seq<Event>, ev: Event)
    requires ev.Render? || ev.Tts?
    ensures Receive(p, log, [ev]).cards == p.cards
  {
    ReceiveOne(p, log, ev);
  }

  /** A message about no card. */
  lemma OtherFlags(e: EngineState, p: ProjectorState, log: seq<Event>, ev: Event, base: nat)
    requires FlagsAgree(e, p, log, base) && (ev.Render? || ev.Tts?)
    ensures FlagsAgree(e, Receive(p, log, [ev]), log + [ev], base)
  {
    OtherKeepsCards(p, log, ev);
    SameCardsFlags(e, p, Receive(p, log, [ev]), log, ev, base);
  }

  lemma StepIsRecorded(r: RelayState, cfg: RelayConfig, ev: RelayEvent)
    requires Enabled(r, ev) && S.RelayOk(r) && Recorded(r.engine, r.log)
    ensures Recorded(Step(r, cfg, ev).engine, Step(r, cfg, ev).log)
  {
    var s := Step(r, cfg, ev);
    forall id ensures HasRecord(s.engine, s.log, id) {
      assert HasRecord(r.engine, r.log, id);
      var ts :| Records(r.engine, r.log, ts, id);
      StepRecords(r, cfg, ev, ts, id);
    }
  }

  /* Whole systems */

  /** What a captions client will show when everything due to it has arrived has the engine's marks, but for what was
      told since the snapshot it started from. */
  predicate FlagsConverge(r: RelayState, c: R.Client) {
    c.role == Captions ==>
      && (R.LastSeq(c.got).Some? ==>
            var i := R.LastSnapshot(c.got);
            && i < |c.got| && c.got[i].seqNo <= |r.log|
            && FlagsAgree(r.engine, R.Store(c.got + Visible(r.log, R.LastSeq(c.got).value, Captions)), r.log,
                          c.got[i].seqNo))
      && (R.SnapshotPending(c) ==> FlagsAgree(r.engine, R.Store(c.got + c.wire), r.log, c.wire[0].seqNo))
  }

  /** The news of a step carry flags along. */
  ghost predicate CarriesFlags(r: RelayState, s: RelayState) {
    forall p, base: nat | Agrees(r.engine, p, |r.log|) && base <= |r.log| && FlagsAgree(r.engine, p, r.log, base) ::
      FlagsAgree(s.engine, Fold(p, Visible(s.log, |r.log|, Captions)), s.log, base)
  }

  lemma StepCarriesFlags(r: RelayState, cfg: RelayConfig, ev: RelayEvent)
    requires Enabled(r, ev) && S.RelayOk(r) && Recorded(r.engine, r.log)
    ensures CarriesFlags(r, Step(r, cfg, ev))
  {
    forall p, base: nat | Agrees(r.engine, p, |r.log|) && base <= |r.log| && FlagsAgree(r.engine, p, r.log, base)
      ensures FlagsAgree(Step(r, cfg, ev).engine, Fold(p, Visible(Step(r, cfg, ev).log, |r.log|, Captions)),
                         Step(r, cfg, ev).log, base)
    {
      StepFlags(r, cfg, ev, p, base);
    }
  }

  lemma NewsKeepFlags(r: RelayState, s: RelayState, got: seq<RelayMessage>, sent: seq<RelayMessage>,
                      longer: seq<RelayMessage>, base: nat)
    requires CarriesFlags(r, s) && Agrees(r.engine, R.Store(got + sent), |r.log|) && base <= |r.log|
    requires FlagsAgree(r.engine, R.Store(got + sent), r.log, base)
    requires longer == sent + Visible(s.log, |r.log|, Captions)
    ensures FlagsAgree(s.engine, R.Store(got + longer), s.log, base)
  {
    FoldConcat(INITIAL_STATE, got + sent, Visible(s.log, |r.log|, Captions));
    assert got + longer == got + sent + Visible(s.log, |r.log|, Captions);
  }

  lemma StepKeepsFlags(r: RelayState, s: RelayState, c: R.Client)
    requires R.Carries(r, s) && CarriesFlags(r, s) && R.ClientOk(r, c) && FlagsConverge(r, c)
    ensures FlagsConverge(s, R.Broadcast(c, r, s))
  {
    if c.role == Captions {
      R.PendingKept(r, s, c);
      if R.LastSeq(c.got).Some? {
        var from := R.LastSeq(c.got).value;
        R.VisibleExtends(r.log, s.log, from, Captions);
        NewsKeepFlags(r, s, c.got, Visible(r.log, from, Captions), Visible(s.log, from, Captions),
                      c.got[R.LastSnapshot(c.got)].seqNo);
      }
      if R.SnapshotPending(R.Broadcast(c, r, s)) {
        NewsKeepFlags(r, s, c.got, c.wire, c.wire + Visible(s.log, |r.log|, Captions), c.wire[0].seqNo);
      }
    }
  }

  lemma SnapshotFlags(e: EngineState, p: ProjectorState, log: seq<Event>, m: Event)
    requires Valid(e) && m.Snapshot? && m.cards == ToCaptionCards(Engine.Snapshot(e))
    ensures FlagsAgree(e, ApplyRelayMessage(p, Sequenced(|log|, m)), log, |log|)
  {
    var cards := ApplyRelayMessage(p, Sequenced(|log|, m)).cards;
    SnapshotMirrors(e, p, |log|, m);
    forall i | 0 <= i < |cards|
      ensures Holds(e, cards[i].cardId) && cards[i].trFinal == CardOf(e, cards[i].cardId).trFinal
    {
      SnapshotIsHeld(e, i);
    }
  }

  lemma AttachKeepsFlags(r: RelayState, cfg: RelayConfig, c: R.Client)
    requires Valid(r.engine) && R.NoSnapshots(r.log) && FlagsConverge(r, c) && R.ClientOk(r, c) && !c.open
    ensures FlagsConverge(r, c.(open := true, wire := R.AttachReply(r, cfg, c.role, R.LastSeq(c.got))))
  {
    var d := c.(open := true, wire := R.AttachReply(r, cfg, c.role, R.LastSeq(c.got)));
    var snapshot := R.SnapshotOf(r, cfg);
    if d.wire == [snapshot] {
      FoldConcat(INITIAL_STATE, c.got, [snapshot]);
      FoldOne(R.Store(c.got), snapshot);
      SnapshotFlags(r.engine, R.Store(c.got), r.log, snapshot.event);
    } else {
      R.VisibleIsSequenced(r.log, R.LastSeq(c.got).value, c.role);
    }
  }

  /** What was received and what is in flight stay the same together. */
  lemma DeliverFlags(r: RelayState, c: R.Client, n: nat, i: nat)
    requires c.wire != [] && !R.SnapshotPending(R.Received(c))
    requires R.LastSeq(R.Received(c).got) == Some(n) && R.Received(c).wire == Visible(r.log, n, c.role)
    requires i == R.LastSnapshot(R.Received(c).got) < |R.Received(c).got| && R.Received(c).got[i].seqNo <= |r.log|
    requires c.role == Captions ==>
               FlagsAgree(r.engine, R.Store(c.got + c.wire), r.log, R.Received(c).got[i].seqNo)
    ensures FlagsConverge(r, R.Received(c))
  {
    assert R.Received(c).got + R.Received(c).wire == c.got + c.wire;
  }

  lemma SnapshotKeepsFlags(r: RelayState, c: R.Client)
    requires R.NoSnapshots(r.log) && R.ClientOk(r, c) && FlagsConverge(r, c) && c.open && R.SnapshotPending(c)
    ensures FlagsConverge(r, R.Received(c))
  {
    R.SnapshotArrives(r.log, c);
    R.LastSnapshotKept(c.got, c.wire[0]);
    DeliverFlags(r, c, c.wire[0].seqNo, |c.got|);
  }

  lemma FrameKeepsFlags(r: RelayState, c: R.Client)
    requires R.NoSnapshots(r.log) && R.ClientOk(r, c) && FlagsConverge(r, c)
    requires c.open && c.wire != [] && !R.SnapshotPending(c)
    ensures FlagsConverge(r, R.Received(c))
  {
    R.FrameArrives(r.log, c);
    R.LastSnapshotKept(c.got, c.wire[0]);
    R.VisibleIsSequenced(r.log, R.LastSeq(c.got).value, c.role);
    assert c.wire[0] in c.wire;
    var i := R.LastSnapshot(c.got);
    assert c.got != [] && R.Received(c).got[i] == c.got[i];
    DeliverFlags(r, c, c.wire[0].seqNo, i);
  }

  lemma DeliverKeepsFlags(r: RelayState, c: R.Client)
    requires R.NoSnapshots(r.log) && R.ClientOk(r, c) && FlagsConverge(r, c) && c.open && c.wire != []
    ensures FlagsConverge(r, R.Received(c))
  {
    if R.SnapshotPending(c) {
      SnapshotKeepsFlags(r, c);
    } else {
      FrameKeepsFlags(r, c);
    }
  }

  ghost predicate MarksOk(s: R.System) {
    && R.SystemOk(s) && S.RelayOk(s.relay) && Recorded(s.relay.engine, s.relay.log)
    && forall id | id in s.clients :: FlagsConverge(s.relay, s.clients[id])
  }

  lemma NextKeepsMarks(s: R.System, cfg: RelayConfig, ev: R.SystemEvent)
    requires MarksOk(s) && R.Possible(s, ev) && S.LanguagesOk(cfg)
    ensures MarksOk(R.Next(s, cfg, ev))
  {
    R.NextOk(s, cfg, ev);
    match ev {
      case RelayTurn(e) =>
        var after := Step(s.relay, cfg, e);
        R.StepCarries(s.relay, cfg, e);
        S.StepKeepsQueue(s.relay, cfg, e);
        StepIsRecorded(s.relay, cfg, e);
        StepCarriesFlags(s.relay, cfg, e);
        forall id | id in s.clients ensures FlagsConverge(after, R.Broadcast(s.clients[id], s.relay, after)) {
          StepKeepsFlags(s.relay, after, s.clients[id]);
        }
      case PageLoad(id, role) =>
      case Attach(id) => AttachKeepsFlags(s.relay, cfg, s.clients[id]);
      case Deliver(id) => DeliverKeepsFlags(s.relay, s.clients[id]);
      case Disconnect(id) =>
    }
  }

  lemma {:induction false} RunKeepsMarks(s: R.System, cfg: RelayConfig, run: seq<R.SystemEvent>)
    requires MarksOk(s) && R.Legal(s, cfg, run) && S.LanguagesOk(cfg)
    ensures MarksOk(R.After(s, cfg, run))
    decreases run
  {
    if run != [] {
      NextKeepsMarks(s, cfg, run[0]);
      RunKeepsMarks(R.Next(s, cfg, run[0]), cfg, run[1..]);
    }
  }

  function TakenNow(s: R.System, ev: R.SystemEvent, id: string): seq<Taking>
    requires R.Possible(s, ev)
  {
    if ev.RelayTurn? then TakenBy(s.relay, ev.ev, id) else []
  }

  /** All that was taken for a card in a run, after what was taken before it. */
  function Taken(s: R.System, cfg: RelayConfig, run: seq<R.SystemEvent>, before: seq<Taking>, id: string): seq<Taking>
    requires R.Legal(s, cfg, run)
    decreases run
  {
    if run == [] then before else Taken(R.Next(s, cfg, run[0]), cfg, run[1..], before + TakenNow(s, run[0], id), id)
  }

  ghost predicate IsRecord(r: RelayState, ts: seq<Taking>, id: string) {
    S.RelayOk(r) && Records(r.engine, r.log, ts, id)
  }

  lemma NextIsRecord(s: R.System, cfg: RelayConfig, ev: R.SystemEvent, ts: seq<Taking>, id: string)
    requires IsRecord(s.relay, ts, id) && R.Possible(s, ev) && S.LanguagesOk(cfg)
    ensures IsRecord(R.Next(s, cfg, ev).relay, ts + TakenNow(s, ev, id), id)
  {
    if ev.RelayTurn? {
      S.StepKeepsQueue(s.relay, cfg, ev.ev);
      StepRecords(s.relay, cfg, ev.ev, ts, id);
    } else {
      assert ts + [] == ts;
    }
  }

  lemma {:induction false} TakenIsRecord(s: R.System, cfg: RelayConfig, run: seq<R.SystemEvent>, before: seq<Taking>,
                                         id: string)
    requires IsRecord(s.relay, before, id) && R.Legal(s, cfg, run) && S.LanguagesOk(cfg)
    ensures IsRecord(R.After(s, cfg, run).relay, Taken(s, cfg, run, before, id), id)
    decreases run
  {
    if run != [] {
      NextIsRecord(s, cfg, run[0], before, id);
      TakenIsRecord(R.Next(s, cfg, run[0]), cfg, run[1..], before + TakenNow(s, run[0], id), id);
    }
  }

  /** Over every run: a captions projector that has received all it was sent marks every card final that the engine
      does, and of the cards the engine holds exactly those besides for which a translation was taken since the
      projector's last snapshot but none for good. */
  lemma MarksDifferIff(cfg: RelayConfig, render: RenderConfig, run: seq<R.SystemEvent>, client: nat, c: ProjectorCard)
    requires S.LanguagesOk(cfg) && R.Legal(R.Begin(render), cfg, run)
    requires var s := R.After(R.Begin(render), cfg, run);
             && client in s.clients && s.clients[client].role == Captions
             && s.clients[client].open && s.clients[client].wire == []
             && c in R.Store(s.clients[client].got).cards && Holds(s.relay.engine, c.cardId)
    ensures var s := R.After(R.Begin(render), cfg, run);
            var got, ts := s.clients[client].got, Taken(R.Begin(render), cfg, run, [], c.cardId);
            var marked := CardOf(s.relay.engine, c.cardId).trFinal;
            && R.LastSnapshot(got) < |got|
            && (marked <==> TakenForGood(ts)) && (marked ==> c.trFinal)
            && (c.trFinal && !marked <==> TakenSince(ts, got[R.LastSnapshot(got)].seqNo) && !TakenForGood(ts))
  {
    var start := R.Begin(render);
    BeginsUnmarked(render);
    RunKeepsMarks(start, cfg, run);
    TakenIsRecord(start, cfg, run, [], c.cardId);
    var s := R.After(start, cfg, run);
    var d := s.clients[client];
    assert FlagsConverge(s.relay, d) && R.ClientOk(s.relay, d);
    assert d.got + d.wire == d.got;
  }

  lemma BeginsUnmarked(render: RenderConfig)
    ensures MarksOk(R.Begin(render))
    ensures forall id :: Records(R.Begin(render).relay.engine, R.Begin(render).relay.log, [], id)
  {
    var r := R.Begin(render).relay;
    InitialValid();
    S.StartOk(render);
    forall id ensures HasRecord(r.engine, r.log, id) {
      assert Records(r.engine, r.log, [], id);
    }
  }
}
