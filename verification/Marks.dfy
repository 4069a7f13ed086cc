/** The final mark of a card, at the engine and on screen. A projector takes any translation of a settled card for
    final; the engine remembers whether one was. Here: what turns of the relay do to marks, and what was taken for a
    card. */
module Marks {
  import opened Text
  import opened Wire
  import opened Engine
  import opened CaptionStore
  import opened Relay
  import opened Agreement
  import opened Turns
  import opened Scheduler

  /** A translation of a settled card, as a message. */
  predicate Restates(ev: Event) {
    (ev.Commit? || ev.Retract?) && ev.tr.Some?
  }

  predicate RestatedSince(log: seq<Event>, base: nat, id: string) {
    exists k :: base <= k < |log| && Restates(log[k]) && log[k].cardId == id
  }

  predicate NoneRestates(events: seq<Event>) {
    forall ev | ev in events :: !Restates(ev)
  }

  lemma RestatedOneMore(log: seq<Event>, ev: Event, base: nat, id: string)
    ensures RestatedSince(log + [ev], base, id)
            <==> RestatedSince(log, base, id) || (base <= |log| && Restates(ev) && ev.cardId == id)
  {
    var all := log + [ev];
    assert all[|log|] == ev;
    if k :| base <= k < |log| && Restates(log[k]) && log[k].cardId == id {
      assert Restates(all[k]);
    }
  }

  lemma {:induction false} StillRestated(log: seq<Event>, more: seq<Event>, base: nat, id: string)
    requires NoneRestates(more)
    ensures RestatedSince(log + more, base, id) <==> RestatedSince(log, base, id)
    decreases |more|
  {
    if more == [] {
      assert log + more == log;
    } else {
      var n := |more| - 1;
      StillRestated(log, more[..n], base, id);
      RestatedOneMore(log + more[..n], more[n], base, id);
      assert log + more == log + more[..n] + [more[n]];
    }
  }

  /* What a recogniser's event does to marks */

  lemma UpdateMark(e: EngineState, cfg: EngineConfig, card: LiveCard, tokens: seq<string>, atMs: int)
    ensures var t := UpdateLive(e, cfg, card, tokens, atMs);
            && IsLive(t.state, card.view.cardId) && CardOf(t.state, card.view.cardId).trFinal == card.view.trFinal
            && NoneRestates(EventsOf(t.state, t.ops))
            && forall ev | ev in EventsOf(t.state, t.ops) :: NamesCard(ev) && ev.cardId == card.view.cardId
  {
    UpdateEvents(e, cfg, card, tokens, atMs, UpdateLive(e, cfg, card, tokens, atMs).state);
  }

  function Room(settled: seq<CardView>): seq<CardView> {
    if Backlog(|settled|).DropOldest? then settled[1..] else settled
  }

  /** The card that is settled keeps its mark. */
  lemma CommitMark(e: EngineState, cfg: EngineConfig, card: LiveCard, clean: string, atMs: int)
    requires DistinctCards(e.settled) && !IsSettled(e, card.view.cardId)
    ensures var f := CommitCard(e, cfg, card, clean, atMs).state;
            IsSettled(f, card.view.cardId) && CardOf(f, card.view.cardId).trFinal == card.view.trFinal
  {
    IndexAfterPush(Room(e.settled), Settle(card, clean), card.view.cardId);
    if Backlog(|e.settled|).DropOldest? {
      IndexAfterShift(e.settled, card.view.cardId);
    }
  }

  /** One that is dropped to make room is no longer held. */
  lemma DroppedIsGone(e: EngineState, cfg: EngineConfig, card: LiveCard, clean: string, atMs: int)
    requires DistinctCards(e.settled) && !IsSettled(e, card.view.cardId) && Backlog(|e.settled|).DropOldest?
    ensures !Holds(CommitCard(e, cfg, card, clean, atMs).state, e.settled[0].cardId)
  {
    IndexAfterShift(e.settled, e.settled[0].cardId);
    IndexAfterPush(Room(e.settled), Settle(card, clean), e.settled[0].cardId);
  }

  lemma CommitTells(e: EngineState, cfg: EngineConfig, card: LiveCard, clean: string, atMs: int)
    requires DistinctCards(e.settled) && !IsSettled(e, card.view.cardId)
    ensures var t := CommitCard(e, cfg, card, clean, atMs);
            && NoneRestates(EventsOf(t.state, t.ops))
            && forall ev | ev in EventsOf(t.state, t.ops) ::
                 NamesCard(ev) && (ev.cardId == card.view.cardId || !Holds(t.state, ev.cardId))
  {
    CommitEvents(e, cfg, card, clean, atMs, CommitCard(e, cfg, card, clean, atMs).state);
    if Backlog(|e.settled|).DropOldest? {
      DroppedIsGone(e, cfg, card, clean, atMs);
    }
  }

  /** The card is the live one, or one not seen before. */
  predicate IsSubject(e: EngineState, id: string) {
    IsLive(e, id) || id !in e.issued
  }

  /** A card that has been settled is never live again; a card keeps its mark, and a new one has none. */
  predicate MarkKept(e: EngineState, f: EngineState, id: string) {
    && (!IsSubject(e, id) ==> id in f.issued && !IsLive(f, id))
    && (Holds(f, id) ==> if Holds(e, id) then CardOf(f, id).trFinal == CardOf(e, id).trFinal
                         else id !in e.issued && !CardOf(f, id).trFinal)
  }

  /** Cards settled before are as they were or dropped, and others than the subject are not there. */
  lemma OthersKeepMarks(e: EngineState, cfg: EngineConfig, event: SttEvent, nextId: string, subject: string, id: string)
    requires Valid(e) && nextId !in e.issued && id != subject
    requires subject == if e.live.Some? then e.live.value.view.cardId else nextId
    ensures MarkKept(e, Push(e, cfg, event, nextId).state, id)
  {
    if id in e.issued {
      PushKeepsSettled(e, cfg, event, nextId, id);
    } else {
      PushValid(e, cfg, event, nextId);
      IssuedByPush(e, cfg, event, nextId);
    }
  }

  lemma IssuedByPush(e: EngineState, cfg: EngineConfig, event: SttEvent, nextId: string)
    ensures e.issued <= Push(e, cfg, event, nextId).state.issued <= e.issued + {nextId}
    ensures e.live.Some? ==> Push(e, cfg, event, nextId).state.issued == e.issued
  {
  }

  lemma SubjectKeepsMark(e: EngineState, cfg: EngineConfig, event: SttEvent, nextId: string)
    requires Valid(e) && nextId !in e.issued
    ensures MarkKept(e, Push(e, cfg, event, nextId).state, if e.live.Some? then e.live.value.view.cardId else nextId)
  {
    var base := if e.live.Some? then e else e.(issued := e.issued + {nextId});
    match event {
      case Partial(text, atMs) =>
        UpdateMark(base, cfg, if e.live.Some? then e.live.value else NewCard(nextId, atMs), Tokenize(text), atMs);
      case Committed(text, atMs) =>
        CommitMark(base, cfg, if e.live.Some? then e.live.value else NewCard(nextId, atMs), Trim(text), atMs);
      case Silence(_) =>
    }
  }

  lemma PushKeepsMark(e: EngineState, cfg: EngineConfig, event: SttEvent, nextId: string, id: string)
    requires Valid(e) && nextId !in e.issued
    ensures MarkKept(e, Push(e, cfg, event, nextId).state, id)
  {
    var subject := if e.live.Some? then e.live.value.view.cardId else nextId;
    if id == subject {
      SubjectKeepsMark(e, cfg, event, nextId);
    } else {
      OthersKeepMarks(e, cfg, event, nextId, subject, id);
    }
  }

  /** What is sent names no translation, and of the cards still held only the subject. */
  predicate Tells(e: EngineState, f: EngineState, events: seq<Event>) {
    && NoneRestates(events)
    && forall ev | ev in events :: NamesCard(ev) && (Holds(f, ev.cardId) ==> IsSubject(e, ev.cardId))
  }

  lemma OpeningTells(f: EngineState, id: string, atMs: int, ops: seq<CaptionOp>)
    ensures EventsOf(f, [CardOpen(id, atMs)] + ops) == EventsOf(f, ops)
  {
    EventsConcat(f, [CardOpen(id, atMs)], ops);
    EventsOne(f, CardOpen(id, atMs));
  }

  lemma PartialTells(e: EngineState, cfg: EngineConfig, text: string, atMs: int, nextId: string)
    requires Valid(e) && nextId !in e.issued
    ensures var t := OnPartial(e, cfg, text, atMs, nextId); Tells(e, t.state, EventsOf(t.state, t.ops))
  {
    var tokens := Tokenize(text);
    if e.live.Some? {
      UpdateMark(e, cfg, e.live.value, tokens, atMs);
    } else {
      var base := e.(issued := e.issued + {nextId});
      var t := UpdateLive(base, cfg, NewCard(nextId, atMs), tokens, atMs);
      UpdateMark(base, cfg, NewCard(nextId, atMs), tokens, atMs);
      OpeningTells(t.state, nextId, atMs, t.ops);
    }
  }

  lemma CommittedTells(e: EngineState, cfg: EngineConfig, text: string, atMs: int, nextId: string)
    requires Valid(e) && nextId !in e.issued
    ensures var t := OnCommitted(e, cfg, text, atMs, nextId); Tells(e, t.state, EventsOf(t.state, t.ops))
  {
    var clean := Trim(text);
    if clean == "" {
      CloseTells(e, atMs);
    } else if e.live.Some? {
      CommitTells(e, cfg, e.live.value, clean, atMs);
    } else {
      var base := e.(issued := e.issued + {nextId});
      var t := CommitCard(base, cfg, NewCard(nextId, atMs), clean, atMs);
      CommitTells(base, cfg, NewCard(nextId, atMs), clean, atMs);
      OpeningTells(t.state, nextId, atMs, t.ops);
    }
  }

  lemma CloseTells(e: EngineState, atMs: int)
    requires Valid(e)
    ensures var t := CloseLive(e, atMs); Tells(e, t.state, EventsOf(t.state, t.ops))
  {
    if e.live.Some? {
      EventsOne(CloseLive(e, atMs).state, CardClose(e.live.value.view.cardId, atMs));
    }
  }

  lemma PushTells(e: EngineState, cfg: EngineConfig, event: SttEvent, nextId: string)
    requires Valid(e) && nextId !in e.issued
    ensures var t := Push(e, cfg, event, nextId); Tells(e, t.state, EventsOf(t.state, t.ops))
  {
    match event {
      case Partial(text, atMs) => PartialTells(e, cfg, text, atMs, nextId);
      case Committed(text, atMs) => CommittedTells(e, cfg, text, atMs, nextId);
      case Silence(atMs) => CloseTells(e, atMs);
    }
  }

  /* What was taken for a card */

  /** A translation taken for a settled card, when the log had so many entries. */
  datatype Taking = Taking(at: nat, final: bool)

  /** A reply is taken for a card unless it is speculative and the card has a final one. */
  predicate Takes(r: RelayState, ev: RelayEvent, id: string)
    requires Enabled(r, ev)
  {
    && ev.Reply? && ev.result.Some? && r.phase != Closed && r.queue.inflight[ev.slot].cardId == id
    && Holds(r.engine, id) && !(CardOf(r.engine, id).trFinal && r.queue.inflight[ev.slot].speculative)
  }

  function TakenBy(r: RelayState, ev: RelayEvent, id: string): seq<Taking>
    requires Enabled(r, ev)
  {
    if Takes(r, ev, id) && !IsLive(r.engine, id) then [Taking(|r.log|, !r.queue.inflight[ev.slot].speculative)] else []
  }

  predicate TakenSince(ts: seq<Taking>, base: nat) {
    exists t :: t in ts && t.at >= base
  }

  predicate TakenForGood(ts: seq<Taking>) {
    exists t :: t in ts && t.final
  }

  /** The log tells of exactly what was taken, a card is marked when something was taken for good, and nothing was taken
      for a card that has not been settled. */
  ghost predicate Records(e: EngineState, log: seq<Event>, ts: seq<Taking>, id: string) {
    && (forall t | t in ts :: t.at < |log|)
    && (forall base: nat :: RestatedSince(log, base, id) <==> TakenSince(ts, base))
    && (Holds(e, id) ==> (CardOf(e, id).trFinal <==> TakenForGood(ts)))
    && (IsSubject(e, id) ==> ts == [])
  }

  /** A turn that restates nothing and keeps the mark. */
  lemma MarkKeepsRecords(e: EngineState, f: EngineState, log: seq<Event>, more: seq<Event>, ts: seq<Taking>, id: string)
    requires Records(e, log, ts, id) && MarkKept(e, f, id) && NoneRestates(more)
    ensures Records(f, log + more, ts, id)
  {
    forall base: nat ensures RestatedSince(log + more, base, id) <==> TakenSince(ts, base) {
      StillRestated(log, more, base, id);
    }
  }

  lemma AppliedTells(f: EngineState, ops: seq<CaptionOp>, cardId: string)
    requires ops != [] && ops[0].CardTranslate? && ops[0].cardId == cardId && Holds(f, cardId)
    requires forall op | op in ops[1..] :: EventOf(f, op) == []
    ensures EventsOf(f, ops) == [Restated(CardOf(f, cardId))]
  {
    SilentOps(f, ops[1..]);
    EventsConcat(f, [ops[0]], ops[1..]);
    EventsOne(f, ops[0]);
    assert ops == [ops[0]] + ops[1..];
  }

  /** The events of a translation that was applied: the card, as it is now. */
  lemma TranslationTells(e: EngineState, cfg: EngineConfig, cardId: string, lang: string, text: string, final: bool)
    requires Valid(e) && Holds(e, cardId) && !(CardOf(e, cardId).trFinal && !final)
    ensures var t := ApplyTranslation(e, cfg, cardId, lang, text, final);
            && Valid(t.state) && Holds(t.state, cardId) && TrOf(CardOf(t.state, cardId)).Some?
            && EventsOf(t.state, t.ops) == [Restated(CardOf(t.state, cardId))]
            && CardOf(t.state, cardId).state == if IsLive(e, cardId) then Live else Settled
  {
    var t := ApplyTranslation(e, cfg, cardId, lang, text, final);
    TranslationEffect(e, cfg, cardId, lang, text, final);
    ApplyTranslationValid(e, cfg, cardId, lang, text, final);
    HeldState(t.state, cardId);
    AppliedTells(t.state, t.ops, cardId);
    assert lang in CardOf(t.state, cardId).tr;
  }

  lemma OneMoreTaken(ts: seq<Taking>, t: Taking, base: nat)
    ensures TakenSince(ts + [t], base) <==> TakenSince(ts, base) || t.at >= base
    ensures TakenForGood(ts + [t]) <==> TakenForGood(ts) || t.final
  {
    assert t in ts + [t];
    if u :| u in ts && u.at >= base {
      assert u in ts + [t];
    }
    if u :| u in ts && u.final {
      assert u in ts + [t];
    }
  }

  /** A translation of a settled card is taken: it is told, and marks the card if it is final. */
  lemma TakenIsRecorded(e: EngineState, f: EngineState, log: seq<Event>, ev: Event, ts: seq<Taking>, id: string,
                        final: bool)
    requires Records(e, log, ts, id) && Restates(ev) && ev.cardId == id
    requires Holds(e, id) && Holds(f, id) && !IsSubject(f, id) && CardOf(f, id).trFinal == final
    requires CardOf(e, id).trFinal ==> final
    ensures Records(f, log + [ev], ts + [Taking(|log|, final)], id)
  {
    var more := ts + [Taking(|log|, final)];
    forall base: nat ensures RestatedSince(log + [ev], base, id) <==> TakenSince(more, base) {
      RestatedOneMore(log, ev, base, id);
      OneMoreTaken(ts, Taking(|log|, final), base);
    }
    OneMoreTaken(ts, Taking(|log|, final), 0);
  }

  lemma OtherIsRecorded(e: EngineState, f: EngineState, log: seq<Event>, ev: Event, ts: seq<Taking>, id: string)
    requires Records(e, log, ts, id) && MarkKept(e, f, id) && (Restates(ev) ==> ev.cardId != id)
    ensures Records(f, log + [ev], ts, id)
  {
    forall base: nat ensures RestatedSince(log + [ev], base, id) <==> TakenSince(ts, base) {
      RestatedOneMore(log, ev, base, id);
    }
  }

  lemma TranslationRecords(e: EngineState, cfg: EngineConfig, cardId: string, lang: string, text: string, final: bool,
                           log: seq<Event>, ts: seq<Taking>, id: string)
    requires Valid(e) && Records(e, log, ts, id) && (final ==> !IsLive(e, cardId))
    requires Holds(e, cardId) && !(CardOf(e, cardId).trFinal && !final)
    ensures var t := ApplyTranslation(e, cfg, cardId, lang, text, final);
            Records(t.state, log + EventsOf(t.state, t.ops),
                    ts + if id == cardId && !IsLive(e, id) then [Taking(|log|, final)] else [], id)
  {
    var f := ApplyTranslation(e, cfg, cardId, lang, text, final).state;
    TranslationEffect(e, cfg, cardId, lang, text, final);
    TranslationTells(e, cfg, cardId, lang, text, final);
    var ev := Restated(CardOf(f, cardId));
    HeldState(e, cardId);
    if id == cardId && !IsLive(e, id) {
      TakenIsRecorded(e, f, log, ev, ts, id, final);
    } else {
      OtherIsRecorded(e, f, log, ev, ts, id);
      assert ts + [] == ts;
    }
  }

  /** A committed request is about a card that is no longer live. */
  lemma FinalsAreSettled(r: RelayState, slot: nat)
    requires RelayOk(r) && slot < |r.queue.inflight| && !r.queue.inflight[slot].speculative
    ensures !IsLive(r.engine, r.queue.inflight[slot].cardId)
  {
    var job := r.queue.inflight[slot];
    assert Places(r.queue, (job.cardId, job.lang)) == One((job.cardId, job.lang) in r.queue.asked);
    CountPositive(r.queue.inflight, slot, (job.cardId, job.lang));
  }

  lemma ReplyRecords(r: RelayState, cfg: RelayConfig, slot: nat, text: string, ts: seq<Taking>, id: string)
    requires RelayOk(r) && slot < |r.queue.inflight| && r.phase != Closed && Records(r.engine, r.log, ts, id)
    ensures var s := Step(r, cfg, Reply(slot, Some(text)));
            Records(s.engine, s.log, ts + TakenBy(r, Reply(slot, Some(text)), id), id)
  {
    var job := r.queue.inflight[slot];
    if !job.speculative {
      FinalsAreSettled(r, slot);
    }
    if Holds(r.engine, job.cardId) && !(CardOf(r.engine, job.cardId).trFinal && job.speculative) {
      TranslationRecords(r.engine, cfg.engine, job.cardId, job.lang, text, !job.speculative, r.log, ts, id);
    } else {
      assert r.log + [] == r.log && ts + [] == ts;
    }
  }

  lemma StepRecords(r: RelayState, cfg: RelayConfig, ev: RelayEvent, ts: seq<Taking>, id: string)
    requires Enabled(r, ev) && RelayOk(r) && Records(r.engine, r.log, ts, id)
    ensures var s := Step(r, cfg, ev); Records(s.engine, s.log, ts + TakenBy(r, ev, id), id)
  {
    if ev.Reply? && ev.result.Some? && r.phase != Closed {
      ReplyRecords(r, cfg, ev.slot, ev.result.value, ts, id);
    } else {
      assert ts + [] == ts && r.log + [] == r.log;
      match ev {
        case Speech(event, nextId) =>
          if r.phase != Closed {
            var t := Push(r.engine, cfg.engine, event, nextId);
            PushKeepsMark(r.engine, cfg.engine, event, nextId, id);
            PushTells(r.engine, cfg.engine, event, nextId);
            MarkKeepsRecords(r.engine, t.state, r.log, EventsOf(t.state, t.ops), ts, id);
          }
        case Configure(patch) =>
          MarkKeepsRecords(r.engine, r.engine, r.log, [Event.Render(Patched(r.render, patch))], ts, id);
        case VoiceChunk(cardId, lang, chunk, final) =>
          MarkKeepsRecords(r.engine, r.engine, r.log, [Tts(cardId, lang, chunk, final)], ts, id);
        case _ =>
      }
    }
  }
}
