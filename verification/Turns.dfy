/** Every turn of the relay keeps a caught-up captions projector in agreement with the engine: first the events of a
    turn and how they are received, then partials, commits, closes and translations one by one, and at last every step
    of the relay, whatever its phase. */
module Turns {
  import opened Text
  import opened Wire
  import opened Engine
  import opened CaptionStore
  import opened Relay
  import opened Agreement

  /** A captions projector in state `p` that has received `log` receives the events of one more turn. */
  function Receive(p: ProjectorState, log: seq<Event>, events: seq<Event>): ProjectorState {
    Fold(p, Visible(log + events, |log|, Captions))
  }

  lemma ReceiveNothing(p: ProjectorState, log: seq<Event>)
    ensures Receive(p, log, []) == p
  {
    assert log + [] == log;
  }

  lemma ReceiveOne(p: ProjectorState, log: seq<Event>, ev: Event)
    ensures Receive(p, log, [ev]) == if ev.Tts? then p else ApplyRelayMessage(p, Sequenced(|log| + 1, ev))
  {
    var all := log + [ev];
    assert all[..|log|] == log;
    var m := Sequenced(|log| + 1, ev);
    assert Visible(all, |log|, Captions) == if ev.Tts? then [] else [m];
    FoldOne(p, m);
  }

  lemma ReceiveTwo(p: ProjectorState, log: seq<Event>, a: Event, b: Event)
    ensures Receive(p, log, [a, b]) == Receive(Receive(p, log, [a]), log + [a], [b])
  {
    var la, lab := log + [a], log + [a, b];
    assert la + [b] == lab;
    VisibleGrows(la, [b], |log|, Captions);
    FoldConcat(p, Visible(la, |log|, Captions), Visible(lab, |la|, Captions));
  }

  lemma ReceiveCard(p: ProjectorState, log: seq<Event>, ev: Event)
    requires NamesCard(ev) && p.lastSeq <= |log|
    ensures Receive(p, log, [ev]) == WithCard(p, |log| + 1, ev)
  {
    ReceiveOne(p, log, ev);
  }

  lemma ReceiveTwoCards(p: ProjectorState, log: seq<Event>, a: Event, b: Event)
    requires NamesCard(a) && NamesCard(b) && p.lastSeq <= |log|
    ensures Receive(p, log, [a, b]) == WithCard(WithCard(p, |log| + 1, a), |log| + 2, b)
  {
    ReceiveCard(p, log, a);
    ReceiveCard(WithCard(p, |log| + 1, a), log + [a], b);
    ReceiveTwo(p, log, a, b);
  }

  /** After the events of a turn, the projector agrees with the engine after it. */
  predicate Follows(t: Turn, p: ProjectorState, log: seq<Event>) {
    var events := EventsOf(t.state, t.ops);
    Agrees(t.state, Receive(p, log, events), |log| + |events|)
  }

  /* The events of a turn */

  lemma {:induction false} EventsConcat(e: EngineState, a: seq<CaptionOp>, b: seq<CaptionOp>)
    ensures EventsOf(e, a + b) == EventsOf(e, a) + EventsOf(e, b)
    decreases |b|
  {
    if b == [] {
      assert a + b == a;
    } else {
      var front, last := b[..|b| - 1], b[|b| - 1];
      EventsConcat(e, a, front);
      assert (a + b)[..|a + b| - 1] == a + front && (a + b)[|a + b| - 1] == last;
      var x, y, z := EventsOf(e, a), EventsOf(e, front), EventOf(e, last);
      assert EventsOf(e, a + b) == (x + y) + z == x + (y + z);
    }
  }

  lemma EventsOne(e: EngineState, op: CaptionOp)
    ensures EventsOf(e, [op]) == EventOf(e, op)
  {
    assert [op][..0] == [];
  }

  lemma EventsTwo(e: EngineState, a: CaptionOp, b: CaptionOp)
    ensures EventsOf(e, [a, b]) == EventOf(e, a) + EventOf(e, b)
  {
    assert [a, b] == [a] + [b];
    EventsConcat(e, [a], [b]);
    EventsOne(e, a);
    EventsOne(e, b);
  }

  lemma {:induction false} SilentOps(e: EngineState, ops: seq<CaptionOp>)
    requires forall op | op in ops :: EventOf(e, op) == []
    ensures EventsOf(e, ops) == []
    decreases |ops|
  {
    if ops != [] {
      SilentOps(e, ops[..|ops| - 1]);
    }
  }

  lemma SilentMiddle(e: EngineState, a: seq<CaptionOp>, s: seq<CaptionOp>, t: seq<CaptionOp>, b: seq<CaptionOp>)
    requires (forall op | op in s :: EventOf(e, op) == []) && (forall op | op in t :: EventOf(e, op) == [])
    ensures EventsOf(e, a + s + t + b) == EventsOf(e, a) + EventsOf(e, b)
  {
    EventsConcat(e, a + s + t, b);
    SilentTail(e, a + s, t);
    SilentTail(e, a, s);
  }

  lemma SilentTail(e: EngineState, a: seq<CaptionOp>, s: seq<CaptionOp>)
    requires forall op | op in s :: EventOf(e, op) == []
    ensures EventsOf(e, a + s) == EventsOf(e, a)
  {
    EventsConcat(e, a, s);
    SilentOps(e, s);
    assert EventsOf(e, a) + [] == EventsOf(e, a);
  }

  lemma OneEvent(t: Turn, ev: Event, p: ProjectorState, log: seq<Event>)
    requires EventsOf(t.state, t.ops) == [ev] && NamesCard(ev) && p.lastSeq <= |log|
    requires Agrees(t.state, WithCard(p, |log| + 1, ev), |log| + 1)
    ensures Follows(t, p, log)
  {
    ReceiveCard(p, log, ev);
  }

  /* Partials */

  lemma UpdateEvents(e: EngineState, cfg: EngineConfig, card: LiveCard, tokens: seq<string>, atMs: int, f: EngineState)
    ensures var t := UpdateLive(e, cfg, card, tokens, atMs);
            && t.state.live.Some? && t.state.settled == e.settled && t.state.issued == e.issued
            && var v := t.state.live.value.view;
            && v == card.view.(text := v.text, stable := v.stable)
            && EventsOf(f, t.ops) == [Event.Partial(v.cardId, v.text, v.stable, None)]
  {
    var t := UpdateLive(e, cfg, card, tokens, atMs);
    if |t.ops| == 2 {
      EventsTwo(f, t.ops[0], t.ops[1]);
      assert t.ops == [t.ops[0], t.ops[1]];
    } else {
      EventsOne(f, t.ops[0]);
      assert t.ops == [t.ops[0]];
    }
  }

  /** Fresh identifiers are on no screen. */
  lemma FreshNotShown(e: EngineState, p: ProjectorState, n: nat, id: string)
    requires Agrees(e, p, n) && id !in e.issued
    ensures !Shows(p.cards, id)
  {
    assert forall c | c in p.cards :: CardAgrees(e, c) && c.cardId != id;
  }

  lemma UpdateFollows(e: EngineState, base: EngineState, cfg: EngineConfig, card: LiveCard, tokens: seq<string>,
                      atMs: int, t: Turn, p: ProjectorState, log: seq<Event>)
    requires Valid(e) && Agrees(e, p, |log|)
    requires base.settled == e.settled && e.issued <= base.issued && card.view.cardId in base.issued
    requires card.view.state == Live
    requires if e.live.Some? then e.live.value == card else card.view.tr == map[] && !Shows(p.cards, card.view.cardId)
    requires t.state == UpdateLive(base, cfg, card, tokens, atMs).state
    requires EventsOf(t.state, t.ops) == EventsOf(t.state, UpdateLive(base, cfg, card, tokens, atMs).ops)
    ensures Follows(t, p, log)
  {
    UpdateEvents(base, cfg, card, tokens, atMs, t.state);
    var v := t.state.live.value.view;
    var ev := Event.Partial(v.cardId, v.text, v.stable, None);
    UpdateAgrees(e, t.state, card.view, p, |log| + 1, ev);
    OneEvent(t, ev, p, log);
  }

  lemma PartialFollows(e: EngineState, cfg: EngineConfig, text: string, atMs: int, nextId: string,
                       p: ProjectorState, log: seq<Event>)
    requires Valid(e) && nextId !in e.issued && Agrees(e, p, |log|)
    ensures Follows(OnPartial(e, cfg, text, atMs, nextId), p, log)
  {
    var tokens := Tokenize(text);
    var t := OnPartial(e, cfg, text, atMs, nextId);
    if tokens == [] {
      ReceiveNothing(p, log);
    } else if e.live.Some? {
      UpdateFollows(e, e, cfg, e.live.value, tokens, atMs, t, p, log);
    } else {
      var base := e.(issued := e.issued + {nextId});
      var card := NewCard(nextId, atMs);
      FreshNotShown(e, p, |log|, nextId);
      EventsConcat(t.state, [CardOpen(nextId, atMs)], UpdateLive(base, cfg, card, tokens, atMs).ops);
      EventsOne(t.state, CardOpen(nextId, atMs));
      UpdateFollows(e, base, cfg, card, tokens, atMs, t, p, log);
    }
  }

  /* Commits */

  lemma DropEvents(e: EngineState, atMs: int, f: EngineState)
    ensures EventsOf(f, DropOps(e.settled, atMs))
         == if Backlog(|e.settled|).DropOldest? then [CardEnd(e.settled[0].cardId)] else []
  {
    if Backlog(|e.settled|).DropOldest? {
      EventsOne(f, CardClose(e.settled[0].cardId, atMs));
    }
  }

  /** A commit shows the sentence and, when the list was full, closes the oldest settled card. */
  lemma CommitEvents(e: EngineState, cfg: EngineConfig, card: LiveCard, clean: string, atMs: int, f: EngineState)
    ensures var t := CommitCard(e, cfg, card, clean, atMs);
            EventsOf(f, t.ops) == [CommitEvent(card, clean)]
              + if Backlog(|e.settled|).DropOldest? then [CardEnd(e.settled[0].cardId)] else []
  {
    var id := card.view.cardId;
    var request, speech, drop :=
      RequestOps(e.context, cfg, id, clean), SpeechOps(e.pendingSpeech, cfg, id, clean), DropOps(e.settled, atMs);
    assert CommitCard(e, cfg, card, clean, atMs).ops == [CommitOp(card, clean)] + request + speech + drop;
    SilentMiddle(f, [CommitOp(card, clean)], request, speech, drop);
    EventsOne(f, CommitOp(card, clean));
    DropEvents(e, atMs, f);
  }

  function CommitEvent(card: LiveCard, clean: string): Event {
    if CommitOp(card, clean).CardRetract? then Retract(card.view.cardId, clean, None)
    else Commit(card.view.cardId, clean, None)
  }

  /** `e` is the engine when the sentence arrives; `base` also counts the identifier of a freshly opened card. */
  lemma CommitCardFollows(e: EngineState, base: EngineState, cfg: EngineConfig, card: LiveCard, clean: string,
                          atMs: int, t: Turn, p: ProjectorState, log: seq<Event>)
    requires Valid(e) && Agrees(e, p, |log|)
    requires base.settled == e.settled && e.issued <= base.issued
    requires card.view.cardId in base.issued && !IsSettled(e, card.view.cardId)
    requires if e.live.Some? then e.live.value == card else card.view.tr == map[] && !Shows(p.cards, card.view.cardId)
    requires t.state == CommitCard(base, cfg, card, clean, atMs).state
    requires EventsOf(t.state, t.ops) == EventsOf(t.state, CommitCard(base, cfg, card, clean, atMs).ops)
    ensures Follows(t, p, log)
  {
    var ev := CommitEvent(card, clean);
    CommitEvents(base, cfg, card, clean, atMs, t.state);
    var shown := base.(live := None, settled := base.settled + [Settle(card, clean)]);
    CommitAgrees(e, shown, card.view, p, |log| + 1, ev);
    if Backlog(|e.settled|).DropOldest? {
      DropFollows(e, shown, t, card, clean, p, log, ev);
    } else {
      SameCardsAgree(shown, t.state, WithCard(p, |log| + 1, ev), |log| + 1);
      OneEvent(t, ev, p, log);
    }
  }

  lemma SameCardsAgree(e: EngineState, f: EngineState, p: ProjectorState, n: nat)
    requires Agrees(e, p, n)
    requires e.live == f.live && e.settled == f.settled && e.issued == f.issued
    ensures Agrees(f, p, n)
  {
    assert forall c | c in p.cards :: CardAgrees(e, c) && CardAgrees(f, c);
  }

  lemma PushKeepsDistinct(settled: seq<CardView>, card: CardView)
    requires DistinctCards(settled) && IndexOf(settled, card.cardId) == |settled|
    ensures DistinctCards(settled + [card])
  {
  }

  lemma DropFollows(e: EngineState, shown: EngineState, t: Turn, card: LiveCard, clean: string,
                    p: ProjectorState, log: seq<Event>, ev: Event)
    requires Valid(e) && e.settled != [] && !IsSettled(e, card.view.cardId)
    requires shown.live.None? && e.issued <= shown.issued && shown.settled == e.settled + [Settle(card, clean)]
    requires t.state.live.None? && t.state.settled == e.settled[1..] + [Settle(card, clean)]
    requires t.state.issued == shown.issued
    requires NamesCard(ev) && p.lastSeq <= |log| && Agrees(shown, WithCard(p, |log| + 1, ev), |log| + 1)
    requires EventsOf(t.state, t.ops) == [ev] + [CardEnd(e.settled[0].cardId)]
    ensures Follows(t, p, log)
  {
    var dropped := CardEnd(e.settled[0].cardId);
    DropAgrees(e, shown, t.state, Settle(card, clean), WithCard(p, |log| + 1, ev), |log| + 1);
    assert [ev] + [dropped] == [ev, dropped];
    TwoEvents(t, ev, dropped, p, log);
  }

  lemma DropAgrees(e: EngineState, shown: EngineState, f: EngineState, card: CardView, q: ProjectorState, n: nat)
    requires Valid(e) && e.settled != [] && !IsSettled(e, card.cardId)
    requires shown.live.None? && e.issued <= shown.issued && shown.settled == e.settled + [card]
    requires f.live.None? && f.settled == e.settled[1..] + [card] && f.issued == shown.issued
    requires Agrees(shown, q, n)
    ensures Agrees(f, WithCard(q, n + 1, CardEnd(e.settled[0].cardId)), n + 1)
  {
    assert f.settled == shown.settled[1..] && shown.settled[0] == e.settled[0];
    PushKeepsDistinct(e.settled, card);
    DropKeepsOthers(shown, f);
    EndAgrees(shown, f, q, n + 1, CardEnd(e.settled[0].cardId));
  }

  lemma TwoEvents(t: Turn, a: Event, b: Event, p: ProjectorState, log: seq<Event>)
    requires EventsOf(t.state, t.ops) == [a, b] && NamesCard(a) && NamesCard(b) && p.lastSeq <= |log|
    requires Agrees(t.state, WithCard(WithCard(p, |log| + 1, a), |log| + 2, b), |log| + 2)
    ensures Follows(t, p, log)
  {
    ReceiveTwoCards(p, log, a, b);
  }

  lemma CloseFollows(e: EngineState, atMs: int, p: ProjectorState, log: seq<Event>)
    requires Valid(e) && Agrees(e, p, |log|)
    ensures Follows(CloseLive(e, atMs), p, log)
  {
    var t := CloseLive(e, atMs);
    if e.live.None? {
      ReceiveNothing(p, log);
    } else {
      var ev := CardEnd(e.live.value.view.cardId);
      EventsOne(t.state, t.ops[0]);
      EndAgrees(e, t.state, p, |log| + 1, ev);
      OneEvent(t, ev, p, log);
    }
  }

  lemma CommittedFollows(e: EngineState, cfg: EngineConfig, text: string, atMs: int, nextId: string,
                         p: ProjectorState, log: seq<Event>)
    requires Valid(e) && nextId !in e.issued && Agrees(e, p, |log|)
    ensures Follows(OnCommitted(e, cfg, text, atMs, nextId), p, log)
  {
    var clean := Trim(text);
    var t := OnCommitted(e, cfg, text, atMs, nextId);
    if clean == "" {
      CloseFollows(e, atMs, p, log);
    } else if e.live.Some? {
      CommitCardFollows(e, e, cfg, e.live.value, clean, atMs, t, p, log);
    } else {
      var base := e.(issued := e.issued + {nextId});
      var card := NewCard(nextId, atMs);
      FreshNotShown(e, p, |log|, nextId);
      EventsConcat(t.state, [CardOpen(nextId, atMs)], CommitCard(base, cfg, card, clean, atMs).ops);
      EventsOne(t.state, CardOpen(nextId, atMs));
      CommitCardFollows(e, base, cfg, card, clean, atMs, t, p, log);
    }
  }

  /* Translations */

  /** A translation that is applied changes one card and nothing else. */
  lemma TranslationEffect(e: EngineState, cfg: EngineConfig, cardId: string, lang: string, text: string, final: bool)
    requires Valid(e) && Holds(e, cardId) && !(CardOf(e, cardId).trFinal && !final)
    ensures var f := ApplyTranslation(e, cfg, cardId, lang, text, final).state;
            && Holds(f, cardId) && CardOf(f, cardId) == Translated(CardOf(e, cardId), lang, text, final)
            && OthersKept(e, f, cardId) && e.issued == f.issued
            && (forall x :: IsSettled(e, x) == IsSettled(f, x) && IsLive(e, x) == IsLive(f, x))
            && e.live.Some? == f.live.Some?
            && (e.live.Some? ==> e.live.value.view.cardId == f.live.value.view.cardId)
  {
    var f := ApplyTranslation(e, cfg, cardId, lang, text, final).state;
    if !IsLive(e, cardId) {
      var i := IndexOf(e.settled, cardId);
      var view := Translated(CardOf(e, cardId), lang, text, final);
      forall x
        ensures IndexOf(f.settled, x) == IndexOf(e.settled, x)
        ensures x != cardId && IndexOf(e.settled, x) < |e.settled| ==>
                f.settled[IndexOf(f.settled, x)] == e.settled[IndexOf(e.settled, x)]
      {
        IndexAfterUpdate(e.settled, i, view, x);
      }
    }
  }

  lemma TranslationFollows(e: EngineState, cfg: EngineConfig, cardId: string, lang: string, text: string, final: bool,
                           p: ProjectorState, log: seq<Event>)
    requires Valid(e) && Agrees(e, p, |log|)
    ensures Follows(ApplyTranslation(e, cfg, cardId, lang, text, final), p, log)
  {
    var t := ApplyTranslation(e, cfg, cardId, lang, text, final);
    if t.ops == [] {
      ReceiveNothing(p, log);
    } else {
      TranslationEffect(e, cfg, cardId, lang, text, final);
      ApplyTranslationValid(e, cfg, cardId, lang, text, final);
      var view := CardOf(t.state, cardId);
      var speech := t.ops[1..];
      SilentOps(t.state, speech);
      EventsConcat(t.state, [t.ops[0]], speech);
      EventsOne(t.state, t.ops[0]);
      assert t.ops == [t.ops[0]] + speech;
      assert lang in view.tr;
      TranslationAgrees(e, t.state, view, p, |log| + 1, Restated(view));
      OneEvent(t, Restated(view), p, log);
    }
  }

  /* Every step of the relay */

  lemma SpeechFollows(e: EngineState, cfg: EngineConfig, event: SttEvent, nextId: string, p: ProjectorState,
                      log: seq<Event>)
    requires Valid(e) && nextId !in e.issued && Agrees(e, p, |log|)
    ensures Follows(Push(e, cfg, event, nextId), p, log)
  {
    match event {
      case Partial(text, atMs) => PartialFollows(e, cfg, text, atMs, nextId, p, log);
      case Committed(text, atMs) => CommittedFollows(e, cfg, text, atMs, nextId, p, log);
      case Silence(atMs) => CloseFollows(e, atMs, p, log);
    }
  }

  lemma StepKeepsValid(r: RelayState, cfg: RelayConfig, ev: RelayEvent)
    requires Enabled(r, ev) && Valid(r.engine)
    ensures Valid(Step(r, cfg, ev).engine)
  {
    match ev {
      case Speech(event, nextId) => PushValid(r.engine, cfg.engine, event, nextId);
      case Reply(slot, result) =>
        if result.Some? {
          var job := r.queue.inflight[slot];
          ApplyTranslationValid(r.engine, cfg.engine, job.cardId, job.lang, result.value, !job.speculative);
        }
      case _ =>
    }
  }

  lemma ReplyFollows(r: RelayState, cfg: RelayConfig, job: Job, text: string, p: ProjectorState)
    requires Valid(r.engine) && Agrees(r.engine, p, |r.log|)
    ensures var s := ApplyTurn(r, cfg, ReplyTurn(r, cfg, job, text));
            Agrees(s.engine, Fold(p, Visible(s.log, |r.log|, Captions)), |s.log|)
  {
    TranslationFollows(r.engine, cfg.engine, job.cardId, job.lang, text, !job.speculative, p, r.log);
  }

  lemma RenderAgrees(e: EngineState, p: ProjectorState, n: nat, render: RenderConfig)
    requires n > 0 && Agrees(e, p, n - 1)
    ensures Agrees(e, ApplyRelayMessage(p, Sequenced(n, Event.Render(render))), n)
  {
    assert forall c | c in p.cards :: CardAgrees(e, c);
  }

  /** Whatever the step, a projector in agreement that receives the new events is in agreement again. */
  lemma StepFollows(r: RelayState, cfg: RelayConfig, ev: RelayEvent, p: ProjectorState)
    requires Enabled(r, ev) && Valid(r.engine) && Agrees(r.engine, p, |r.log|)
    ensures var s := Step(r, cfg, ev);
            && r.log <= s.log
            && Agrees(s.engine, Fold(p, Visible(s.log, |r.log|, Captions)), |s.log|)
  {
    ReceiveNothing(p, r.log);
    match ev {
      case Speech(event, nextId) =>
        SpeechFollows(r.engine, cfg.engine, event, nextId, p, r.log);
      case Reply(slot, result) =>
        if result.Some? {
          ReplyFollows(r, cfg, r.queue.inflight[slot], result.value, p);
        }
      case Configure(patch) =>
        ReceiveOne(p, r.log, Event.Render(Patched(r.render, patch)));
        RenderAgrees(r.engine, p, |r.log| + 1, Patched(r.render, patch));
      case VoiceChunk(cardId, lang, chunk, final) => ReceiveOne(p, r.log, Tts(cardId, lang, chunk, final));
      case _ =>
    }
  }
}
