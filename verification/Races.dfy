/** A speculative translation that is still on its way when its sentence is committed. The projector takes it for a
    final one, and whether it lands before or after the answer for another language shows in the engine. Both happen
    with the settings the relay gives its engine. */
module Races {
  import opened Text
  import opened Wire
  import opened Stability
  import opened Translation
  import opened Engine
  import opened CaptionStore
  import opened Relay
  import opened Scheduler
  import opened Agreement
  import opened Departures
  import R = Replication
  import O = ReplyOrder
  import opened RelayReplies

  /** The engine as the relay sets it up: all defaults but the languages and the voice. */
  function RelayEngine(dstLangs: seq<string>, voiceLang: Option<string>): EngineConfig {
    EngineConfig(2, 3, 0.15, 25, 400, 2, dstLangs, voiceLang, 3)
  }

  predicate Bilingual(cfg: RelayConfig) {
    && |cfg.dstLangs| == 2 && cfg.dstLangs[0] != cfg.dstLangs[1] && LanguagesOk(cfg)
    && cfg.engine == RelayEngine(cfg.dstLangs, cfg.engine.voiceLang)
  }

  /** Long enough for a speculative translation: all words but the volatile tail make up the growth threshold. */
  predicate LongEnough(words: seq<string>) {
    AreWords(words) && |words| > 3 && StableChars(words, |words| - 3) >= 25
  }

  /* The engine */

  const CARD: string := L.DefaultId(0)

  lemma NoRewrites()
    ensures RewriteRate([false]) == 0.0 && RewriteRate([false, false]) == 0.0
  {
    assert [false][..0] == [] && [false, false][..1] == [false];
    assert Rewrites([false]) == [];
  }

  /** The card has been shown, and is as it was opened but for its text. */
  predicate OnAir(e: EngineState) {
    && IsLive(e, CARD) && e.live.value.view.tr == map[] && !e.live.value.view.trFinal && e.live.value.view.state == Live
    && e.settled == [] && e.issued == {CARD}
  }

  predicate ShownOnce(e: EngineState, words: seq<string>) {
    OnAir(e) && e.rewrites == [false] && e.live.value.history == [words]
      && e.live.value.speculation == Speculation(0, None)
  }

  lemma FirstPartial(cfg: EngineConfig, words: seq<string>)
    requires cfg == RelayEngine(cfg.targetLangs, cfg.voiceLang) && LongEnough(words)
    ensures var t := Push(INITIAL, cfg, SttEvent.Partial(Join(words), 0), CARD);
            ShownOnce(t.state, words) && forall op | op in t.ops :: !op.TranslateRequest?
  {
    TokenizeJoin(words);
    NoRewrites();
  }

  lemma AllAgree(words: seq<string>)
    requires |words| > 3
    ensures StableTokens([words, words], 2, 3) == |words| - 3
  {
    assert SliceFrom([words, words], -2) == [words, words];
    AgreedTokensIsGreatest(words, [words, words], |words|);
  }

  lemma SecondIsRemembered(words: seq<string>)
    ensures Recorded([false], REWRITE_WINDOW, words, words) == [false, false]
    ensures Remembered([words], words) == [words, words]
  {
    assert [words] + [words] == [words, words] && [false] + [false] == [false, false];
  }

  lemma SecondUpdate(e: EngineState, cfg: EngineConfig, words: seq<string>)
    requires cfg == RelayEngine(cfg.targetLangs, cfg.voiceLang) && LongEnough(words) && ShownOnce(e, words)
    ensures UpdateLive(e, cfg, e.live.value, words, 0)
            == ShowPartial(e.(rewrites := [false, false]), cfg, e.live.value.(history := [words, words]), Join(words),
                           StableChars(words, |words| - 3), 0)
  {
    NoRewrites();
    AllAgree(words);
    SecondIsRemembered(words);
  }

  lemma SecondPartial(e: EngineState, cfg: EngineConfig, words: seq<string>, nextId: string)
    requires cfg == RelayEngine(cfg.targetLangs, cfg.voiceLang) && cfg.targetLangs != [] && LongEnough(words)
    requires ShownOnce(e, words)
    ensures var t := Push(e, cfg, SttEvent.Partial(Join(words), 0), nextId);
            && OnAir(t.state) && |t.ops| == 2 && t.ops[0].CardUpdate? && t.ops[1].TranslateRequest?
            && t.ops[1].speculative && t.ops[1].cardId == CARD
  {
    TokenizeJoin(words);
    SecondUpdate(e, cfg, words);
  }

  /** The card has been committed and not translated. */
  predicate JustCommitted(e: EngineState) {
    && e.live.None? && |e.settled| == 1
    && e.settled[0].cardId == CARD && e.settled[0].tr == map[] && !e.settled[0].trFinal
    && e.issued == {CARD}
  }

  lemma TheCommit(e: EngineState, cfg: EngineConfig, sentence: string, nextId: string)
    requires OnAir(e) && Trim(sentence) != "" && cfg.targetLangs != []
    ensures var t := Push(e, cfg, Committed(sentence, 0), nextId);
            && JustCommitted(t.state)
            && |t.ops| >= 2 && t.ops[1].TranslateRequest? && !t.ops[1].speculative && t.ops[1].cardId == CARD
            && forall i | 0 <= i < |t.ops| && i != 1 :: !t.ops[i].TranslateRequest?
  {
  }

  /* The queue */

  predicate For(job: Job, lang: string, speculative: bool) {
    job.cardId == CARD && job.lang == lang && job.speculative == speculative
  }

  lemma Asks(q: Queue, op: CaptionOp, a: string, b: string)
    requires q.pending == [] && op.TranslateRequest? && op.cardId == CARD
    requires LanguageCode(a) && LanguageCode(b) && a != b
    ensures UpsertAll(q, op, [a, b]).pending == [JobFor(op, a), JobFor(op, b)]
    ensures UpsertAll(q, op, [a, b]).inflight == q.inflight
  {
    assert [a, b][..1] == [a] && [a][..0] == [];
    assert UpsertAll(q, op, [a]).pending == [JobFor(op, a)];
    if Key(CARD, a) == Key(CARD, b) {
      KeyInjective(CARD, a, CARD, b);
    }
  }

  predicate Waits(q: Queue, pending: seq<Job>, inflight: seq<Job>) {
    q.pending == pending && q.inflight == inflight
  }

  /** Two requests into an idle queue are both on their way; into a busy one they wait. */
  lemma TwoPumped(q: Queue)
    requires |q.inflight| == 2 || (q.inflight == [] && |q.pending| == 2)
    ensures if |q.inflight| == 2 then Pump(q, Running) == q else Waits(Pump(q, Running), [], q.pending)
  {
    if q.inflight == [] {
      var one := q.(pending := q.pending[1..], inflight := [q.pending[0]]);
      assert [] + [q.pending[0]] == [q.pending[0]];
      assert Pump(q, Running) == Pump(one, Running);
      var two := one.(pending := one.pending[1..], inflight := [q.pending[0], q.pending[1]]);
      assert [q.pending[0]] + [q.pending[1]] == [q.pending[0], q.pending[1]] == q.pending;
      assert Pump(one, Running) == Pump(two, Running) == two;
    }
  }

  lemma FreesSlot(q: Queue, slot: nat)
    requires |q.inflight| == 2 && slot < 2
    ensures var other := q.inflight[1 - slot];
            if q.pending == [] then Waits(Finished(q, slot, Running), [], [other])
            else Waits(Finished(q, slot, Running), q.pending[1..], [other, q.pending[0]])
  {
    var job, other := q.inflight[slot], q.inflight[1 - slot];
    var rest := q.inflight[..slot] + q.inflight[slot + 1..];
    assert rest == [other];
    if q.pending != [] {
      assert [other] + [q.pending[0]] == [other, q.pending[0]];
      var answered := if job.speculative then q.answered else q.answered + {(job.cardId, job.lang)};
      var next := q.(pending := q.pending[1..], inflight := [other, q.pending[0]], answered := answered);
      assert Pump(next, Running) == next;
    }
  }

  /* The turns of the relay */

  lemma RequestTurn(r: RelayState, cfg: RelayConfig, event: SttEvent, id: string, a: string, b: string)
    requires r.phase == Running && id !in r.engine.issued && r.queue.pending == []
             && (r.queue.inflight == [] || |r.queue.inflight| == 2)
    requires cfg.dstLangs == [a, b] && LanguageCode(a) && LanguageCode(b) && a != b
    requires var ops := Push(r.engine, cfg.engine, event, id).ops;
             && |ops| >= 2 && ops[1].TranslateRequest? && ops[1].cardId == CARD
             && forall i | 0 <= i < |ops| && i != 1 :: !ops[i].TranslateRequest?
    ensures var s, op := Step(r, cfg, Speech(event, id)), Push(r.engine, cfg.engine, event, id).ops[1];
            var jobs := [JobFor(op, a), JobFor(op, b)];
            && s.phase == Running && s.engine == Push(r.engine, cfg.engine, event, id).state
            && if r.queue.inflight == [] then Waits(s.queue, [], jobs) else Waits(s.queue, jobs, r.queue.inflight)
  {
    var ops := Push(r.engine, cfg.engine, event, id).ops;
    assert ops == [ops[0]] + [ops[1]] + ops[2..];
    ServedRequest(r.queue, [ops[0]], ops[1], ops[2..], cfg.dstLangs, Running);
    Asks(r.queue, ops[1], a, b);
    TwoPumped(UpsertAll(r.queue, ops[1], [a, b]));
  }

  const OTHER: string := L.DefaultId(1)

  lemma OtherIsNew()
    ensures OTHER != CARD
  {
    if OTHER == CARD {
      L.DefaultIdsDistinct(1, 0);
    }
  }

  function Opens(words: seq<string>): RelayEvent {
    Speech(SttEvent.Partial(Join(words), 0), CARD)
  }

  function Repeats(words: seq<string>): RelayEvent {
    Speech(SttEvent.Partial(Join(words), 0), OTHER)
  }

  function Commits(sentence: string): RelayEvent {
    Speech(Committed(sentence, 0), OTHER)
  }

  predicate Heard(r: RelayState, words: seq<string>) {
    r.phase == Running && ShownOnce(r.engine, words) && Waits(r.queue, [], [])
  }

  /** Speculative requests for both languages are on their way. */
  predicate Speculated(r: RelayState, a: string, b: string) {
    && r.phase == Running && OnAir(r.engine)
    && r.queue.pending == [] && |r.queue.inflight| == 2
    && For(r.queue.inflight[0], a, true) && For(r.queue.inflight[1], b, true)
  }

  /** The sentence has been committed before either of them was answered. */
  predicate Rushed(r: RelayState, a: string, b: string) {
    && r.phase == Running && JustCommitted(r.engine)
    && |r.queue.pending| == 2 && For(r.queue.pending[0], a, false) && For(r.queue.pending[1], b, false)
    && |r.queue.inflight| == 2 && For(r.queue.inflight[0], a, true) && For(r.queue.inflight[1], b, true)
  }

  lemma FirstTurn(cfg: RelayConfig, render: RenderConfig, words: seq<string>)
    requires Bilingual(cfg) && LongEnough(words)
    ensures Heard(Step(Start(render), cfg, Opens(words)), words)
  {
    FirstPartial(cfg.engine, words);
    NothingServed(Start(render).queue, Push(INITIAL, cfg.engine, SttEvent.Partial(Join(words), 0), CARD).ops,
                  cfg.dstLangs, Running);
  }

  lemma SecondTurn(r: RelayState, cfg: RelayConfig, words: seq<string>)
    requires Bilingual(cfg) && LongEnough(words) && Heard(r, words)
    ensures Enabled(r, Repeats(words)) && Speculated(Step(r, cfg, Repeats(words)), cfg.dstLangs[0], cfg.dstLangs[1])
  {
    OtherIsNew();
    SecondPartial(r.engine, cfg.engine, words, OTHER);
    assert cfg.dstLangs == [cfg.dstLangs[0], cfg.dstLangs[1]];
    RequestTurn(r, cfg, SttEvent.Partial(Join(words), 0), OTHER, cfg.dstLangs[0], cfg.dstLangs[1]);
  }

  lemma ThirdTurn(r: RelayState, cfg: RelayConfig, sentence: string)
    requires Bilingual(cfg) && Trim(sentence) != "" && Speculated(r, cfg.dstLangs[0], cfg.dstLangs[1])
    ensures Enabled(r, Commits(sentence)) && Rushed(Step(r, cfg, Commits(sentence)), cfg.dstLangs[0], cfg.dstLangs[1])
  {
    OtherIsNew();
    TheCommit(r.engine, cfg.engine, sentence, OTHER);
    assert cfg.dstLangs == [cfg.dstLangs[0], cfg.dstLangs[1]];
    RequestTurn(r, cfg, Committed(sentence, 0), OTHER, cfg.dstLangs[0], cfg.dstLangs[1]);
  }

  /* On screen: the two final marks part */

  /** An attached projector, all caught up, sees the race. */
  lemma RaceIsSeen(cfg: RelayConfig, render: RenderConfig, words: seq<string>, sentence: string)
    returns (run: seq<R.SystemEvent>, r: RelayState, got: seq<RelayMessage>)
    requires Bilingual(cfg) && LongEnough(words) && Trim(sentence) != ""
    ensures Reaches(R.Begin(render), cfg, run, CaughtUp(r, got)) && Rushed(r, cfg.dstLangs[0], cfg.dstLangs[1])
  {
    var start := R.Begin(render);
    run, got := Arrives(cfg, render);
    r := Start(render);
    FirstTurn(cfg, render, words);
    run, r, got := Follow(start, cfg, run, r, got, Opens(words));
    SecondTurn(r, cfg, words);
    run, r, got := Follow(start, cfg, run, r, got, Repeats(words));
    ThirdTurn(r, cfg, sentence);
    run, r, got := Follow(start, cfg, run, r, got, Commits(sentence));
  }

  lemma Follow(start: R.System, cfg: RelayConfig, run: seq<R.SystemEvent>, r: RelayState, got: seq<RelayMessage>,
               ev: RelayEvent)
    returns (longer: seq<R.SystemEvent>, s: RelayState, heard: seq<RelayMessage>)
    requires Reaches(start, cfg, run, CaughtUp(r, got)) && Enabled(r, ev) && Step(r, cfg, ev).phase == r.phase
    ensures s == Step(r, cfg, ev) && Reaches(start, cfg, longer, CaughtUp(s, heard))
  {
    s := Step(r, cfg, ev);
    heard := got + Visible(s.log, |r.log|, Captions);
    longer := Hear(start, cfg, run, r, got, ev);
  }

  lemma ShownAs(p: ProjectorState, n: nat, ev: Event)
    requires NamesCard(ev) && Bounded(p.cards)
    ensures Shows(WithCard(p, n, ev).cards, ev.cardId)
    ensures Agreement.Current(WithCard(p, n, ev).cards, ev.cardId) == Updated(Agreement.Current(p.cards, ev.cardId), ev)
  {
    var i := FindIndex(p.cards, ev.cardId);
    if i < |p.cards| {
      FindKept(p.cards, i, Updated(p.cards[i], ev), ev.cardId);
    } else {
      AppendedLast(p.cards, Updated(Blank(ev.cardId), ev));
    }
  }

  /** What the projector marks as final and the engine does not. */
  predicate MarksPart(r: RelayState, p: ProjectorState, id: string) {
    && Holds(r.engine, id) && !CardOf(r.engine, id).trFinal
    && Shows(p.cards, id) && Agreement.Current(p.cards, id).trFinal
  }

  /** A speculative translation for a card that is settled and not yet translated. */
  lemma LateTurn(e: EngineState, cfg: EngineConfig, id: string, lang: string, text: string, cards: seq<ProjectorCard>)
    requires Valid(e) && IsSettled(e, id) && Holds(e, id) && !CardOf(e, id).trFinal
    ensures var t := Engine.ApplyTranslation(e, cfg, id, lang, text, false);
            && Holds(t.state, id) && !CardOf(t.state, id).trFinal
            && EventsOf(t.state, t.ops) == [Restated(CardOf(t.state, id))]
            && Updated(Agreement.Current(cards, id), Restated(CardOf(t.state, id))).trFinal
  {
    var t := Engine.ApplyTranslation(e, cfg, id, lang, text, false);
    Turns.TranslationEffect(e, cfg, id, lang, text, false);
    FlagAgreesIff(e, cfg, id, lang, text, false, INITIAL_STATE.(cards := cards), 0);
    Turns.EventsOne(t.state, t.ops[0]);
  }

  lemma LateReply(r: RelayState, cfg: RelayConfig, slot: nat, text: string, p: ProjectorState)
    requires Valid(r.engine) && Agrees(r.engine, p, |r.log|) && r.phase == Running && slot < |r.queue.inflight|
    requires r.queue.inflight[slot].speculative && IsSettled(r.engine, r.queue.inflight[slot].cardId)
    requires !CardOf(r.engine, r.queue.inflight[slot].cardId).trFinal
    ensures var s := Step(r, cfg, Reply(slot, Some(text)));
            && s.phase == Running
            && MarksPart(s, Fold(p, Visible(s.log, |r.log|, Captions)), r.queue.inflight[slot].cardId)
  {
    var job := r.queue.inflight[slot];
    LateTurn(r.engine, cfg.engine, job.cardId, job.lang, text, p.cards);
    var ev := Restated(CardOf(ReplyTurn(r, cfg, job, text).state, job.cardId));
    ReplyLog(r, cfg, slot, text);
    NewsShown(r.log, Step(r, cfg, Reply(slot, Some(text))).log, ev, p);
    ShownAs(p, |r.log| + 1, ev);
  }

  lemma ReplyLog(r: RelayState, cfg: RelayConfig, slot: nat, text: string)
    requires r.phase == Running && slot < |r.queue.inflight|
    ensures var s, t := Step(r, cfg, Reply(slot, Some(text))), ReplyTurn(r, cfg, r.queue.inflight[slot], text);
            s.phase == Running && s.engine == t.state && s.log == r.log + EventsOf(t.state, t.ops)
  {
  }

  /** The marks do part, in a session with two languages and the relay's own settings: a speculative translation that
      lands after the commit looks final on screen, and the engine counts it as replaceable. */
  lemma FinalMarksPart(cfg: RelayConfig, render: RenderConfig, words: seq<string>, sentence: string, text: string)
    returns (run: seq<R.SystemEvent>)
    requires Bilingual(cfg) && LongEnough(words) && Trim(sentence) != ""
    ensures R.Legal(R.Begin(render), cfg, run)
    ensures var s := R.After(R.Begin(render), cfg, run);
            && 0 in s.clients && s.clients[0].open && s.clients[0].wire == [] && s.clients[0].role == Captions
            && MarksPart(s.relay, R.Store(s.clients[0].got), CARD)
  {
    var start := R.Begin(render);
    var before, r, got := RaceIsSeen(cfg, render, words, sentence);
    R.AfterOk(start, cfg, before);
    R.ReplicaAgreement(cfg, render, before, 0);
    LateReply(r, cfg, 0, text, R.Store(got));
    run := Hear(start, cfg, before, r, got, Reply(0, Some(text)));
  }

  /* In the engine: the order of replies shows */

  /** A run of the relay, what it fed its engine, and where it ended. */
  ghost predicate Story(start: RelayState, cfg: RelayConfig, turns: seq<RelayEvent>, inputs: seq<L.Input>,
                        s: RelayState) {
    LegalTurns(start, cfg, turns) && FedAll(start, cfg, turns) == inputs && AfterTurns(start, cfg, turns) == s
  }

  lemma {:induction false} StoryNext(start: RelayState, cfg: RelayConfig, turns: seq<RelayEvent>, inputs: seq<L.Input>,
                                     s: RelayState, ev: RelayEvent)
    requires Story(start, cfg, turns, inputs, s) && Enabled(s, ev)
    ensures Story(start, cfg, turns + [ev], inputs + Fed(s, ev), Step(s, cfg, ev))
    decreases turns
  {
    if turns == [] {
      assert turns + [ev] == [ev] && [ev][1..] == [];
      assert inputs + Fed(s, ev) == Fed(s, ev) == Fed(s, ev) + [];
    } else {
      var next := Step(start, cfg, turns[0]);
      assert (turns + [ev])[1..] == turns[1..] + [ev];
      StoryNext(next, cfg, turns[1..], FedAll(next, cfg, turns[1..]), s, ev);
      Regroup(Fed(start, turns[0]), FedAll(next, cfg, turns[1..]), Fed(s, ev));
    }
  }

  /** A reply, and how it leaves the queue and the engine. */
  lemma ReplyTurnIs(r: RelayState, cfg: RelayConfig, slot: nat, result: Option<string>)
    requires r.phase == Running && slot < |r.queue.inflight|
    ensures var s, job := Step(r, cfg, Reply(slot, result)), r.queue.inflight[slot];
            && s.phase == Running
            && s.engine == (if result.Some? then ReplyTurn(r, cfg, job, result.value).state else r.engine)
            && Fed(r, Reply(slot, result))
               == (if result.Some? then [L.Result(job.cardId, job.lang, result.value, !job.speculative)] else [])
    ensures |r.queue.inflight| == 2 ==>
              var s, other := Step(r, cfg, Reply(slot, result)), r.queue.inflight[1 - slot];
              if r.queue.pending == [] then Waits(s.queue, [], [other])
              else Waits(s.queue, r.queue.pending[1..], [other, r.queue.pending[0]])
  {
    ReplyKeepsSlots(r, cfg, slot, result);
    if |r.queue.inflight| == 2 {
      FreesSlot(r.queue, slot);
    }
  }

  /** The story goes on with a turn of the recogniser. */
  lemma HearsMore(start: RelayState, cfg: RelayConfig, turns: seq<RelayEvent>, inputs: seq<L.Input>, s: RelayState,
                  ev: RelayEvent)
    returns (more: seq<RelayEvent>, fed: seq<L.Input>)
    requires Story(start, cfg, turns, inputs, s) && Enabled(s, ev) && ev.Speech?
    requires forall x | x in inputs :: x.Event?
    ensures Story(start, cfg, more, fed, Step(s, cfg, ev)) && forall x | x in fed :: x.Event?
  {
    StoryNext(start, cfg, turns, inputs, s, ev);
    more, fed := turns + [ev], inputs + Fed(s, ev);
  }

  /** The recogniser's part of the race. */
  lemma RaceBegins(cfg: RelayConfig, render: RenderConfig, words: seq<string>, sentence: string)
    returns (turns: seq<RelayEvent>, inputs: seq<L.Input>, r: RelayState)
    requires Bilingual(cfg) && LongEnough(words) && Trim(sentence) != ""
    ensures Story(Start(render), cfg, turns, inputs, r) && Rushed(r, cfg.dstLangs[0], cfg.dstLangs[1])
    ensures O.Finals(inputs) == []
  {
    var start := Start(render);
    FirstTurn(cfg, render, words);
    turns, inputs := HearsMore(start, cfg, [], [], start, Opens(words));
    var one := Step(start, cfg, Opens(words));
    SecondTurn(one, cfg, words);
    turns, inputs := HearsMore(start, cfg, turns, inputs, one, Repeats(words));
    var two := Step(one, cfg, Repeats(words));
    ThirdTurn(two, cfg, sentence);
    turns, inputs := HearsMore(start, cfg, turns, inputs, two, Commits(sentence));
    r := Step(two, cfg, Commits(sentence));
    NoFinals(inputs);
  }

  lemma {:induction false} NoFinals(inputs: seq<L.Input>)
    requires forall x | x in inputs :: x.Event?
    ensures O.Finals(inputs) == []
    decreases |inputs|
  {
    if inputs != [] {
      var front, last := inputs[..|inputs| - 1], inputs[|inputs| - 1];
      assert inputs == front + [last] && last in inputs;
      NoFinals(front);
    }
  }

  function Guess(lang: string, text: string): L.Input {
    L.Result(CARD, lang, text, false)
  }

  function Answer(lang: string, text: string): L.Input {
    L.Result(CARD, lang, text, true)
  }

  /** One more turn of a story. */
  lemma Onwards(start: RelayState, cfg: RelayConfig, turns: seq<RelayEvent>, inputs: seq<L.Input>, s: RelayState,
                slot: nat, result: Option<string>)
    returns (longer: seq<RelayEvent>, more: seq<L.Input>, t: RelayState)
    requires Story(start, cfg, turns, inputs, s) && s.phase == Running && slot < |s.queue.inflight|
    ensures longer == turns + [Reply(slot, result)] && t == Step(s, cfg, Reply(slot, result))
    ensures Story(start, cfg, longer, more, t) && more == inputs + Fed(s, Reply(slot, result))
  {
    StoryNext(start, cfg, turns, inputs, s, Reply(slot, result));
    longer, more, t := turns + [Reply(slot, result)], inputs + Fed(s, Reply(slot, result)),
      Step(s, cfg, Reply(slot, result));
  }

  /** The first speculative request fails, so one committed request is on its way too. */
  predicate Half(r: RelayState, a: string, b: string) {
    && r.phase == Running && JustCommitted(r.engine) && |r.queue.pending| == 1
    && |r.queue.inflight| == 2 && For(r.queue.inflight[0], b, true) && For(r.queue.inflight[1], a, false)
  }

  lemma HalfWay(start: RelayState, cfg: RelayConfig, turns: seq<RelayEvent>, inputs: seq<L.Input>, r: RelayState)
    returns (longer: seq<RelayEvent>, s: RelayState)
    requires Bilingual(cfg) && Story(start, cfg, turns, inputs, r) && Rushed(r, cfg.dstLangs[0], cfg.dstLangs[1])
    ensures Story(start, cfg, longer, inputs, s) && Half(s, cfg.dstLangs[0], cfg.dstLangs[1])
  {
    HalfIs(r, cfg);
    ReplyTurnIs(r, cfg, 0, None);
    var more;
    longer, more, s := Onwards(start, cfg, turns, inputs, r, 0, None);
    assert inputs + [] == inputs;
  }

  lemma HalfIs(r: RelayState, cfg: RelayConfig)
    requires Bilingual(cfg) && Rushed(r, cfg.dstLangs[0], cfg.dstLangs[1])
    ensures Half(Step(r, cfg, Reply(0, None)), cfg.dstLangs[0], cfg.dstLangs[1])
  {
    ReplyTurnIs(r, cfg, 0, None);
  }

  /** A translation of the card lands. */
  lemma Lands(start: RelayState, cfg: RelayConfig, turns: seq<RelayEvent>, inputs: seq<L.Input>, r: RelayState,
              slot: nat, text: string)
    returns (longer: seq<RelayEvent>, s: RelayState)
    requires Story(start, cfg, turns, inputs, r) && r.phase == Running && slot < 2 == |r.queue.inflight|
    requires r.queue.inflight[slot].cardId == CARD
    ensures var job, other := r.queue.inflight[slot], r.queue.inflight[1 - slot];
            var result := L.Result(CARD, job.lang, text, !job.speculative);
            && Story(start, cfg, longer, inputs + [result], s) && s.phase == Running
            && s.engine == O.Reply(r.engine, cfg.engine, result)
            && s.queue.inflight == (if r.queue.pending == [] then [other] else [other, r.queue.pending[0]])
            && (|r.queue.pending| <= 1 ==> s.queue.pending == [])
  {
    ReplyTurnIs(r, cfg, slot, Some(text));
    var more;
    longer, more, s := Onwards(start, cfg, turns, inputs, r, slot, Some(text));
  }

  lemma LastFails(start: RelayState, cfg: RelayConfig, turns: seq<RelayEvent>, inputs: seq<L.Input>, r: RelayState)
    returns (longer: seq<RelayEvent>, s: RelayState)
    requires Story(start, cfg, turns, inputs, r) && r.phase == Running && |r.queue.inflight| == 1
    ensures Story(start, cfg, longer, inputs, s) && s.engine == r.engine
  {
    ReplyTurnIs(r, cfg, 0, None);
    var more;
    longer, more, s := Onwards(start, cfg, turns, inputs, r, 0, None);
    assert inputs + [] == inputs;
  }

  lemma GuessedFirst(start: RelayState, cfg: RelayConfig, turns: seq<RelayEvent>, inputs: seq<L.Input>, r: RelayState,
                     x: string, y: string)
    returns (longer: seq<RelayEvent>, s: RelayState)
    requires Bilingual(cfg) && Story(start, cfg, turns, inputs, r) && Half(r, cfg.dstLangs[0], cfg.dstLangs[1])
    ensures var guess, answer := Guess(cfg.dstLangs[1], x), Answer(cfg.dstLangs[0], y);
            && Story(start, cfg, longer, inputs + [guess] + [answer], s)
            && s.engine == O.Reply(O.Reply(r.engine, cfg.engine, guess), cfg.engine, answer)
  {
    var one, q := Lands(start, cfg, turns, inputs, r, 0, x);
    var guessed := inputs + [Guess(cfg.dstLangs[1], x)];
    var two, t := Lands(start, cfg, one, guessed, q, 0, y);
    longer, s := LastFails(start, cfg, two, guessed + [Answer(cfg.dstLangs[0], y)], t);
  }

  lemma AnsweredFirst(start: RelayState, cfg: RelayConfig, turns: seq<RelayEvent>, inputs: seq<L.Input>, r: RelayState,
                      x: string, y: string)
    returns (longer: seq<RelayEvent>, s: RelayState)
    requires Bilingual(cfg) && Story(start, cfg, turns, inputs, r) && Half(r, cfg.dstLangs[0], cfg.dstLangs[1])
    ensures var guess, answer := Guess(cfg.dstLangs[1], x), Answer(cfg.dstLangs[0], y);
            && Story(start, cfg, longer, inputs + [answer] + [guess], s)
            && s.engine == O.Reply(O.Reply(r.engine, cfg.engine, answer), cfg.engine, guess)
  {
    var one, q := Lands(start, cfg, turns, inputs, r, 1, y);
    var answered := inputs + [Answer(cfg.dstLangs[0], y)];
    var two, t := Lands(start, cfg, one, answered, q, 0, x);
    longer, s := LastFails(start, cfg, two, answered + [Guess(cfg.dstLangs[1], x)], t);
  }

  lemma HeardAlike(inputs: seq<L.Input>, guess: L.Input, answer: L.Input)
    requires guess.Result? && !guess.final && answer.Result? && answer.final
    ensures O.Speech(inputs + [guess] + [answer]) == O.Speech(inputs + [answer] + [guess])
    ensures O.Finals(inputs + [guess] + [answer]) == O.Finals(inputs + [answer] + [guess])
  {
    var a, b := inputs + [guess] + [answer], inputs + [answer] + [guess];
    assert a[..|a| - 1] == inputs + [guess] && b[..|b| - 1] == inputs + [answer];
    assert (inputs + [guess])[..|inputs|] == inputs && (inputs + [answer])[..|inputs|] == inputs;
  }

  /** Two sessions hear the same speech and get the same committed answer, and end with different cards: the committed
      request for the other language failed, and its speculative translation landed before that answer or after it. So
      the sessions of `SessionsAgree` must have every speculative translation answered for good. */
  lemma OrderCanMatter(cfg: RelayConfig, render: RenderConfig, words: seq<string>, sentence: string, x: string,
                       y: string)
    returns (turns: seq<RelayEvent>, others: seq<RelayEvent>)
    requires Bilingual(cfg) && LongEnough(words) && Trim(sentence) != ""
    ensures LegalTurns(Start(render), cfg, turns) && LegalTurns(Start(render), cfg, others)
    ensures var a, b := FedAll(Start(render), cfg, turns), FedAll(Start(render), cfg, others);
            O.Speech(a) == O.Speech(b) && O.Finals(a) == O.Finals(b)
    ensures AfterTurns(Start(render), cfg, turns).engine != AfterTurns(Start(render), cfg, others).engine
  {
    var start := Start(render);
    var begins, inputs, r := RaceBegins(cfg, render, words, sentence);
    var half, h := HalfWay(start, cfg, begins, inputs, r);
    var s, t;
    turns, s := GuessedFirst(start, cfg, half, inputs, h, x, y);
    others, t := AnsweredFirst(start, cfg, half, inputs, h, x, y);
    HeardAlike(inputs, Guess(cfg.dstLangs[1], x), Answer(cfg.dstLangs[0], y));
    O.SpeculationTradesIff(h.engine, cfg.engine, Guess(cfg.dstLangs[1], x), Answer(cfg.dstLangs[0], y));
  }
}
