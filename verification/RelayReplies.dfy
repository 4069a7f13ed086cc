/** The order and timing of translation replies do not matter to a session of the relay: its engine has run on what it
    was fed, and what holds of engines and replies holds of it. */
module RelayReplies {
  import opened Text
  import opened Engine
  import opened Relay
  import opened Scheduler
  import L = Lifecycle
  import R = ReplyOrder

  /** What a turn of the relay gives to the engine. */
  function Fed(r: RelayState, ev: RelayEvent): seq<L.Input>
    requires Enabled(r, ev)
  {
    if r.phase == Closed then []
    else
      match ev
      case Speech(event, nextId) => [L.Event(event, nextId)]
      case Reply(slot, result) =>
        var job := r.queue.inflight[slot];
        if result.Some? then [L.Result(job.cardId, job.lang, result.value, !job.speculative)] else []
      case _ => []
  }

  function FedAll(r: RelayState, cfg: RelayConfig, turns: seq<RelayEvent>): seq<L.Input>
    requires LegalTurns(r, cfg, turns)
    decreases turns
  {
    if turns == [] then [] else Fed(r, turns[0]) + FedAll(Step(r, cfg, turns[0]), cfg, turns[1..])
  }

  /* Jobs name cards that were opened */

  predicate Named(q: Queue, ids: set<string>) {
    forall job | job in q.pending + q.inflight :: job.cardId in ids
  }

  lemma {:induction false} PumpNames(q: Queue, ids: set<string>, phase: Phase)
    requires Named(q, ids)
    ensures Named(Pump(q, phase), ids)
    decreases |q.pending|
  {
    if |q.inflight| < MAX_INFLIGHT && q.pending != [] && phase != Closed {
      PumpNames(q.(pending := q.pending[1..], inflight := q.inflight + [q.pending[0]]), ids, phase);
    }
  }

  lemma {:induction false} UpsertNames(q: Queue, ids: set<string>, op: CaptionOp, langs: seq<string>)
    requires Named(q, ids) && op.TranslateRequest? && op.cardId in ids
    ensures Named(UpsertAll(q, op, langs), ids)
    decreases |langs|
  {
    if langs != [] {
      UpsertNames(q, ids, op, langs[..|langs| - 1]);
    }
  }

  lemma {:induction false} ServedNames(q: Queue, ids: set<string>, ops: seq<CaptionOp>, langs: seq<string>,
                                       phase: Phase)
    requires Named(q, ids) && forall op | op in ops && op.TranslateRequest? :: op.cardId in ids
    ensures Named(ServedAll(q, ops, langs, phase), ids)
    decreases |ops|
  {
    if ops != [] {
      var before, op := ServedAll(q, ops[..|ops| - 1], langs, phase), ops[|ops| - 1];
      ServedNames(q, ids, ops[..|ops| - 1], langs, phase);
      if op.TranslateRequest? {
        UpsertNames(before, ids, op, langs);
        PumpNames(UpsertAll(before, op, langs), ids, phase);
      }
    }
  }

  lemma CommitRequests(e: EngineState, cfg: EngineConfig, card: LiveCard, clean: string, atMs: int)
    requires card.view.cardId in e.issued
    ensures var t := CommitCard(e, cfg, card, clean, atMs);
            t.state.issued == e.issued && forall op | op in t.ops && op.TranslateRequest? :: op.cardId in e.issued
  {
  }

  lemma UpdateRequests(e: EngineState, cfg: EngineConfig, card: LiveCard, tokens: seq<string>, atMs: int)
    requires card.view.cardId in e.issued
    ensures var t := UpdateLive(e, cfg, card, tokens, atMs);
            t.state.issued == e.issued && forall op | op in t.ops && op.TranslateRequest? :: op.cardId in e.issued
  {
  }

  lemma RequestsAreOpened(e: EngineState, cfg: EngineConfig, event: SttEvent, nextId: string)
    requires Valid(e)
    ensures var t := Push(e, cfg, event, nextId);
            e.issued <= t.state.issued && forall op | op in t.ops && op.TranslateRequest? :: op.cardId in t.state.issued
  {
    var base := e.(issued := e.issued + {nextId});
    match event {
      case Partial(text, atMs) =>
        if e.live.Some? {
          UpdateRequests(e, cfg, e.live.value, Tokenize(text), atMs);
        } else {
          UpdateRequests(base, cfg, NewCard(nextId, atMs), Tokenize(text), atMs);
        }
      case Committed(text, atMs) =>
        if e.live.Some? {
          CommitRequests(e, cfg, e.live.value, Trim(text), atMs);
        } else {
          CommitRequests(base, cfg, NewCard(nextId, atMs), Trim(text), atMs);
        }
      case Silence(_) =>
    }
  }

  lemma FinishNames(q: Queue, ids: set<string>, slot: nat, phase: Phase)
    requires Named(q, ids) && slot < |q.inflight|
    ensures Named(Finished(q, slot, phase), ids)
  {
    var job := q.inflight[slot];
    PumpNames(q.(inflight := q.inflight[..slot] + q.inflight[slot + 1..],
                 answered := if job.speculative then q.answered else q.answered + {(job.cardId, job.lang)}),
              ids, phase);
  }

  lemma StepNames(r: RelayState, cfg: RelayConfig, ev: RelayEvent)
    requires Enabled(r, ev) && RelayOk(r) && Named(r.queue, r.engine.issued)
    ensures Named(Step(r, cfg, ev).queue, Step(r, cfg, ev).engine.issued)
  {
    match ev {
      case Speech(event, nextId) =>
        var t := Push(r.engine, cfg.engine, event, nextId);
        RequestsAreOpened(r.engine, cfg.engine, event, nextId);
        ServedNames(r.queue, t.state.issued, t.ops, cfg.dstLangs, r.phase);
      case Reply(slot, result) =>
        FinishNames(r.queue, r.engine.issued, slot, r.phase);
        if result.Some? {
          var job := r.queue.inflight[slot];
          ReplyKeepsSlots(r, cfg, slot, result);
          TranslationFrame(r.engine, cfg.engine, job.cardId, job.lang, result.value, !job.speculative);
        }
      case _ =>
    }
  }

  /* The engine of a relay has run on what it was fed */

  predicate FinalsAnswered(answered: set<(string, string)>, inputs: seq<L.Input>) {
    R.DistinctReplies(R.Finals(inputs)) && forall x | x in R.Finals(inputs) :: R.KeyOf(x) in answered
  }

  ghost predicate HasHeard(r: RelayState, cfg: RelayConfig, inputs: seq<L.Input>) {
    && RelayOk(r) && Named(r.queue, r.engine.issued)
    && L.FreshIds(cfg.engine, inputs) && R.NamesOpened(cfg.engine, inputs)
    && L.Run(cfg.engine, inputs).state == r.engine
    && FinalsAnswered(r.queue.answered, inputs)
  }

  /** A reply answers a committed request no reply has answered before. */
  lemma AnsweredOnce(r: RelayState, slot: nat)
    requires RelayOk(r) && slot < |r.queue.inflight| && !r.queue.inflight[slot].speculative
    ensures var job := r.queue.inflight[slot]; (job.cardId, job.lang) !in r.queue.answered
  {
    var job := r.queue.inflight[slot];
    assert Places(r.queue, (job.cardId, job.lang)) == One((job.cardId, job.lang) in r.queue.asked);
    CountPositive(r.queue.inflight, slot, (job.cardId, job.lang));
  }

  lemma AnsweredGrows(r: RelayState, cfg: RelayConfig, ev: RelayEvent)
    requires Enabled(r, ev)
    ensures Step(r, cfg, ev).queue.answered
         == r.queue.answered + if ev.Reply? && !r.queue.inflight[ev.slot].speculative
                               then {(r.queue.inflight[ev.slot].cardId, r.queue.inflight[ev.slot].lang)} else {}
  {
    match ev {
      case Speech(event, nextId) =>
        ServedKeepsAnswered(r.queue, Push(r.engine, cfg.engine, event, nextId).ops, cfg.dstLangs, r.phase);
      case Reply(slot, result) =>
        var job := r.queue.inflight[slot];
        ReplyKeepsSlots(r, cfg, slot, result);
        PumpKeepsAnswered(r.queue.(inflight := r.queue.inflight[..slot] + r.queue.inflight[slot + 1..],
                                   answered := if job.speculative then r.queue.answered
                                               else r.queue.answered + {(job.cardId, job.lang)}), r.phase);
      case _ =>
    }
  }

  lemma FedOne(r: RelayState, cfg: RelayConfig, ev: RelayEvent, inputs: seq<L.Input>)
    requires Enabled(r, ev) && HasHeard(r, cfg, inputs) && |Fed(r, ev)| == 1
    ensures var x := Fed(r, ev)[0];
            && L.FreshIds(cfg.engine, inputs + [x]) && R.NamesOpened(cfg.engine, inputs + [x])
            && L.Run(cfg.engine, inputs + [x]).state == L.React(r.engine, cfg.engine, x).state
                 == Step(r, cfg, ev).engine
  {
    var x := Fed(r, ev)[0];
    assert (inputs + [x])[..|inputs|] == inputs;
  }

  lemma FinalsGrow(answered: set<(string, string)>, more: set<(string, string)>, inputs: seq<L.Input>, x: L.Input)
    requires FinalsAnswered(answered, inputs) && answered <= more
    requires x.Result? && x.final ==> R.KeyOf(x) in more - answered
    ensures FinalsAnswered(more, inputs + [x])
  {
    assert (inputs + [x])[..|inputs|] == inputs;
    if !(x.Result? && x.final) {
      assert R.Finals(inputs + [x]) == R.Finals(inputs);
    }
  }

  lemma FinalsNext(r: RelayState, cfg: RelayConfig, ev: RelayEvent, inputs: seq<L.Input>)
    requires Enabled(r, ev) && RelayOk(r) && FinalsAnswered(r.queue.answered, inputs) && |Fed(r, ev)| == 1
    ensures FinalsAnswered(Step(r, cfg, ev).queue.answered, inputs + Fed(r, ev))
  {
    var x := Fed(r, ev)[0];
    AnsweredGrows(r, cfg, ev);
    assert Fed(r, ev) == [x];
    if x.Result? && x.final {
      AnsweredOnce(r, ev.slot);
    }
    FinalsGrow(r.queue.answered, Step(r, cfg, ev).queue.answered, inputs, x);
  }

  lemma StepHears(r: RelayState, cfg: RelayConfig, ev: RelayEvent, inputs: seq<L.Input>)
    requires Enabled(r, ev) && LanguagesOk(cfg) && HasHeard(r, cfg, inputs)
    ensures HasHeard(Step(r, cfg, ev), cfg, inputs + Fed(r, ev))
  {
    StepKeepsQueue(r, cfg, ev);
    StepNames(r, cfg, ev);
    if Fed(r, ev) == [] {
      AnsweredGrows(r, cfg, ev);
      assert inputs + [] == inputs;
    } else {
      assert Fed(r, ev) == [Fed(r, ev)[0]];
      FedOne(r, cfg, ev, inputs);
      FinalsNext(r, cfg, ev, inputs);
    }
  }

  lemma Regroup(a: seq<L.Input>, b: seq<L.Input>, c: seq<L.Input>)
    ensures a + b + c == a + (b + c)
  {
  }

  lemma {:induction false} RunHears(r: RelayState, cfg: RelayConfig, turns: seq<RelayEvent>, inputs: seq<L.Input>)
    requires LegalTurns(r, cfg, turns) && LanguagesOk(cfg) && HasHeard(r, cfg, inputs)
    ensures HasHeard(AfterTurns(r, cfg, turns), cfg, inputs + FedAll(r, cfg, turns))
    decreases turns
  {
    if turns == [] {
      assert inputs + [] == inputs;
    } else {
      var next, fed := Step(r, cfg, turns[0]), Fed(r, turns[0]);
      StepHears(r, cfg, turns[0], inputs);
      RunHears(next, cfg, turns[1..], inputs + fed);
      Regroup(inputs, fed, FedAll(next, cfg, turns[1..]));
    }
  }

  lemma SessionHears(cfg: RelayConfig, render: Wire.RenderConfig, turns: seq<RelayEvent>)
    requires LanguagesOk(cfg) && LegalTurns(Start(render), cfg, turns)
    ensures HasHeard(AfterTurns(Start(render), cfg, turns), cfg, FedAll(Start(render), cfg, turns))
  {
    StartOk(render);
    RunHears(Start(render), cfg, turns, []);
    assert [] + FedAll(Start(render), cfg, turns) == FedAll(Start(render), cfg, turns);
  }

  /** Two sessions that hear the same speech and whose committed requests get the same answers hold the same cards with
      the same translations, however the replies were ordered, delayed and interleaved with speech, whatever
      speculative replies landed in between, and whatever the queue did with the rest. */
  lemma SessionsAgree(cfg: RelayConfig, render: Wire.RenderConfig, turns: seq<RelayEvent>, others: seq<RelayEvent>)
    requires LanguagesOk(cfg) && LegalTurns(Start(render), cfg, turns) && LegalTurns(Start(render), cfg, others)
    requires var a, b := FedAll(Start(render), cfg, turns), FedAll(Start(render), cfg, others);
             && R.Speech(a) == R.Speech(b) && multiset(R.Finals(a)) == multiset(R.Finals(b))
             && R.AllAnswered(cfg.engine, a) && R.AllAnswered(cfg.engine, b)
    ensures AfterTurns(Start(render), cfg, turns).engine == AfterTurns(Start(render), cfg, others).engine
  {
    SessionHears(cfg, render, turns);
    SessionHears(cfg, render, others);
    R.ReplyOrderIsIrrelevant(cfg.engine, FedAll(Start(render), cfg, turns), FedAll(Start(render), cfg, others));
  }
}
