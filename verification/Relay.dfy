/** The session actor on values: the stamped log, the translate queue, and one transition per turn of the event loop. */
module Relay {
  import opened Text
  import opened Wire
  import opened Engine

  datatype RelayConfig = RelayConfig(sessionId: string, watermark: bool, engine: EngineConfig, dstLangs: seq<string>)

  datatype Phase = Running | Draining | Closed

  /* The events of a turn */

  function TrOf(view: CardView): Option<map<string, string>> {
    if view.tr == map[] then None else Some(view.tr)
  }

  function ToCaptionCard(view: CardView): CaptionCard {
    CaptionCard(view.cardId, view.text, view.stable, TrOf(view), view.trFinal, view.state, Max(0, view.atMs))
  }

  function ToCaptionCards(views: seq<CardView>): (r: seq<CaptionCard>)
    ensures |r| == |views|
    ensures forall i | 0 <= i < |views| :: r[i] == ToCaptionCard(views[i])
  {
    seq(|views|, i requires 0 <= i < |views| => ToCaptionCard(views[i]))
  }

  /** The message that carries a translation: the card as it stands, as a partial or as a retraction. */
  function Restated(view: CardView): Event {
    if view.state == Live then Event.Partial(view.cardId, view.text, view.stable, TrOf(view))
    else Retract(view.cardId, view.text, TrOf(view))
  }

  /** The event an operation puts on the wire, given the engine after the turn. */
  function EventOf(e: EngineState, op: CaptionOp): seq<Event> {
    match op
    case CardUpdate(id, text, stable) => [Event.Partial(id, text, stable, None)]
    case CardCommit(id, text) => [Commit(id, text, None)]
    case CardRetract(id, text) => [Retract(id, text, None)]
    case CardTranslate(id, _, _, _) => if Holds(e, id) then [Restated(CardOf(e, id))] else []
    case CardClose(id, _) => [CardEnd(id)]
    case _ => []
  }

  function EventsOf(e: EngineState, ops: seq<CaptionOp>): seq<Event> {
    if ops == [] then [] else EventsOf(e, ops[..|ops| - 1]) + EventOf(e, ops[|ops| - 1])
  }

  /* The translate queue */

  datatype Job = Job(cardId: string, lang: string, text: string, context: seq<string>, speculative: bool)

  /** `asked`, `answered` and `discarded` record, per card and language, the committed requests made, the replies that
      landed, and the requests thrown away when the session began to close. */
  datatype Queue = Queue(
    pending: seq<Job>, inflight: seq<Job>,
    asked: set<(string, string)>, answered: set<(string, string)>, discarded: set<(string, string)>)

  const MAX_INFLIGHT: nat := 2

  function Key(cardId: string, lang: string): string {
    cardId + "|" + lang
  }

  function Position(pending: seq<Job>, key: string): (i: nat)
    ensures i <= |pending|
    ensures i < |pending| ==> Key(pending[i].cardId, pending[i].lang) == key
    ensures forall j | 0 <= j < i :: Key(pending[j].cardId, pending[j].lang) != key
  {
    if pending == [] || Key(pending[0].cardId, pending[0].lang) == key then 0 else 1 + Position(pending[1..], key)
  }

  /** A job takes the place of a queued one with its key, unless that one is committed and the job a guess; other jobs
      go last. */
  function Upsert(pending: seq<Job>, job: Job): seq<Job> {
    var i := Position(pending, Key(job.cardId, job.lang));
    if i == |pending| then pending + [job]
    else if !pending[i].speculative && job.speculative then pending
    else pending[i := job]
  }

  function JobFor(op: CaptionOp, lang: string): Job
    requires op.TranslateRequest?
  {
    Job(op.cardId, lang, op.text, op.context, op.speculative)
  }

  function UpsertAll(q: Queue, op: CaptionOp, langs: seq<string>): Queue
    requires op.TranslateRequest?
  {
    if langs == [] then q
    else
      var before := UpsertAll(q, op, langs[..|langs| - 1]);
      var lang := langs[|langs| - 1];
      before.(pending := Upsert(before.pending, JobFor(op, lang)),
              asked := if op.speculative then before.asked else before.asked + {(op.cardId, lang)})
  }

  function Pump(q: Queue, phase: Phase): Queue
    decreases |q.pending|
  {
    if |q.inflight| < MAX_INFLIGHT && q.pending != [] && phase != Closed then
      Pump(q.(pending := q.pending[1..], inflight := q.inflight + [q.pending[0]]), phase)
    else q
  }

  function Served(q: Queue, op: CaptionOp, langs: seq<string>, phase: Phase): Queue {
    if op.TranslateRequest? then Pump(UpsertAll(q, op, langs), phase) else q
  }

  function ServedAll(q: Queue, ops: seq<CaptionOp>, langs: seq<string>, phase: Phase): Queue {
    if ops == [] then q else Served(ServedAll(q, ops[..|ops| - 1], langs, phase), ops[|ops| - 1], langs, phase)
  }

  /** A reply or a failure frees the slot and lets the queue advance. */
  function Finished(q: Queue, slot: nat, phase: Phase): Queue
    requires slot < |q.inflight|
  {
    var job := q.inflight[slot];
    Pump(q.(inflight := q.inflight[..slot] + q.inflight[slot + 1..],
            answered := if job.speculative then q.answered else q.answered + {(job.cardId, job.lang)}), phase)
  }

  function CommittedKeys(jobs: seq<Job>): set<(string, string)> {
    set job | job in jobs && !job.speculative :: (job.cardId, job.lang)
  }

  function Cleared(q: Queue): Queue {
    q.(pending := [], discarded := q.discarded + CommittedKeys(q.pending))
  }

  /* The relay */

  /** `log` holds the content of every message stamped so far, entry `i` under sequence number `i + 1`. */
  datatype RelayState = RelayState(
    engine: EngineState, log: seq<Event>, render: RenderConfig, queue: Queue, phase: Phase)

  datatype RelayEvent =
    | Speech(event: SttEvent, nextId: string)
    | Reply(slot: nat, result: Option<string>)
    | Configure(patch: map<string, string>)
    | VoiceChunk(cardId: string, lang: string, chunk: string, final: bool)
    | BeginClose
    | FinishClose

  function Start(render: RenderConfig): RelayState {
    RelayState(Engine.INITIAL, [], render, Queue([], [], {}, {}, {}), Running)
  }

  function ApplyTurn(r: RelayState, cfg: RelayConfig, turn: Turn): RelayState {
    r.(engine := turn.state,
       log := r.log + EventsOf(turn.state, turn.ops),
       queue := ServedAll(r.queue, turn.ops, cfg.dstLangs, r.phase))
  }

  function ReplyTurn(r: RelayState, cfg: RelayConfig, job: Job, text: string): Turn {
    ApplyTranslation(r.engine, cfg.engine, job.cardId, job.lang, text, !job.speculative)
  }

  function Patched(render: RenderConfig, patch: map<string, string>): RenderConfig {
    RenderConfig(render.settings + patch)
  }

  predicate Enabled(r: RelayState, ev: RelayEvent) {
    match ev
    case Speech(_, nextId) => nextId !in r.engine.issued
    case Reply(slot, _) => slot < |r.queue.inflight|
    case _ => true
  }

  function Step(r: RelayState, cfg: RelayConfig, ev: RelayEvent): RelayState
    requires Enabled(r, ev)
  {
    match ev
    case Speech(event, nextId) =>
      if r.phase == Closed then r else ApplyTurn(r, cfg, Push(r.engine, cfg.engine, event, nextId))
    case Reply(slot, result) =>
      var job := r.queue.inflight[slot];
      var after :=
        if result.Some? && r.phase != Closed then ApplyTurn(r, cfg, ReplyTurn(r, cfg, job, result.value)) else r;
      ReplyKeepsSlots(r, cfg, slot, result);
      after.(queue := Finished(after.queue, slot, r.phase))
    case Configure(patch) =>
      r.(render := Patched(r.render, patch), log := r.log + [Event.Render(Patched(r.render, patch))])
    case VoiceChunk(cardId, lang, chunk, final) =>
      if r.phase == Closed then r else r.(log := r.log + [Tts(cardId, lang, chunk, final)])
    case BeginClose =>
      if r.phase != Running then r else r.(phase := Draining, queue := Cleared(r.queue))
    case FinishClose =>
      if r.phase != Draining then r else r.(phase := Closed)
  }

  /** A translation result never asks for another translation, so it leaves the queue alone. */
  lemma ReplyKeepsSlots(r: RelayState, cfg: RelayConfig, slot: nat, result: Option<string>)
    requires slot < |r.queue.inflight|
    ensures result.Some? ==>
      ApplyTurn(r, cfg, ReplyTurn(r, cfg, r.queue.inflight[slot], result.value)).queue == r.queue
  {
    if result.Some? {
      var ops := ReplyTurn(r, cfg, r.queue.inflight[slot], result.value).ops;
      NothingServed(r.queue, ops, cfg.dstLangs, r.phase);
    }
  }

  lemma {:induction false} NothingServed(q: Queue, ops: seq<CaptionOp>, langs: seq<string>, phase: Phase)
    requires forall op | op in ops :: !op.TranslateRequest?
    ensures ServedAll(q, ops, langs, phase) == q
    decreases |ops|
  {
    if ops != [] {
      NothingServed(q, ops[..|ops| - 1], langs, phase);
    }
  }

  /** The log only grows. */
  lemma LogGrows(r: RelayState, cfg: RelayConfig, ev: RelayEvent)
    requires Enabled(r, ev)
    ensures r.log <= Step(r, cfg, ev).log
  {
  }
}
