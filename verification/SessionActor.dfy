/** The session actor as an object: sequence counter, bounded history, attached projectors and translate queue. */
module ActorObject {
  import opened Text
  import opened Wire
  import opened Engine
  import opened EngineObject
  import opened Relay
  import Limits
  import opened Replication

  /** A projector socket: its role and everything sent on it. */
  datatype Attached = Attached(role: Role, sent: seq<RelayMessage>)

  function SentTo(projectors: map<nat, Attached>, m: RelayMessage): map<nat, Attached> {
    map id | id in projectors :: SentOne(projectors[id], m)
  }

  function SentOne(p: Attached, m: RelayMessage): Attached {
    if Deliverable(m, p.role) then p.(sent := p.sent + [m]) else p
  }

  /** Every attached projector gets the part of the log from `from` on that its role may see. */
  function SentNews(projectors: map<nat, Attached>, log: seq<Event>, from: nat): map<nat, Attached> {
    map id | id in projectors :: projectors[id].(sent := projectors[id].sent + Visible(log, from, projectors[id].role))
  }

  lemma SentUnsafe(projectors: map<nat, Attached>, m: RelayMessage)
    requires !ProjectorSafe(m)
    ensures SentTo(projectors, m) == projectors
  {
  }

  lemma SentNothing(projectors: map<nat, Attached>, log: seq<Event>)
    ensures SentNews(projectors, log, |log|) == projectors
  {
    assert forall id | id in projectors :: projectors[id].sent + [] == projectors[id].sent;
  }

  lemma SentMore(projectors: map<nat, Attached>, log: seq<Event>, ev: Event, from: nat)
    requires from <= |log|
    ensures SentTo(SentNews(projectors, log, from), Sequenced(|log| + 1, ev)) == SentNews(projectors, log + [ev], from)
  {
    var m := Sequenced(|log| + 1, ev);
    assert (log + [ev])[..|log|] == log;
    forall id | id in projectors
      ensures SentTo(SentNews(projectors, log, from), m)[id] == SentNews(projectors, log + [ev], from)[id]
    {
      var p := projectors[id];
      var next := if Deliverable(m, p.role) then [m] else [];
      assert p.sent + (Visible(log, from, p.role) + next) == p.sent + Visible(log, from, p.role) + next;
    }
  }

  lemma SentParts(p: Attached, log: seq<Event>, longer: seq<Event>, from: nat)
    requires from <= |log| && log <= longer
    ensures p.sent + Visible(log, from, p.role) + Visible(longer, |log|, p.role)
            == p.sent + Visible(longer, from, p.role)
  {
    VisibleExtends(log, longer, from, p.role);
  }

  lemma SentInTwoParts(projectors: map<nat, Attached>, log: seq<Event>, longer: seq<Event>, from: nat)
    requires from <= |log| && log <= longer
    ensures SentNews(SentNews(projectors, log, from), longer, |log|) == SentNews(projectors, longer, from)
  {
    forall id | id in projectors
      ensures SentNews(SentNews(projectors, log, from), longer, |log|)[id] == SentNews(projectors, longer, from)[id]
    {
      SentParts(projectors[id], log, longer, from);
    }
  }

  /** The bounded history: the last entries of the log with their sequence numbers. */
  function History(log: seq<Event>): (h: seq<RelayMessage>)
    ensures |h| == Min(|log|, HISTORY_LIMIT)
    ensures forall i | 0 <= i < |h| :: h[i] == Sequenced(|log| - |h| + i + 1, log[|log| - |h| + i])
  {
    var n := Min(|log|, HISTORY_LIMIT);
    seq(n, i requires 0 <= i < n => Sequenced(|log| - n + i + 1, log[|log| - n + i]))
  }

  const NOTICE_COOLDOWN_MS: int := 15_000

  /** A code is told again only after a while. */
  predicate Due(noticedAt: map<string, int>, code: string, now: int) {
    code in noticedAt ==> now - noticedAt[code] >= NOTICE_COOLDOWN_MS
  }

  function Told(noticedAt: map<string, int>, level: string, code: string, now: int): seq<RelayMessage> {
    if Due(noticedAt, code, now) then [RelayMessage.Notice(level, code)] else []
  }

  /** What the voice is asked to say. */
  function Spoken(ops: seq<CaptionOp>): seq<(string, string)> {
    if ops == [] then []
    else
      var last := ops[|ops| - 1];
      Spoken(ops[..|ops| - 1]) + if last.Speak? then [(last.cardId, last.text)] else []
  }

  /** A change asked for while running. Languages and voice set the price, so they cannot change. */
  datatype ConfigPatch = ConfigPatch(repricing: bool, render: Option<map<string, string>>)

  class SessionActor {
    const cfg: RelayConfig
    const engine: CaptionEngine
    const hasVoice: bool

    var phase: Phase
    var seqNo: nat
    var history: seq<RelayMessage>
    var projectors: map<nat, Attached>
    var studio: seq<RelayMessage>
    var render: RenderConfig

    var pendingTranslations: seq<Job>
    var inflightTranslations: nat

    var frameWindowStart: int
    var framesInWindow: nat
    var noticedAt: map<string, int>
    /** Everything the voice was asked to say. */
    var spoken: seq<(string, string)>

    /** The clock, the recogniser and the voice are running. */
    var ticking: bool
    var upstreamOpen: bool
    var registered: bool
    /** What the sockets that were closed at the end were told. */
    var studioClosedWith: Option<string>
    var projectorsClosedWith: map<nat, string>

    ghost var log: seq<Event>
    ghost var inflight: seq<Job>
    ghost var asked: set<(string, string)>
    ghost var answered: set<(string, string)>
    ghost var discarded: set<(string, string)>

    ghost predicate Consistent()
      reads this, engine, engine.rewrites, engine.context
    {
      && engine.Consistent() && engine.cfg == cfg.engine
      && seqNo == |log| && history == History(log)
      && inflightTranslations == |inflight|
    }

    ghost function TranslateQueue(): Queue
      reads this
    {
      Queue(pendingTranslations, inflight, asked, answered, discarded)
    }

    ghost function State(): RelayState
      reads this, engine, engine.rewrites, engine.context
    {
      RelayState(engine.State(), log, render, TranslateQueue(), phase)
    }

    constructor (cfg: RelayConfig, engine: CaptionEngine, render: RenderConfig, hasVoice: bool, now: int)
      requires engine.Consistent() && engine.cfg == cfg.engine && engine.State() == Engine.INITIAL
      ensures Consistent() && State() == Start(render) && projectors == map[] && studio == []
      ensures this.engine == engine && this.cfg == cfg
    {
      this.cfg, this.engine, this.render, this.hasVoice := cfg, engine, render, hasVoice;
      phase, seqNo, history, projectors, studio := Running, 0, [], map[], [];
      pendingTranslations, inflightTranslations := [], 0;
      frameWindowStart, framesInWindow, noticedAt, spoken := now, 0, map[], [];
      ticking, upstreamOpen, registered, studioClosedWith, projectorsClosedWith := true, true, true, None, map[];
      log, inflight, asked, answered, discarded := [], [], {}, {}, {};
    }

    /* The wire */

    /** A message with a sequence number is stamped and remembered; every message reaches the studio; a projector only
        gets what the allowlist and its role permit. */
    method Emit(message: RelayMessage)
      requires Consistent() && (message.Sequenced? ==> message.seqNo == 0)
      modifies this`seqNo, this`history, this`projectors, this`studio, this`log
      ensures Consistent()
      ensures log == old(log) + if message.Sequenced? then [message.event] else []
      ensures var out := if message.Sequenced? then Sequenced(|log|, message.event) else message;
              studio == old(studio) + [out] && projectors == SentTo(old(projectors), out)
    {
      var outgoing := message;
      if message.Sequenced? {
        seqNo := seqNo + 1;
        outgoing := Sequenced(seqNo, message.event);
      }
      studio := studio + [outgoing];
      if outgoing.Sequenced? {
        Remember(outgoing);
      }
      if !ProjectorSafe(outgoing) {
        SentUnsafe(projectors, outgoing);
        return;
      }
      SendToProjectors(outgoing);
    }

    /** Notices go to the studio alone. */
    method Notice(level: string, code: string, now: int)
      requires Consistent()
      modifies this`seqNo, this`history, this`projectors, this`studio, this`log, this`noticedAt
      ensures Consistent() && State() == old(State()) && projectors == old(projectors)
      ensures studio == old(studio) + Told(old(noticedAt), level, code, now)
      ensures noticedAt == if Due(old(noticedAt), code, now) then old(noticedAt)[code := now] else old(noticedAt)
    {
      if code in noticedAt && now - noticedAt[code] < NOTICE_COOLDOWN_MS {
        return;
      }
      noticedAt := noticedAt[code := now];
      SentUnsafe(projectors, RelayMessage.Notice(level, code));
      Emit(RelayMessage.Notice(level, code));
    }

    method Remember(entry: RelayMessage)
      requires entry.Sequenced? && history == History(log) && entry.seqNo == |log| + 1
      modifies this`history, this`log
      ensures log == old(log) + [entry.event] && history == History(log)
    {
      history := history + [entry];
      log := log + [entry.event];
      ghost var longer := history;
      ghost var dropped := 0;
      while |history| > HISTORY_LIMIT
        invariant dropped <= |longer| && history == longer[dropped..]
        invariant |history| >= Min(|log|, HISTORY_LIMIT)
        decreases |history|
        modifies this`history
      {
        history := history[1..];
        dropped := dropped + 1;
      }
    }

    method SendToProjectors(m: RelayMessage)
      requires ProjectorSafe(m)
      modifies this`projectors
      ensures projectors == SentTo(old(projectors), m)
    {
      var ids := projectors.Keys;
      while ids != {}
        invariant ids <= projectors.Keys == old(projectors).Keys
        invariant forall id | id in projectors ::
          projectors[id] == if id in ids then old(projectors)[id] else SentOne(old(projectors)[id], m)
        decreases |ids|
      {
        var id :| id in ids;
        var projector := projectors[id];
        if AllowedForRole(m, projector.role) {
          projectors := projectors[id := projector.(sent := projector.sent + [m])];
        }
        ids := ids - {id};
      }
    }

    /* Projectors */

    /** Sends the missing part of the log when the history still has it, and a snapshot when not. */
    method AttachProjector(id: nat, role: Role, lastSeq: Option<nat>)
      requires Consistent() && id !in projectors
      modifies this`projectors
      ensures Consistent()
      ensures projectors == old(projectors)[id := Attached(role, AttachReply(State(), cfg, role, lastSeq))]
    {
      var backfill := None;
      if lastSeq.Some? {
        backfill := BackfillFrom(lastSeq.value, role);
      }
      if backfill.Some? {
        projectors := projectors[id := Attached(role, backfill.value)];
      } else {
        var snapshot := BuildSnapshot();
        projectors := projectors[id := Attached(role, [snapshot])];
      }
    }

    method DetachProjector(id: nat)
      modifies this`projectors
      ensures projectors == old(projectors) - {id}
    {
      projectors := projectors - {id};
    }

    method BuildSnapshot() returns (m: RelayMessage)
      requires Consistent()
      ensures m == SnapshotOf(State(), cfg)
    {
      var cards := engine.Snapshot();
      m := Sequenced(seqNo, Event.Snapshot(cfg.sessionId, ToCaptionCards(cards), render, cfg.watermark));
    }

    method BackfillFrom(lastSeq: nat, role: Role) returns (frames: Option<seq<RelayMessage>>)
      requires Consistent()
      ensures frames == Backfill(log, lastSeq, role)
    {
      if lastSeq > seqNo {
        return None;
      }
      if |history| == 0 || history[0].seqNo > lastSeq + 1 {
        return None;
      }
      var out := [];
      ghost var base := |log| - |history|;
      VisibleBefore(log[..base], lastSeq, role);
      for i := 0 to |history|
        invariant out == Visible(log[..base + i], lastSeq, role)
      {
        assert log[..base + i + 1][..base + i] == log[..base + i];
        var entry := history[i];
        if entry.seqNo > lastSeq && ProjectorSafe(entry) && AllowedForRole(entry, role) {
          out := out + [entry];
        }
      }
      assert log[..base + |history|] == log;
      return Some(out);
    }

    /* Engine operations onto the wire */

    /** One operation of a turn; the engine already is in the state after the turn. */
    method ApplyOp(op: CaptionOp)
      requires Consistent() && Valid(engine.State())
      modifies this`seqNo, this`history, this`projectors, this`studio, this`log, this`spoken
      modifies this`pendingTranslations, this`inflightTranslations, this`inflight, this`asked
      ensures Consistent()
      ensures log == old(log) + EventOf(engine.State(), op)
      ensures TranslateQueue() == Served(old(TranslateQueue()), op, cfg.dstLangs, phase)
      ensures projectors == SentNews(old(projectors), log, |old(log)|)
      ensures spoken == old(spoken) + if hasVoice && op.Speak? then [(op.cardId, op.text)] else []
    {
      SentNothing(projectors, log);
      match op {
        case CardUpdate(cardId, text, stable) => EmitEvent(Event.Partial(cardId, text, stable, None));
        case CardCommit(cardId, text) => EmitEvent(Commit(cardId, text, None));
        case CardRetract(cardId, text) => EmitEvent(Retract(cardId, text, None));
        case CardTranslate(cardId, _, _, _) => EmitTranslation(cardId);
        case CardClose(cardId, _) => EmitEvent(CardEnd(cardId));
        case TranslateRequest(_, _, _, _) => EnqueueTranslation(op);
        case Speak(cardId, _, text) =>
          if hasVoice {
            spoken := spoken + [(cardId, text)];
          }
        case CardOpen(_, _) =>
      }
    }

    method EmitEvent(ev: Event)
      requires Consistent()
      modifies this`seqNo, this`history, this`projectors, this`studio, this`log
      ensures Consistent()
      ensures log == old(log) + [ev] && studio == old(studio) + [Sequenced(|log|, ev)]
      ensures projectors == SentNews(old(projectors), log, |old(log)|)
    {
      SentNothing(projectors, log);
      SentMore(projectors, log, ev, |log|);
      Emit(Sequenced(0, ev));
    }

    /** Looks the card up and puts it on the wire as it stands. */
    method EmitTranslation(cardId: string)
      requires Consistent() && Valid(engine.State())
      modifies this`seqNo, this`history, this`projectors, this`studio, this`log
      ensures Consistent()
      ensures log == old(log) + if Holds(engine.State(), cardId) then [Restated(CardOf(engine.State(), cardId))] else []
      ensures projectors == SentNews(old(projectors), log, |old(log)|)
    {
      SentNothing(projectors, log);
      var cards := engine.Snapshot();
      var i := 0;
      while i < |cards| && cards[i].cardId != cardId
        invariant i <= |cards|
        invariant forall j | 0 <= j < i :: cards[j].cardId != cardId
      {
        i := i + 1;
      }
      FoundInSnapshot(engine.State(), cardId, i);
      if i == |cards| {
        return;
      }
      var card := cards[i];
      var tr := if card.tr == map[] then None else Some(card.tr);
      if card.state == Live {
        EmitEvent(Event.Partial(cardId, card.text, card.stable, tr));
      } else {
        EmitEvent(Retract(cardId, card.text, tr));
      }
    }

    method ApplyOps(ops: seq<CaptionOp>)
      requires Consistent() && Valid(engine.State())
      modifies this`seqNo, this`history, this`projectors, this`studio, this`log, this`spoken
      modifies this`pendingTranslations, this`inflightTranslations, this`inflight, this`asked
      ensures Consistent()
      ensures log == old(log) + EventsOf(engine.State(), ops)
      ensures TranslateQueue() == ServedAll(old(TranslateQueue()), ops, cfg.dstLangs, phase)
      ensures projectors == SentNews(old(projectors), log, |old(log)|)
      ensures spoken == old(spoken) + if hasVoice then Spoken(ops) else []
    {
      SentNothing(projectors, log);
      ghost var from, sent, queued, said := log, projectors, TranslateQueue(), spoken;
      for i := 0 to |ops|
        invariant Applied(ops[..i], from, sent, queued, said)
      {
        assert ops[..i + 1] == ops[..i] + [ops[i]];
        ApplyNext(ops[..i], ops[i], from, sent, queued, said);
      }
      assert ops[..|ops|] == ops;
    }

    /** These operations have been applied since the log, the sockets, the queue and the voice were so. */
    ghost predicate Applied(ops: seq<CaptionOp>, from: seq<Event>, sent: map<nat, Attached>, queued: Queue,
                            said: seq<(string, string)>)
      reads this, engine, engine.rewrites, engine.context
    {
      && Consistent() && Valid(engine.State())
      && log == from + EventsOf(engine.State(), ops)
      && TranslateQueue() == ServedAll(queued, ops, cfg.dstLangs, phase)
      && projectors == SentNews(sent, log, |from|)
      && spoken == said + if hasVoice then Spoken(ops) else []
    }

    method ApplyNext(ghost done: seq<CaptionOp>, op: CaptionOp, ghost from: seq<Event>, ghost sent: map<nat, Attached>,
                     ghost queued: Queue, ghost said: seq<(string, string)>)
      requires Applied(done, from, sent, queued, said)
      modifies this`seqNo, this`history, this`projectors, this`studio, this`log, this`spoken
      modifies this`pendingTranslations, this`inflightTranslations, this`inflight, this`asked
      ensures Applied(done + [op], from, sent, queued, said)
    {
      ghost var before := log;
      ApplyOp(op);
      SentInTwoParts(sent, before, log, |from|);
      assert (done + [op])[..|done|] == done;
    }

    /* The translate queue */

    method EnqueueTranslation(op: CaptionOp)
      requires Consistent() && op.TranslateRequest?
      modifies this`pendingTranslations, this`inflightTranslations, this`inflight, this`asked
      ensures Consistent()
      ensures TranslateQueue() == Served(old(TranslateQueue()), op, cfg.dstLangs, phase)
    {
      for i := 0 to |cfg.dstLangs|
        invariant Consistent()
        invariant TranslateQueue() == UpsertAll(old(TranslateQueue()), op, cfg.dstLangs[..i])
      {
        assert cfg.dstLangs[..i + 1][..i] == cfg.dstLangs[..i];
        EnqueueOne(op, cfg.dstLangs[i]);
      }
      assert cfg.dstLangs[..|cfg.dstLangs|] == cfg.dstLangs;
      PumpTranslations();
    }

    method EnqueueOne(op: CaptionOp, lang: string)
      requires op.TranslateRequest?
      modifies this`pendingTranslations, this`asked
      ensures pendingTranslations == Upsert(old(pendingTranslations), JobFor(op, lang))
      ensures asked == if op.speculative then old(asked) else old(asked) + {(op.cardId, lang)}
    {
      SetPending(JobFor(op, lang));
      if !op.speculative {
        asked := asked + {(op.cardId, lang)};
      }
    }

    /** Replaces the queued job with the same key in its place, but a committed one only by a committed one. */
    method SetPending(job: Job)
      modifies this`pendingTranslations
      ensures pendingTranslations == Upsert(old(pendingTranslations), job)
    {
      var key := Key(job.cardId, job.lang);
      var i := 0;
      while i < |pendingTranslations| && Key(pendingTranslations[i].cardId, pendingTranslations[i].lang) != key
        invariant i <= |pendingTranslations|
        invariant forall j | 0 <= j < i :: Key(pendingTranslations[j].cardId, pendingTranslations[j].lang) != key
      {
        i := i + 1;
      }
      if i < |pendingTranslations| {
        var queued := pendingTranslations[i];
        if !queued.speculative && job.speculative {
          return;
        }
        pendingTranslations := pendingTranslations[i := job];
      } else {
        pendingTranslations := pendingTranslations + [job];
      }
    }

    method PumpTranslations()
      requires Consistent()
      modifies this`pendingTranslations, this`inflightTranslations, this`inflight
      ensures Consistent()
      ensures TranslateQueue() == Pump(old(TranslateQueue()), phase)
    {
      while inflightTranslations < MAX_INFLIGHT && |pendingTranslations| > 0 && phase != Closed
        invariant Consistent()
        invariant Pump(TranslateQueue(), phase) == Pump(old(TranslateQueue()), phase)
        decreases |pendingTranslations|
      {
        var job := pendingTranslations[0];
        pendingTranslations := pendingTranslations[1..];
        inflightTranslations := inflightTranslations + 1;
        inflight := inflight + [job];
      }
    }

    /** The continuation of a translation call: `None` stands for a failure. */
    method TranslationSettled(ghost slot: nat, job: Job, result: Option<string>, now: int)
      requires Consistent() && Valid(engine.State())
      requires slot < |inflight| && inflight[slot] == job
      modifies this, engine`live, engine`settled
      ensures Consistent()
      ensures State() == Step(old(State()), cfg, Reply(slot, result))
      ensures projectors == SentNews(old(projectors), log, |old(log)|)
      ensures result.None? ==> studio == old(studio) + Told(old(noticedAt), "warn", "TRANSLATION_DEGRADED", now)
    {
      SentNothing(projectors, log);
      if result.None? {
        Notice("warn", "TRANSLATION_DEGRADED", now);
      } else if phase != Closed {
        ApplyResult(slot, job, result.value);
      }
      FreeSlot(slot, job);
    }

    method ApplyResult(ghost slot: nat, job: Job, text: string)
      requires Consistent() && Valid(engine.State()) && slot < |inflight| && inflight[slot] == job
      modifies this`seqNo, this`history, this`projectors, this`studio, this`log, this`spoken
      modifies this`pendingTranslations, this`inflightTranslations, this`inflight, this`asked, engine`live,
        engine`settled
      ensures Consistent() && TranslateQueue() == old(TranslateQueue())
      ensures State() == ApplyTurn(old(State()), cfg, ReplyTurn(old(State()), cfg, job, text))
      ensures projectors == SentNews(old(projectors), log, |old(log)|)
    {
      ghost var before := State();
      var ops := engine.ApplyTranslation(job.cardId, job.lang, text, !job.speculative);
      ApplyTranslationValid(before.engine, cfg.engine, job.cardId, job.lang, text, !job.speculative);
      ApplyOps(ops);
      ReplyKeepsSlots(before, cfg, slot, Some(text));
    }

    method FreeSlot(ghost slot: nat, job: Job)
      requires Consistent() && slot < |inflight| && inflight[slot] == job
      modifies this`pendingTranslations, this`inflightTranslations, this`inflight, this`answered
      ensures Consistent()
      ensures TranslateQueue() == Finished(old(TranslateQueue()), slot, phase)
    {
      inflightTranslations := inflightTranslations - 1;
      inflight := inflight[..slot] + inflight[slot + 1..];
      if !job.speculative {
        answered := answered + {(job.cardId, job.lang)};
      }
      PumpTranslations();
    }

    /* Upstream events */

    method OnSttEvent(event: SttEvent, nextId: string)
      requires Consistent() && Valid(engine.State()) && nextId !in engine.issued
      modifies this, engine, engine.rewrites, engine.context
      ensures Consistent()
      ensures State() == Step(old(State()), cfg, Speech(event, nextId))
      ensures projectors == SentNews(old(projectors), log, |old(log)|)
    {
      SentNothing(projectors, log);
      if phase == Closed {
        return;
      }
      PushValid(engine.State(), cfg.engine, event, nextId);
      var ops := engine.Push(event, nextId);
      ApplyOps(ops);
    }

    /** Render settings change at once, one by one; asking for anything that sets the price gets a notice. */
    method ApplyConfigure(patch: ConfigPatch, now: int)
      requires Consistent()
      modifies this
      ensures Consistent()
      ensures State() == if patch.render.Some? then Step(old(State()), cfg, Configure(patch.render.value))
              else old(State())
      ensures projectors == SentNews(old(projectors), log, |old(log)|)
      ensures studio == old(studio)
                        + (if patch.repricing then Told(old(noticedAt), "info", "TRANSLATION_DEGRADED", now) else [])
                        + (if patch.render.Some? then [Sequenced(|log|, Event.Render(render))] else [])
    {
      SentNothing(projectors, log);
      if patch.repricing {
        Notice("info", "TRANSLATION_DEGRADED", now);
      }
      if patch.render.None? {
        return;
      }
      render := RenderConfig(render.settings + patch.render.value);
      EmitEvent(Event.Render(render));
    }

    method OnTtsAudio(cardId: string, lang: string, chunk: string, final: bool)
      requires Consistent()
      modifies this
      ensures Consistent()
      ensures State() == Step(old(State()), cfg, VoiceChunk(cardId, lang, chunk, final))
      ensures projectors == SentNews(old(projectors), log, |old(log)|)
    {
      SentNothing(projectors, log);
      if phase == Closed {
        return;
      }
      EmitEvent(Tts(cardId, lang, chunk, final));
    }

    /** At most sixty frames per window are passed on to the recogniser. */
    method AcceptFrame(now: int) returns (accepted: bool)
      requires Consistent()
      modifies this
      ensures Consistent() && State() == old(State()) && projectors == old(projectors)
      ensures var w := Limits.FrameWindow(old(frameWindowStart), old(framesInWindow));
              && Limits.FrameWindow(frameWindowStart, framesInWindow) == Limits.Advance(w, now)
              && accepted == Limits.Accepts(w, now)
      ensures studio == old(studio) + if accepted then [] else Told(old(noticedAt), "warn", "NETWORK_SLOW", now)
    {
      if now - frameWindowStart >= Limits.FRAME_WINDOW_MS {
        frameWindowStart := now;
        framesInWindow := 0;
      }
      framesInWindow := framesInWindow + 1;
      accepted := framesInWindow <= Limits.MAX_FRAMES_PER_WINDOW;
      if !accepted {
        Notice("warn", "NETWORK_SLOW", now);
      }
    }

    /* Close */

    method BeginDrain()
      requires Consistent()
      modifies this`phase, this`ticking, this`upstreamOpen, this`pendingTranslations, this`discarded
      ensures Consistent()
      ensures State() == Step(old(State()), cfg, BeginClose)
      ensures if old(phase) == Running then !ticking && !upstreamOpen
              else ticking == old(ticking) && upstreamOpen == old(upstreamOpen)
    {
      if phase != Running {
        return;
      }
      phase := Draining;
      ticking, upstreamOpen := false, false;
      discarded := discarded + CommittedKeys(pendingTranslations);
      pendingTranslations := [];
    }

    /** The end of the session reaches the studio alone. Projectors are closed without the reason, and forgotten. */
    method Finish(reason: string, creditsSpent: int)
      requires Consistent() && phase == Draining
      modifies this`seqNo, this`history, this`projectors, this`studio, this`log, this`phase
      modifies this`studioClosedWith, this`projectorsClosedWith, this`registered
      ensures Consistent()
      ensures State() == Step(old(State()), cfg, FinishClose) && projectors == map[] && !registered
      ensures studio == old(studio) + [End(reason, creditsSpent)] && studioClosedWith == Some(reason)
      ensures projectorsClosedWith == map id | id in old(projectors) :: "session_ended"
    {
      SentUnsafe(projectors, End(reason, creditsSpent));
      Emit(End(reason, creditsSpent));
      CloseSockets(reason);
    }

    method CloseSockets(reason: string)
      requires Consistent()
      modifies this`phase, this`projectors, this`studioClosedWith, this`projectorsClosedWith, this`registered
      ensures Consistent() && State() == old(State()).(phase := Closed)
      ensures studioClosedWith == Some(reason) && projectors == map[] && !registered
      ensures projectorsClosedWith == map id | id in old(projectors) :: "session_ended"
    {
      phase := Closed;
      studioClosedWith := Some(reason);
      projectorsClosedWith := map id | id in projectors :: "session_ended";
      projectors := map[];
      registered := false;
    }
  }

  /** The first card with an identifier in a snapshot is the card the engine holds. */
  lemma FoundInSnapshot(e: EngineState, cardId: string, i: nat)
    requires Valid(e) && i <= |Engine.Snapshot(e)|
    requires forall j | 0 <= j < i :: Engine.Snapshot(e)[j].cardId != cardId
    requires i < |Engine.Snapshot(e)| ==> Engine.Snapshot(e)[i].cardId == cardId
    ensures i < |Engine.Snapshot(e)| <==> Holds(e, cardId)
    ensures Holds(e, cardId) ==> CardOf(e, cardId) == Engine.Snapshot(e)[i]
  {
    var cards := Engine.Snapshot(e);
    assert forall j | 0 <= j < |e.settled| :: cards[j] == e.settled[j];
    assert e.live.Some? ==> cards[|e.settled|] == e.live.value.view;
  }

  lemma VisibleBefore(log: seq<Event>, from: nat, role: Role)
    requires |log| <= from
    ensures Visible(log, from, role) == []
  {
  }
}
