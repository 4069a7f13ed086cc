/** The translate queue over whole runs: nothing asked is lost. */
module Scheduler {
  import opened Text
  import opened Wire
  import opened Engine
  import opened Relay

  predicate IsLower(c: char) {
    'a' <= c <= 'z'
  }

  predicate IsUpper(c: char) {
    'A' <= c <= 'Z'
  }

  /** Two lower-case letters, as in ISO 639-1, and perhaps a dash and two capitals. */
  predicate LanguageCode(l: string) {
    && 2 <= |l| && IsLower(l[0]) && IsLower(l[1])
    && (|l| == 2 || (|l| == 5 && l[2] == '-' && IsUpper(l[3]) && IsUpper(l[4])))
  }

  lemma KeyInjective(cardId: string, lang: string, cardId': string, lang': string)
    requires LanguageCode(lang) && LanguageCode(lang')
    requires Key(cardId, lang) == Key(cardId', lang')
    ensures cardId == cardId' && lang == lang'
  {
    assert '|' !in lang && '|' !in lang';
    SplitAtLast(cardId, lang, cardId', lang', '|');
  }

  function One(b: bool): nat {
    if b then 1 else 0
  }

  predicate IsCommitted(job: Job, k: (string, string)) {
    !job.speculative && (job.cardId, job.lang) == k
  }

  /** Committed jobs for a card and language. */
  function Count(jobs: seq<Job>, k: (string, string)): nat {
    if jobs == [] then 0 else Count(jobs[..|jobs| - 1], k) + One(IsCommitted(jobs[|jobs| - 1], k))
  }

  lemma {:induction false} CountConcat(a: seq<Job>, b: seq<Job>, k: (string, string))
    ensures Count(a + b, k) == Count(a, k) + Count(b, k)
    decreases |b|
  {
    if b == [] {
      assert a + b == a;
    } else {
      CountConcat(a, b[..|b| - 1], k);
      assert (a + b)[..|a + b| - 1] == a + b[..|b| - 1];
    }
  }

  lemma CountOne(job: Job, k: (string, string))
    ensures Count([job], k) == One(IsCommitted(job, k))
  {
    assert [job][..0] == [];
  }

  lemma CountSplit(jobs: seq<Job>, i: nat, k: (string, string))
    requires i < |jobs|
    ensures Count(jobs, k) == Count(jobs[..i], k) + One(IsCommitted(jobs[i], k)) + Count(jobs[i + 1..], k)
  {
    assert jobs == jobs[..i] + [jobs[i]] + jobs[i + 1..];
    CountConcat(jobs[..i] + [jobs[i]], jobs[i + 1..], k);
    CountConcat(jobs[..i], [jobs[i]], k);
    CountOne(jobs[i], k);
  }

  lemma CountReplaced(jobs: seq<Job>, i: nat, job: Job, k: (string, string))
    requires i < |jobs|
    ensures Count(jobs[i := job], k) + One(IsCommitted(jobs[i], k)) == Count(jobs, k) + One(IsCommitted(job, k))
  {
    var updated := jobs[i := job];
    CountSplit(jobs, i, k);
    CountSplit(updated, i, k);
    assert updated[..i] == jobs[..i] && updated[i + 1..] == jobs[i + 1..];
  }

  lemma {:induction false} CountPositive(jobs: seq<Job>, i: nat, k: (string, string))
    requires i < |jobs| && IsCommitted(jobs[i], k)
    ensures Count(jobs, k) > 0
  {
    CountSplit(jobs, i, k);
  }

  /* The invariant */

  function Places(q: Queue, k: (string, string)): nat {
    Count(q.pending, k) + Count(q.inflight, k) + One(k in q.answered) + One(k in q.discarded)
  }

  predicate UniqueKeys(pending: seq<Job>) {
    forall i, j | 0 <= i < j < |pending| ::
      Key(pending[i].cardId, pending[i].lang) != Key(pending[j].cardId, pending[j].lang)
  }

  predicate GoodJobs(jobs: seq<Job>) {
    forall job | job in jobs :: LanguageCode(job.lang)
  }

  /** Every committed request is in exactly one place: queued, in flight, answered, or discarded by the close. */
  ghost predicate Accounted(q: Queue) {
    forall k :: Places(q, k) == One(k in q.asked)
  }

  predicate WellFormed(q: Queue) {
    UniqueKeys(q.pending) && GoodJobs(q.pending) && GoodJobs(q.inflight) && |q.inflight| <= MAX_INFLIGHT
  }

  /** Committed requests are about cards that are no longer live. */
  predicate AskedWasCommitted(e: EngineState, q: Queue) {
    forall k | k in q.asked :: k.0 in e.issued && !IsLive(e, k.0)
  }

  ghost predicate QueueOk(e: EngineState, q: Queue, phase: Phase) {
    && WellFormed(q) && Accounted(q) && AskedWasCommitted(e, q)
    && (phase != Closed && |q.inflight| < MAX_INFLIGHT ==> q.pending == [])
    && (phase == Running ==> q.discarded == {})
  }

  /* Queue operations */

  lemma PumpOnce(q: Queue)
    requires WellFormed(q) && Accounted(q) && q.pending != [] && |q.inflight| < MAX_INFLIGHT
    ensures var p := q.(pending := q.pending[1..], inflight := q.inflight + [q.pending[0]]);
            WellFormed(p) && Accounted(p)
  {
    var p := q.(pending := q.pending[1..], inflight := q.inflight + [q.pending[0]]);
    forall k
      ensures Places(p, k) == Places(q, k)
    {
      CountSplit(q.pending, 0, k);
      CountConcat(q.inflight, [q.pending[0]], k);
      CountOne(q.pending[0], k);
      assert q.pending[..0] == [];
    }
    forall k
      ensures Places(p, k) == One(k in p.asked)
    {
      assert Places(q, k) == One(k in q.asked);
    }
  }

  lemma {:induction false} PumpKeeps(q: Queue, phase: Phase)
    requires WellFormed(q) && Accounted(q)
    ensures var p := Pump(q, phase);
            && WellFormed(p) && Accounted(p)
            && p.asked == q.asked && p.answered == q.answered && p.discarded == q.discarded
            && (phase != Closed && |p.inflight| < MAX_INFLIGHT ==> p.pending == [])
    decreases |q.pending|
  {
    if |q.inflight| < MAX_INFLIGHT && q.pending != [] && phase != Closed {
      PumpOnce(q);
      PumpKeeps(q.(pending := q.pending[1..], inflight := q.inflight + [q.pending[0]]), phase);
    }
  }

  lemma UpsertWellFormed(pending: seq<Job>, job: Job)
    requires UniqueKeys(pending) && GoodJobs(pending) && LanguageCode(job.lang)
    ensures UniqueKeys(Upsert(pending, job)) && GoodJobs(Upsert(pending, job))
  {
    var i := Position(pending, Key(job.cardId, job.lang));
    if i < |pending| {
      assert forall j | 0 <= j < |pending| :: j != i ==> Upsert(pending, job)[j] == pending[j] && pending[j] in pending;
    }
  }

  /** A speculative request never displaces a committed one; a committed one is added unless already queued. */
  lemma UpsertCount(pending: seq<Job>, job: Job, k: (string, string))
    requires UniqueKeys(pending) && GoodJobs(pending) && LanguageCode(job.lang)
    ensures Count(Upsert(pending, job), k)
         == if IsCommitted(job, k) && Count(pending, k) == 0 then 1 else Count(pending, k)
  {
    var i := Position(pending, Key(job.cardId, job.lang));
    if i == |pending| {
      CountConcat(pending, [job], k);
      CountOne(job, k);
      if k == (job.cardId, job.lang) {
        NoneQueued(pending, k);
      }
    } else {
      assert pending[i] in pending;
      KeyInjective(job.cardId, job.lang, pending[i].cardId, pending[i].lang);
      CountReplaced(pending, i, job, k);
      if k == (job.cardId, job.lang) {
        OneQueued(pending, i, k);
      }
    }
  }

  lemma {:induction false} NoneQueued(pending: seq<Job>, k: (string, string))
    requires forall i | 0 <= i < |pending| :: Key(pending[i].cardId, pending[i].lang) != Key(k.0, k.1)
    ensures Count(pending, k) == 0
  {
    if pending != [] {
      NoneQueued(pending[..|pending| - 1], k);
    }
  }

  lemma OneQueued(pending: seq<Job>, i: nat, k: (string, string))
    requires UniqueKeys(pending) && i < |pending|
    requires (pending[i].cardId, pending[i].lang) == k
    ensures Count(pending, k) == One(!pending[i].speculative)
  {
    CountSplit(pending, i, k);
    NoneQueued(pending[..i], k);
    NoneQueued(pending[i + 1..], k);
  }

  /* Requests */

  predicate Askable(op: CaptionOp, langs: seq<string>) {
    op.TranslateRequest? && forall l | l in langs :: LanguageCode(l)
  }

  /** What holds while the languages of one request are queued, one by one. */
  ghost predicate Queueing(q: Queue, op: CaptionOp)
    requires op.TranslateRequest?
  {
    && WellFormed(q) && Accounted(q)
    && (!op.speculative ==> forall k | k in q.asked && k.0 == op.cardId :: Count(q.pending, k) == 1)
  }

  lemma UpsertOne(q: Queue, op: CaptionOp, lang: string)
    requires op.TranslateRequest? && LanguageCode(lang) && Queueing(q, op)
    ensures var p := q.(pending := Upsert(q.pending, JobFor(op, lang)),
                        asked := if op.speculative then q.asked else q.asked + {(op.cardId, lang)});
            Queueing(p, op)
  {
    var job := JobFor(op, lang);
    var p := q.(pending := Upsert(q.pending, job),
                asked := if op.speculative then q.asked else q.asked + {(op.cardId, lang)});
    UpsertWellFormed(q.pending, job);
    forall k
      ensures Places(p, k) == One(k in p.asked)
      ensures !op.speculative && k in p.asked && k.0 == op.cardId ==> Count(p.pending, k) == 1
    {
      UpsertCount(q.pending, job, k);
      assert Places(q, k) == One(k in q.asked);
    }
  }

  lemma {:induction false} UpsertAllKeeps(q: Queue, op: CaptionOp, langs: seq<string>)
    requires Askable(op, langs) && Queueing(q, op)
    ensures var p := UpsertAll(q, op, langs);
            && Queueing(p, op) && q.asked <= p.asked
            && (forall k | k in p.asked && k !in q.asked :: k.0 == op.cardId && !op.speculative)
            && p.answered == q.answered && p.discarded == q.discarded && p.inflight == q.inflight
    decreases |langs|
  {
    if langs != [] {
      UpsertAllKeeps(q, op, langs[..|langs| - 1]);
      UpsertOne(UpsertAll(q, op, langs[..|langs| - 1]), op, langs[|langs| - 1]);
    }
  }

  /** Asking for a translation keeps the books, as long as a committed request is the first of its card. */
  lemma ServedKeeps(e: EngineState, q: Queue, op: CaptionOp, langs: seq<string>, phase: Phase)
    requires Askable(op, langs) && QueueOk(e, q, phase)
    requires !op.speculative ==>
      op.cardId in e.issued && !IsLive(e, op.cardId) && forall k | k in q.asked :: k.0 != op.cardId
    ensures QueueOk(e, Served(q, op, langs, phase), phase)
    ensures Served(q, op, langs, phase).answered == q.answered
  {
    UpsertAllKeeps(q, op, langs);
    PumpKeeps(UpsertAll(q, op, langs), phase);
  }

  lemma {:induction false} ServedConcat(q: Queue, a: seq<CaptionOp>, b: seq<CaptionOp>, langs: seq<string>,
                                        phase: Phase)
    ensures ServedAll(q, a + b, langs, phase) == ServedAll(ServedAll(q, a, langs, phase), b, langs, phase)
    decreases |b|
  {
    if b == [] {
      assert a + b == a;
    } else {
      ServedConcat(q, a, b[..|b| - 1], langs, phase);
      assert (a + b)[..|a + b| - 1] == a + b[..|b| - 1];
    }
  }

  lemma ServedOne(q: Queue, op: CaptionOp, langs: seq<string>, phase: Phase)
    ensures ServedAll(q, [op], langs, phase) == Served(q, op, langs, phase)
  {
    assert [op][..0] == [];
  }

  /** Of the operations of a turn, only the request matters to the queue. */
  lemma ServedRequest(q: Queue, a: seq<CaptionOp>, op: CaptionOp, b: seq<CaptionOp>, langs: seq<string>, phase: Phase)
    requires (forall x | x in a :: !x.TranslateRequest?) && (forall x | x in b :: !x.TranslateRequest?)
    ensures ServedAll(q, a + [op] + b, langs, phase) == Served(q, op, langs, phase)
  {
    ServedConcat(q, a + [op], b, langs, phase);
    ServedConcat(q, a, [op], langs, phase);
    NothingServed(q, a, langs, phase);
    ServedOne(q, op, langs, phase);
    NothingServed(Served(q, op, langs, phase), b, langs, phase);
  }

  /* Turns of the relay */

  /** The books stay right for an engine whose live card is the same or a fresh one. */
  lemma QueueFrame(e: EngineState, f: EngineState, q: Queue, phase: Phase)
    requires QueueOk(e, q, phase) && e.issued <= f.issued
    requires f.live.Some? ==> IsLive(e, f.live.value.view.cardId) || f.live.value.view.cardId !in e.issued
    ensures QueueOk(f, q, phase)
  {
  }

  lemma UpdateServed(e: EngineState, base: EngineState, cfg: EngineConfig, card: LiveCard, tokens: seq<string>,
                     atMs: int, q: Queue, langs: seq<string>, phase: Phase)
    requires QueueOk(e, q, phase) && e.issued <= base.issued && (forall l | l in langs :: LanguageCode(l))
    requires IsLive(e, card.view.cardId) || card.view.cardId !in e.issued
    ensures var t := UpdateLive(base, cfg, card, tokens, atMs);
            QueueOk(t.state, ServedAll(q, t.ops, langs, phase), phase)
  {
    var t := UpdateLive(base, cfg, card, tokens, atMs);
    QueueFrame(e, t.state, q, phase);
    if |t.ops| == 2 {
      assert t.ops == [t.ops[0]] + [t.ops[1]] + [];
      ServedRequest(q, [t.ops[0]], t.ops[1], [], langs, phase);
      ServedKeeps(t.state, q, t.ops[1], langs, phase);
    } else {
      NothingServed(q, t.ops, langs, phase);
    }
  }

  lemma CommitServed(e: EngineState, base: EngineState, cfg: EngineConfig, card: LiveCard, clean: string, atMs: int,
                     q: Queue, langs: seq<string>, phase: Phase)
    requires QueueOk(e, q, phase) && e.issued <= base.issued && (forall l | l in langs :: LanguageCode(l))
    requires card.view.cardId in base.issued
    requires IsLive(e, card.view.cardId) || card.view.cardId !in e.issued
    ensures var t := CommitCard(base, cfg, card, clean, atMs);
            QueueOk(t.state, ServedAll(q, t.ops, langs, phase), phase)
  {
    var t := CommitCard(base, cfg, card, clean, atMs);
    var id := card.view.cardId;
    QueueFrame(e, t.state, q, phase);
    var head, speech, drop :=
      [CommitOp(card, clean)], SpeechOps(base.pendingSpeech, cfg, id, clean), DropOps(base.settled, atMs);
    if cfg.targetLangs == [] {
      NothingServed(q, t.ops, langs, phase);
    } else {
      var request := TranslateRequest(id, clean, base.context, false);
      assert t.ops == head + [request] + (speech + drop);
      ServedRequest(q, head, request, speech + drop, langs, phase);
      ServedKeeps(t.state, q, request, langs, phase);
    }
  }

  lemma OpenServed(q: Queue, open: CaptionOp, ops: seq<CaptionOp>, langs: seq<string>, phase: Phase)
    requires open.CardOpen?
    ensures ServedAll(q, [open] + ops, langs, phase) == ServedAll(q, ops, langs, phase)
  {
    ServedConcat(q, [open], ops, langs, phase);
    NothingServed(q, [open], langs, phase);
  }

  lemma SpeechKeepsQueue(e: EngineState, cfg: EngineConfig, event: SttEvent, nextId: string,
                         q: Queue, langs: seq<string>, phase: Phase)
    requires Valid(e) && QueueOk(e, q, phase) && nextId !in e.issued && (forall l | l in langs :: LanguageCode(l))
    ensures var t := Push(e, cfg, event, nextId);
            QueueOk(t.state, ServedAll(q, t.ops, langs, phase), phase)
  {
    var t := Push(e, cfg, event, nextId);
    var base := e.(issued := e.issued + {nextId});
    if t.ops == [] || t.ops[0].CardClose? {
      QueueFrame(e, t.state, q, phase);
      NothingServed(q, t.ops, langs, phase);
    } else if event.Partial? {
      var tokens := Tokenize(event.text);
      if e.live.Some? {
        UpdateServed(e, e, cfg, e.live.value, tokens, event.atMs, q, langs, phase);
      } else {
        UpdateServed(e, base, cfg, NewCard(nextId, event.atMs), tokens, event.atMs, q, langs, phase);
        OpenServed(q, t.ops[0], UpdateLive(base, cfg, NewCard(nextId, event.atMs), tokens, event.atMs).ops, langs,
                   phase);
      }
    } else {
      var clean := Trim(event.text);
      if e.live.Some? {
        CommitServed(e, e, cfg, e.live.value, clean, event.atMs, q, langs, phase);
      } else {
        CommitServed(e, base, cfg, NewCard(nextId, event.atMs), clean, event.atMs, q, langs, phase);
        OpenServed(q, t.ops[0], CommitCard(base, cfg, NewCard(nextId, event.atMs), clean, event.atMs).ops, langs,
                   phase);
      }
    }
  }

  lemma FinishKeeps(e: EngineState, q: Queue, slot: nat, phase: Phase)
    requires QueueOk(e, q, phase) && slot < |q.inflight|
    ensures QueueOk(e, Finished(q, slot, phase), phase)
  {
    var job := q.inflight[slot];
    var p := q.(inflight := q.inflight[..slot] + q.inflight[slot + 1..],
                answered := if job.speculative then q.answered else q.answered + {(job.cardId, job.lang)});
    forall k
      ensures Places(p, k) == One(k in p.asked)
    {
      assert Places(q, k) == One(k in q.asked);
      CountSplit(q.inflight, slot, k);
      CountConcat(q.inflight[..slot], q.inflight[slot + 1..], k);
    }
    PumpKeeps(p, phase);
  }

  lemma {:induction false} CountIsMembership(jobs: seq<Job>, k: (string, string))
    ensures Count(jobs, k) > 0 <==> k in CommittedKeys(jobs)
    decreases |jobs|
  {
    if jobs != [] {
      var front, last := jobs[..|jobs| - 1], jobs[|jobs| - 1];
      CountIsMembership(front, k);
      assert jobs == front + [last];
      assert CommittedKeys(jobs) == CommittedKeys(front) + if last.speculative then {} else {(last.cardId, last.lang)};
    }
  }

  lemma ClearKeeps(e: EngineState, q: Queue, phase: Phase)
    requires QueueOk(e, q, phase)
    ensures QueueOk(e, Cleared(q), Draining)
  {
    forall k
      ensures Places(Cleared(q), k) == One(k in q.asked)
    {
      assert Places(q, k) == One(k in q.asked);
      CountIsMembership(q.pending, k);
    }
  }

  predicate LanguagesOk(cfg: RelayConfig) {
    forall l | l in cfg.dstLangs :: LanguageCode(l)
  }

  ghost predicate RelayOk(r: RelayState) {
    Valid(r.engine) && QueueOk(r.engine, r.queue, r.phase)
  }

  /** What a translation leaves alone: identifiers, which cards are held, and every other card. */
  lemma TranslationFrame(e: EngineState, cfg: EngineConfig, cardId: string, lang: string, text: string, final: bool)
    ensures var f := ApplyTranslation(e, cfg, cardId, lang, text, final).state;
            f.issued == e.issued && f.live.Some? == e.live.Some?
            && (f.live.Some? ==> f.live.value.view.cardId == e.live.value.view.cardId)
  {
  }

  lemma StepKeepsQueue(r: RelayState, cfg: RelayConfig, ev: RelayEvent)
    requires Enabled(r, ev) && RelayOk(r) && LanguagesOk(cfg)
    ensures RelayOk(Step(r, cfg, ev))
  {
    match ev {
      case Speech(event, nextId) =>
        PushValid(r.engine, cfg.engine, event, nextId);
        SpeechKeepsQueue(r.engine, cfg.engine, event, nextId, r.queue, cfg.dstLangs, r.phase);
      case Reply(slot, result) =>
        FinishKeeps(r.engine, r.queue, slot, r.phase);
        if result.Some? && r.phase != Closed {
          var job := r.queue.inflight[slot];
          ReplyKeepsSlots(r, cfg, slot, result);
          ApplyTranslationValid(r.engine, cfg.engine, job.cardId, job.lang, result.value, !job.speculative);
          TranslationFrame(r.engine, cfg.engine, job.cardId, job.lang, result.value, !job.speculative);
          QueueFrame(r.engine, ReplyTurn(r, cfg, job, result.value).state, Finished(r.queue, slot, r.phase), r.phase);
        }
      case BeginClose => ClearKeeps(r.engine, r.queue, r.phase);
      case _ =>
    }
  }

  /* Runs of the relay */

  predicate LegalTurns(r: RelayState, cfg: RelayConfig, turns: seq<RelayEvent>)
    decreases turns
  {
    turns == [] || (Enabled(r, turns[0]) && LegalTurns(Step(r, cfg, turns[0]), cfg, turns[1..]))
  }

  function AfterTurns(r: RelayState, cfg: RelayConfig, turns: seq<RelayEvent>): RelayState
    requires LegalTurns(r, cfg, turns)
    decreases turns
  {
    if turns == [] then r else AfterTurns(Step(r, cfg, turns[0]), cfg, turns[1..])
  }

  /** At every turn boundary at most two translations are in flight, the queue is empty unless both slots are taken or
      the session is closed, and every committed request is in exactly one of queued, in flight, answered, or, once the
      session began to close, discarded. */
  lemma {:induction false} QueueDiscipline(r: RelayState, cfg: RelayConfig, turns: seq<RelayEvent>)
    requires RelayOk(r) && LanguagesOk(cfg) && LegalTurns(r, cfg, turns)
    ensures var s := AfterTurns(r, cfg, turns);
            && RelayOk(s)
            && |s.queue.inflight| <= 2 && (s.phase != Closed && |s.queue.inflight| < 2 ==> s.queue.pending == [])
            && (s.phase == Running ==> s.queue.discarded == {})
            && forall k | k in s.queue.asked ::
                 Count(s.queue.pending, k) + Count(s.queue.inflight, k)
                 + One(k in s.queue.answered) + One(k in s.queue.discarded) == 1
    decreases turns
  {
    if turns == [] {
      assert forall k | k in r.queue.asked :: Places(r.queue, k) == 1;
    } else {
      StepKeepsQueue(r, cfg, turns[0]);
      QueueDiscipline(Step(r, cfg, turns[0]), cfg, turns[1..]);
    }
  }

  lemma StartOk(render: RenderConfig)
    ensures RelayOk(Start(render))
  {
    InitialValid();
  }

  /** A committed sentence asks for its translation into every language of the session. */
  lemma {:induction false} CommitAsksEveryLanguage(q: Queue, op: CaptionOp, langs: seq<string>, phase: Phase,
                                                   lang: string)
    requires Askable(op, langs) && !op.speculative && lang in langs
    ensures (op.cardId, lang) in Served(q, op, langs, phase).asked
  {
    AskedAll(q, op, langs, lang);
    PumpKeepsAsked(UpsertAll(q, op, langs), phase);
  }

  lemma {:induction false} AskedAll(q: Queue, op: CaptionOp, langs: seq<string>, lang: string)
    requires op.TranslateRequest? && !op.speculative && lang in langs
    ensures (op.cardId, lang) in UpsertAll(q, op, langs).asked
    decreases |langs|
  {
    if langs[|langs| - 1] != lang {
      assert lang in langs[..|langs| - 1];
      AskedAll(q, op, langs[..|langs| - 1], lang);
    }
  }

  lemma {:induction false} PumpKeepsAsked(q: Queue, phase: Phase)
    ensures Pump(q, phase).asked == q.asked
    decreases |q.pending|
  {
    if |q.inflight| < MAX_INFLIGHT && q.pending != [] && phase != Closed {
      PumpKeepsAsked(q.(pending := q.pending[1..], inflight := q.inflight + [q.pending[0]]), phase);
    }
  }

  /* Final translations */

  /** The committed translation of a card into a language has been applied: if the engine still holds the card, it shows
      that text, and the reply has been counted. */
  predicate Finalized(r: RelayState, cardId: string, lang: string, text: string) {
    && (cardId, lang) in r.queue.answered && cardId in r.engine.issued
    && !IsLive(r.engine, cardId)
    && (IsSettled(r.engine, cardId) ==>
          var view := CardOf(r.engine, cardId);
          lang in view.tr && view.tr[lang] == text && view.trFinal)
  }

  lemma KeptInList(settled: seq<CardView>, view: CardView, id: string)
    requires DistinctCards(settled) && view.cardId != id
    ensures var now := (if Backlog(|settled|).DropOldest? then settled[1..] else settled) + [view];
            IndexOf(now, id) < |now| ==>
              IndexOf(settled, id) < |settled| && now[IndexOf(now, id)] == settled[IndexOf(settled, id)]
  {
    IndexAfterPush(if Backlog(|settled|).DropOldest? then settled[1..] else settled, view, id);
    if Backlog(|settled|).DropOldest? {
      IndexAfterShift(settled, id);
    }
  }

  lemma CommitKeepsSettled(e: EngineState, cfg: EngineConfig, card: LiveCard, clean: string, atMs: int, id: string)
    requires DistinctCards(e.settled) && card.view.cardId != id
    ensures var f := CommitCard(e, cfg, card, clean, atMs).state;
            && f.live.None? && f.issued == e.issued
            && (IsSettled(f, id) ==> IsSettled(e, id) && CardOf(f, id) == e.settled[IndexOf(e.settled, id)])
  {
    KeptInList(e.settled, Settle(card, clean), id);
  }

  /** A settled card keeps its content until it is dropped, whatever is recognised next. */
  lemma PushKeepsSettled(e: EngineState, cfg: EngineConfig, event: SttEvent, nextId: string, id: string)
    requires Valid(e) && nextId !in e.issued && id in e.issued && !IsLive(e, id)
    ensures var f := Push(e, cfg, event, nextId).state;
            && id in f.issued && !IsLive(f, id)
            && (IsSettled(f, id) ==> IsSettled(e, id) && CardOf(f, id) == CardOf(e, id))
  {
    if event.Committed? && Trim(event.text) != "" {
      if e.live.Some? {
        CommitKeepsSettled(e, cfg, e.live.value, Trim(event.text), event.atMs, id);
      } else {
        var base := e.(issued := e.issued + {nextId});
        CommitKeepsSettled(base, cfg, NewCard(nextId, event.atMs), Trim(event.text), event.atMs, id);
      }
    }
  }

  lemma {:induction false} PumpKeepsAnswered(q: Queue, phase: Phase)
    ensures Pump(q, phase).answered == q.answered
    decreases |q.pending|
  {
    if |q.inflight| < MAX_INFLIGHT && q.pending != [] && phase != Closed {
      PumpKeepsAnswered(q.(pending := q.pending[1..], inflight := q.inflight + [q.pending[0]]), phase);
    }
  }

  lemma {:induction false} ServedKeepsAnswered(q: Queue, ops: seq<CaptionOp>, langs: seq<string>, phase: Phase)
    ensures ServedAll(q, ops, langs, phase).answered == q.answered
    decreases |ops|
  {
    if ops != [] {
      var before := ServedAll(q, ops[..|ops| - 1], langs, phase);
      ServedKeepsAnswered(q, ops[..|ops| - 1], langs, phase);
      if ops[|ops| - 1].TranslateRequest? {
        UpsertKeepsAnswered(before, ops[|ops| - 1], langs);
        PumpKeepsAnswered(UpsertAll(before, ops[|ops| - 1], langs), phase);
      }
    }
  }

  lemma {:induction false} UpsertKeepsAnswered(q: Queue, op: CaptionOp, langs: seq<string>)
    requires op.TranslateRequest?
    ensures UpsertAll(q, op, langs).answered == q.answered
    decreases |langs|
  {
    if langs != [] {
      UpsertKeepsAnswered(q, op, langs[..|langs| - 1]);
    }
  }

  /** A reply other than the committed one of this card and language cannot change a final text. */
  lemma TranslationKeepsFinal(e: EngineState, cfg: EngineConfig, cardId: string, lang: string, text: string,
                              final: bool, id: string, l: string, t: string)
    requires IsSettled(e, id) && !IsLive(e, id) && l in CardOf(e, id).tr && CardOf(e, id).tr[l] == t
    requires CardOf(e, id).trFinal
    requires !(final && cardId == id && lang == l)
    ensures var f := ApplyTranslation(e, cfg, cardId, lang, text, final).state;
            IsSettled(f, id) && !IsLive(f, id) && l in CardOf(f, id).tr && CardOf(f, id).tr[l] == t
              && CardOf(f, id).trFinal
  {
    if Holds(e, cardId) && !(CardOf(e, cardId).trFinal && !final) && !IsLive(e, cardId) {
      IndexAfterUpdate(e.settled, IndexOf(e.settled, cardId), Translated(CardOf(e, cardId), lang, text, final), id);
    }
  }

  lemma TranslationAddsNoCard(e: EngineState, cfg: EngineConfig, cardId: string, lang: string, text: string,
                              final: bool, id: string)
    ensures var f := ApplyTranslation(e, cfg, cardId, lang, text, final).state;
            IsSettled(f, id) == IsSettled(e, id) && IsLive(f, id) == IsLive(e, id) && f.issued == e.issued
  {
    if Holds(e, cardId) && !IsLive(e, cardId) {
      IndexAfterUpdate(e.settled, IndexOf(e.settled, cardId), Translated(CardOf(e, cardId), lang, text, final), id);
    }
  }

  lemma StepKeepsFinal(r: RelayState, cfg: RelayConfig, ev: RelayEvent, cardId: string, lang: string, text: string)
    requires Enabled(r, ev) && RelayOk(r) && LanguagesOk(cfg) && Finalized(r, cardId, lang, text)
    ensures Finalized(Step(r, cfg, ev), cardId, lang, text)
  {
    match ev {
      case Speech(event, nextId) =>
        PushKeepsSettled(r.engine, cfg.engine, event, nextId, cardId);
        ServedKeepsAnswered(r.queue, Push(r.engine, cfg.engine, event, nextId).ops, cfg.dstLangs, r.phase);
      case Reply(slot, result) => ReplyKeepsFinal(r, cfg, slot, result, cardId, lang, text);
      case _ =>
    }
  }

  lemma ReplyKeepsFinal(r: RelayState, cfg: RelayConfig, slot: nat, result: Option<string>,
                        cardId: string, lang: string, text: string)
    requires slot < |r.queue.inflight| && RelayOk(r) && Finalized(r, cardId, lang, text)
    ensures Finalized(Step(r, cfg, Reply(slot, result)), cardId, lang, text)
  {
    var job := r.queue.inflight[slot];
    var q := r.queue.(inflight := r.queue.inflight[..slot] + r.queue.inflight[slot + 1..],
                      answered := if job.speculative then r.queue.answered
                        else r.queue.answered + {(job.cardId, job.lang)});
    PumpKeepsAnswered(q, r.phase);
    if result.Some? && r.phase != Closed {
      ReplyKeepsSlots(r, cfg, slot, result);
      assert Places(r.queue, (cardId, lang)) == One((cardId, lang) in r.queue.asked);
      if IsCommitted(job, (cardId, lang)) {
        CountPositive(r.queue.inflight, slot, (cardId, lang));
      }
      TranslationAddsNoCard(r.engine, cfg.engine, job.cardId, job.lang, result.value, !job.speculative, cardId);
      if IsSettled(r.engine, cardId) {
        TranslationKeepsFinal(r.engine, cfg.engine, job.cardId, job.lang, result.value, !job.speculative, cardId, lang,
                              text);
      }
    }
  }

  /** The reply to the committed request finalizes the translation. */
  lemma ReplyFinalizes(r: RelayState, cfg: RelayConfig, slot: nat, text: string)
    requires RelayOk(r) && r.phase != Closed && slot < |r.queue.inflight| && !r.queue.inflight[slot].speculative
    ensures var job := r.queue.inflight[slot];
            Finalized(Step(r, cfg, Reply(slot, Some(text))), job.cardId, job.lang, text)
  {
    var job := r.queue.inflight[slot];
    var k := (job.cardId, job.lang);
    assert Places(r.queue, k) == One(k in r.queue.asked);
    CountPositive(r.queue.inflight, slot, k);
    ReplyKeepsSlots(r, cfg, slot, Some(text));
    TranslationAddsNoCard(r.engine, cfg.engine, job.cardId, job.lang, text, true, job.cardId);
    PumpKeepsAnswered(r.queue.(inflight := r.queue.inflight[..slot] + r.queue.inflight[slot + 1..],
                               answered := r.queue.answered + {k}), r.phase);
    if IsSettled(r.engine, job.cardId) {
      IndexAfterUpdate(r.engine.settled, IndexOf(r.engine.settled, job.cardId),
                       Translated(CardOf(r.engine, job.cardId), job.lang, text, true), job.cardId);
    }
  }

  lemma {:induction false} FinalStays(r: RelayState, cfg: RelayConfig, turns: seq<RelayEvent>,
                                      cardId: string, lang: string, text: string)
    requires RelayOk(r) && LanguagesOk(cfg) && LegalTurns(r, cfg, turns) && Finalized(r, cardId, lang, text)
    ensures Finalized(AfterTurns(r, cfg, turns), cardId, lang, text)
    decreases turns
  {
    if turns != [] {
      StepKeepsQueue(r, cfg, turns[0]);
      StepKeepsFinal(r, cfg, turns[0], cardId, lang, text);
      FinalStays(Step(r, cfg, turns[0]), cfg, turns[1..], cardId, lang, text);
    }
  }

  /** The final translation wins under every interleaving: after any run, once the reply to the committed request of a
      card and language lands, then in every later state in which the engine holds the card it shows exactly that text
      for the language, marked final. */
  lemma FinalTranslationWins(cfg: RelayConfig, render: RenderConfig, earlier: seq<RelayEvent>, slot: nat, text: string,
                             later: seq<RelayEvent>)
    requires LanguagesOk(cfg) && LegalTurns(Start(render), cfg, earlier)
    requires var r := AfterTurns(Start(render), cfg, earlier);
             && r.phase != Closed && slot < |r.queue.inflight| && !r.queue.inflight[slot].speculative
             && LegalTurns(Step(r, cfg, Reply(slot, Some(text))), cfg, later)
    ensures var r := AfterTurns(Start(render), cfg, earlier);
            var job := r.queue.inflight[slot];
            var s := AfterTurns(Step(r, cfg, Reply(slot, Some(text))), cfg, later);
            Holds(s.engine, job.cardId) ==>
              var view := CardOf(s.engine, job.cardId);
              job.lang in view.tr && view.tr[job.lang] == text && view.trFinal
  {
    var r := AfterTurns(Start(render), cfg, earlier);
    var job := r.queue.inflight[slot];
    StartOk(render);
    QueueDiscipline(Start(render), cfg, earlier);
    ReplyFinalizes(r, cfg, slot, text);
    StepKeepsQueue(r, cfg, Reply(slot, Some(text)));
    FinalStays(Step(r, cfg, Reply(slot, Some(text))), cfg, later, job.cardId, job.lang, text);
  }
}
