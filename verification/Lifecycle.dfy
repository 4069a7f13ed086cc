/** The engine over whole runs: the life and the cost of a card. */
module Lifecycle {
  import opened Text
  import opened Stability
  import opened Translation
  import opened Engine

  datatype Input =
    | Event(event: SttEvent, nextId: string)
    | Result(cardId: string, lang: string, text: string, final: bool)

  function React(e: EngineState, cfg: EngineConfig, input: Input): Turn {
    match input
    case Event(event, nextId) => Push(e, cfg, event, nextId)
    case Result(cardId, lang, text, final) => ApplyTranslation(e, cfg, cardId, lang, text, final)
  }

  /** State and all operations after a run; `ops` is the whole trace. */
  function Run(cfg: EngineConfig, inputs: seq<Input>): Turn {
    if inputs == [] then Turn(INITIAL, [])
    else
      var before := Run(cfg, inputs[..|inputs| - 1]);
      var t := React(before.state, cfg, inputs[|inputs| - 1]);
      Turn(t.state, before.ops + t.ops)
  }

  /** The generator never repeats an identifier. */
  predicate FreshIds(cfg: EngineConfig, inputs: seq<Input>) {
    inputs == [] || (
      var before, last := inputs[..|inputs| - 1], inputs[|inputs| - 1];
      FreshIds(cfg, before) && (last.Event? ==> last.nextId !in Run(cfg, before).state.issued))
  }

  lemma {:induction false} RunValid(cfg: EngineConfig, inputs: seq<Input>)
    requires FreshIds(cfg, inputs)
    ensures Valid(Run(cfg, inputs).state)
    decreases |inputs|
  {
    if inputs == [] {
      InitialValid();
    } else {
      var before, last := inputs[..|inputs| - 1], inputs[|inputs| - 1];
      RunValid(cfg, before);
      var e := Run(cfg, before).state;
      match last {
        case Event(event, nextId) => PushValid(e, cfg, event, nextId);
        case Result(cardId, lang, text, final) => ApplyTranslationValid(e, cfg, cardId, lang, text, final);
      }
    }
  }

  /** The default generator counts before it names, so the first card is c1; its identifiers never repeat. */
  function DefaultId(counter: nat): string {
    "c" + Decimal(counter + 1)
  }

  lemma DefaultIdsDistinct(i: nat, j: nat)
    requires DefaultId(i) == DefaultId(j)
    ensures i == j
  {
    assert DefaultId(i)[1..] == Decimal(i + 1) && DefaultId(j)[1..] == Decimal(j + 1);
    DecimalInjective(i + 1, j + 1);
  }

  /* The life of a card */

  datatype Phase = Absent | Opened | Shown | Closed | Broken

  /** The operations a card may see: open, updates, then close or exactly one commit or retract,
      then at most one close, and nothing after a close. */
  function Advance(phase: Phase, op: CaptionOp): Phase {
    match phase
    case Absent => if op.CardOpen? then Opened else Broken
    case Opened =>
      if op.CardUpdate? || op.CardTranslate? || op.Speak? || (op.TranslateRequest? && op.speculative) then Opened
      else if op.CardCommit? || op.CardRetract? then Shown
      else if op.CardClose? then Closed
      else Broken
    case Shown =>
      if op.CardTranslate? || op.Speak? || (op.TranslateRequest? && !op.speculative) then Shown
      else if op.CardClose? then Closed
      else Broken
    case _ => Broken
  }

  function Seen(phase: Phase, op: CaptionOp, id: string): Phase {
    if op.cardId == id then Advance(phase, op) else phase
  }

  function Follow(phase: Phase, ops: seq<CaptionOp>, id: string): Phase
    decreases ops
  {
    if ops == [] then phase else Follow(Seen(phase, ops[0], id), ops[1..], id)
  }

  lemma FollowTwo(phase: Phase, a: CaptionOp, b: CaptionOp, id: string)
    ensures Follow(phase, [a], id) == Seen(phase, a, id)
    ensures Follow(phase, [a, b], id) == Seen(Seen(phase, a, id), b, id)
  {
    assert [a, b][1..] == [b] && [b][1..] == [] && [a][1..] == [];
    assert Follow(phase, [a, b], id) == Follow(Seen(phase, a, id), [b], id);
    assert Follow(Seen(phase, a, id), [b], id) == Follow(Seen(Seen(phase, a, id), b, id), [], id);
  }

  lemma {:induction false} FollowConcat(phase: Phase, a: seq<CaptionOp>, b: seq<CaptionOp>, id: string)
    ensures Follow(phase, a + b, id) == Follow(Follow(phase, a, id), b, id)
    decreases |a|
  {
    if a == [] {
      assert a + b == b;
    } else {
      assert (a + b)[1..] == a[1..] + b;
      FollowConcat(Seen(phase, a[0], id), a[1..], b, id);
    }
  }

  /** Where the engine's own state says a card is. */
  function PhaseIn(e: EngineState, id: string): Phase {
    if IsLive(e, id) then Opened
    else if IsSettled(e, id) then Shown
    else if id in e.issued then Closed
    else Absent
  }

  lemma UpdateLivePhase(e: EngineState, cfg: EngineConfig, card: LiveCard, tokens: seq<string>, atMs: int,
                        before: Phase, id: string)
    requires id == card.view.cardId ==> before == Opened
    ensures var t := UpdateLive(e, cfg, card, tokens, atMs);
            && Follow(before, t.ops, id) == before
            && t.state.settled == e.settled && t.state.issued == e.issued
            && IsLive(t.state, card.view.cardId)
  {
    var t := UpdateLive(e, cfg, card, tokens, atMs);
    FollowTwo(before, t.ops[0], t.ops[|t.ops| - 1], id);
    assert t.ops == [t.ops[0]] || t.ops == [t.ops[0], t.ops[|t.ops| - 1]];
  }

  lemma PartialPhase(e: EngineState, cfg: EngineConfig, text: string, atMs: int, nextId: string, id: string)
    requires Valid(e) && nextId !in e.issued
    ensures var t := OnPartial(e, cfg, text, atMs, nextId);
            Follow(PhaseIn(e, id), t.ops, id) == PhaseIn(t.state, id)
  {
    var tokens := Tokenize(text);
    if tokens == [] {
    } else if e.live.Some? {
      UpdateLivePhase(e, cfg, e.live.value, tokens, atMs, PhaseIn(e, id), id);
    } else {
      var issued := e.(issued := e.issued + {nextId});
      var phase := if id == nextId then Opened else PhaseIn(e, id);
      UpdateLivePhase(issued, cfg, NewCard(nextId, atMs), tokens, atMs, phase, id);
      FollowConcat(PhaseIn(e, id), [CardOpen(nextId, atMs)],
                   UpdateLive(issued, cfg, NewCard(nextId, atMs), tokens, atMs).ops, id);
      assert !IsSettled(e, nextId);
    }
  }

  lemma CommitCardPhase(e: EngineState, cfg: EngineConfig, card: LiveCard, clean: string, atMs: int, id: string)
    requires Valid(e.(live := None)) && card.view.cardId in e.issued && !IsSettled(e, card.view.cardId)
    ensures var t := CommitCard(e, cfg, card, clean, atMs);
            Follow(if id == card.view.cardId then Opened else PhaseIn(e.(live := None), id), t.ops, id)
            == PhaseIn(t.state, id)
  {
    var t := CommitCard(e, cfg, card, clean, atMs);
    var cardId := card.view.cardId;
    var head := [CommitOp(card, clean)] + RequestOps(e.context, cfg, cardId, clean)
        + SpeechOps(e.pendingSpeech, cfg, cardId, clean);
    var before := if id == cardId then Opened else PhaseIn(e.(live := None), id);
    FollowConcat(before, head, DropOps(e.settled, atMs), id);
    CommitHeadPhase(e, cfg, card, clean, before, id);
    if Backlog(|e.settled|).DropOldest? {
      IndexAfterShift(e.settled, id);
      IndexAfterShift(e.settled, cardId);
      IndexAfterPush(e.settled[1..], Settle(card, clean), id);
    } else {
      IndexAfterPush(e.settled, Settle(card, clean), id);
    }
  }

  lemma CommitHeadPhase(e: EngineState, cfg: EngineConfig, card: LiveCard, clean: string, before: Phase, id: string)
    ensures var cardId := card.view.cardId;
            var head := [CommitOp(card, clean)] + RequestOps(e.context, cfg, cardId, clean)
                + SpeechOps(e.pendingSpeech, cfg, cardId, clean);
            && (id == cardId && before == Opened ==> Follow(before, head, id) == Shown)
            && (id != cardId ==> Follow(before, head, id) == before)
  {
    var cardId := card.view.cardId;
    var request, speech := RequestOps(e.context, cfg, cardId, clean), SpeechOps(e.pendingSpeech, cfg, cardId, clean);
    FollowConcat(before, [CommitOp(card, clean)] + request, speech, id);
    FollowConcat(before, [CommitOp(card, clean)], request, id);
  }

  lemma CommittedPhase(e: EngineState, cfg: EngineConfig, text: string, atMs: int, nextId: string, id: string)
    requires Valid(e) && nextId !in e.issued
    ensures var t := OnCommitted(e, cfg, text, atMs, nextId);
            Follow(PhaseIn(e, id), t.ops, id) == PhaseIn(t.state, id)
  {
    var clean := Trim(text);
    if clean == "" {
    } else if e.live.Some? {
      CommitCardPhase(e, cfg, e.live.value, clean, atMs, id);
    } else {
      assert !IsSettled(e, nextId);
      var issued := e.(issued := e.issued + {nextId});
      CommitCardPhase(issued, cfg, NewCard(nextId, atMs), clean, atMs, id);
    }
  }

  lemma TranslationPhase(e: EngineState, cfg: EngineConfig, cardId: string, lang: string, text: string, final: bool,
                         id: string)
    requires Valid(e)
    ensures var t := ApplyTranslation(e, cfg, cardId, lang, text, final);
            && Follow(PhaseIn(e, id), t.ops, id) == PhaseIn(t.state, id)
  {
    var t := ApplyTranslation(e, cfg, cardId, lang, text, final);
    if t.ops != [] {
      FollowTwo(PhaseIn(e, id), t.ops[0], t.ops[|t.ops| - 1], id);
      assert t.ops == [t.ops[0]] || t.ops == [t.ops[0], t.ops[|t.ops| - 1]];
    }
    if Holds(e, cardId) && !IsLive(e, cardId) {
      IndexAfterUpdate(e.settled, IndexOf(e.settled, cardId), Translated(CardOf(e, cardId), lang, text, final), id);
    }
  }

  lemma ReactPhase(e: EngineState, cfg: EngineConfig, input: Input, id: string)
    requires Valid(e) && (input.Event? ==> input.nextId !in e.issued)
    ensures Follow(PhaseIn(e, id), React(e, cfg, input).ops, id) == PhaseIn(React(e, cfg, input).state, id)
  {
    match input {
      case Event(event, nextId) =>
        match event {
          case Partial(text, atMs) => PartialPhase(e, cfg, text, atMs, nextId, id);
          case Committed(text, atMs) => CommittedPhase(e, cfg, text, atMs, nextId, id);
          case Silence(atMs) => CommittedPhase(e, cfg, "", atMs, nextId, id);
        }
      case Result(cardId, lang, text, final) => TranslationPhase(e, cfg, cardId, lang, text, final, id);
    }
  }

  /** The trace of every run gives every card a legal life, and the engine's state agrees with it:
      no operation names a card after its close, and only the live card is open. */
  lemma {:induction false} CardLifecycle(cfg: EngineConfig, inputs: seq<Input>, id: string)
    requires FreshIds(cfg, inputs)
    ensures Follow(Absent, Run(cfg, inputs).ops, id) == PhaseIn(Run(cfg, inputs).state, id) != Broken
    decreases |inputs|
  {
    if inputs != [] {
      var before, last := inputs[..|inputs| - 1], inputs[|inputs| - 1];
      CardLifecycle(cfg, before, id);
      RunValid(cfg, before);
      var e := Run(cfg, before).state;
      FollowConcat(Absent, Run(cfg, before).ops, React(e, cfg, last).ops, id);
      ReactPhase(e, cfg, last, id);
    }
  }

  /** Cards committed are the settled ones and the dropped ones, at most seven stay settled, and a snapshot
      never exceeds the eight cards a projector keeps. */
  lemma {:induction false} CardsAccountedFor(cfg: EngineConfig, inputs: seq<Input>)
    requires FreshIds(cfg, inputs)
    ensures var e := Run(cfg, inputs).state;
            && e.cardsEmitted == |e.settled| + e.droppedCards
            && |e.settled| <= 7 && |Snapshot(e)| <= 8
  {
    RunValid(cfg, inputs);
  }

  /* Speculative requests */

  predicate SpeculatesFor(ops: seq<CaptionOp>, id: string) {
    exists i | 0 <= i < |ops| :: ops[i].TranslateRequest? && ops[i].speculative && ops[i].cardId == id
  }

  /** The times at which speculative requests for a card were made. */
  function RequestTimes(cfg: EngineConfig, inputs: seq<Input>, id: string): seq<int> {
    if inputs == [] then []
    else
      var before, last := inputs[..|inputs| - 1], inputs[|inputs| - 1];
      var t := React(Run(cfg, before).state, cfg, last);
      RequestTimes(cfg, before, id)
      + if SpeculatesFor(t.ops, id) && last.Event? then [last.event.atMs] else []
  }

  /** The largest stable count a card ever showed. */
  function PeakStable(ops: seq<CaptionOp>, id: string): nat {
    if ops == [] then 0
    else
      var last := ops[|ops| - 1];
      Max(PeakStable(ops[..|ops| - 1], id), if last.CardUpdate? && last.cardId == id then last.stable else 0)
  }

  lemma {:induction false} PeakConcat(a: seq<CaptionOp>, b: seq<CaptionOp>, id: string)
    ensures PeakStable(a + b, id) == Max(PeakStable(a, id), PeakStable(b, id))
    decreases |b|
  {
    if b == [] {
      assert a + b == a;
    } else {
      PeakConcat(a, b[..|b| - 1], id);
      assert (a + b)[..|a + b| - 1] == a + b[..|b| - 1];
    }
  }

  /** The budget of a card: every request has paid for its growth out of the stable prefix. */
  predicate WithinBudget(e: EngineState, cfg: EngineConfig, times: seq<int>, peak: nat, id: string) {
    && |times| * cfg.speculativeGrowthChars <= peak
    && (forall k | 0 < k < |times| :: times[k] - times[k - 1] >= cfg.speculativeMinIntervalMs)
    && (id !in e.issued ==> times == [])
    && (IsLive(e, id) ==>
          var s := e.live.value.speculation;
          && |times| * cfg.speculativeGrowthChars <= s.lastTranslatedChars <= peak
          && s.lastRequestAtMs == if times == [] then None else Some(times[|times| - 1]))
  }

  /** One more request costs one more growth threshold. */
  lemma CostsMore(requests: nat, growth: int, before: int, after: int)
    requires requests * growth <= before && after - before >= growth
    ensures (requests + 1) * growth <= after
  {
    assert (requests + 1) * growth == requests * growth + growth;
  }

  /** A live card shown without a request for this id. */
  lemma ShownBudget(e: EngineState, f: EngineState, cfg: EngineConfig, card: LiveCard, times: seq<int>, peak: nat,
                    more: nat, id: string)
    requires WithinBudget(e.(live := Some(card)), cfg, times, peak, id) && more >= peak
    requires f.live.Some? && f.live.value.view.cardId == card.view.cardId && f.issued == e.issued
    requires id == card.view.cardId ==> f.live.value.speculation == card.speculation
    ensures WithinBudget(f, cfg, times, more, id)
  {
  }

  /** And one shown with a request, when its stable prefix of `chars` has grown enough. */
  lemma RequestBudget(e: EngineState, f: EngineState, cfg: EngineConfig, card: LiveCard, times: seq<int>, peak: nat,
                      chars: nat, atMs: int)
    requires WithinBudget(e.(live := Some(card)), cfg, times, peak, card.view.cardId) && card.view.cardId in e.issued
    requires ShouldTranslate(card.speculation, chars, atMs, cfg.speculativeGrowthChars, cfg.speculativeMinIntervalMs)
    requires f.live.Some? && f.live.value.view.cardId == card.view.cardId && f.issued == e.issued
    requires f.live.value.speculation == Speculation(chars, Some(atMs))
    ensures WithinBudget(f, cfg, times + [atMs], Max(peak, chars), card.view.cardId)
  {
    CostsMore(|times|, cfg.speculativeGrowthChars, card.speculation.lastTranslatedChars, chars);
  }

  /** An update, and perhaps one speculative request for the same card. */
  predicate UpdateOps(ops: seq<CaptionOp>, id: string) {
    && 1 <= |ops| <= 2 && ops[0].CardUpdate? && ops[0].cardId == id
    && (|ops| == 2 ==> ops[1].TranslateRequest? && ops[1].speculative && ops[1].cardId == id)
  }

  lemma UpdateSpeculates(ops: seq<CaptionOp>, card: string, id: string)
    requires UpdateOps(ops, card)
    ensures SpeculatesFor(ops, id) == (id == card && |ops| == 2)
    ensures PeakStable(ops, id) == if id == card then ops[0].stable else 0
  {
    PeakOfTwo(ops, id);
  }

  lemma UpdateLiveBudget(e: EngineState, cfg: EngineConfig, card: LiveCard, tokens: seq<string>, atMs: int,
                         times: seq<int>, peak: nat, id: string)
    requires WithinBudget(e.(live := Some(card)), cfg, times, peak, id) && card.view.cardId in e.issued
    ensures var t := UpdateLive(e, cfg, card, tokens, atMs);
            && SpeculatesFor(t.ops, id) == (id == card.view.cardId && |t.ops| == 2)
            && WithinBudget(t.state, cfg, times + (if SpeculatesFor(t.ops, id) then [atMs] else []),
                            Max(peak, PeakStable(t.ops, id)), id)
  {
    var t := UpdateLive(e, cfg, card, tokens, atMs);
    UpdateSpeculates(t.ops, card.view.cardId, id);
    if id == card.view.cardId && |t.ops| == 2 {
      RequestBudget(e, t.state, cfg, card, times, peak, t.ops[0].stable, atMs);
    } else {
      assert times + [] == times;
      ShownBudget(e, t.state, cfg, card, times, peak, Max(peak, PeakStable(t.ops, id)), id);
    }
  }

  lemma PeakOfTwo(ops: seq<CaptionOp>, id: string)
    requires 1 <= |ops| <= 2 && ops[0].CardUpdate? && (|ops| == 2 ==> !ops[1].CardUpdate?)
    ensures PeakStable(ops, id) == if ops[0].cardId == id then ops[0].stable else 0
  {
    assert ops[..1] == [ops[0]] && [ops[0]][..0] == [];
    assert PeakStable([ops[0]], id) == if ops[0].cardId == id then ops[0].stable else 0;
  }

  /** An opening does not count. */
  lemma OpeningIsFree(id: string, atMs: int, ops: seq<CaptionOp>, of: string)
    ensures SpeculatesFor([CardOpen(id, atMs)] + ops, of) == SpeculatesFor(ops, of)
    ensures PeakStable([CardOpen(id, atMs)] + ops, of) == PeakStable(ops, of)
  {
    var all := [CardOpen(id, atMs)] + ops;
    PeakConcat([CardOpen(id, atMs)], ops, of);
    assert [CardOpen(id, atMs)][..0] == [];
    assert forall i | 0 <= i < |ops| :: all[i + 1] == ops[i];
  }

  lemma PartialBudget(e: EngineState, cfg: EngineConfig, text: string, atMs: int, nextId: string,
                      times: seq<int>, peak: nat, id: string)
    requires Valid(e) && nextId !in e.issued && WithinBudget(e, cfg, times, peak, id)
    ensures var t := OnPartial(e, cfg, text, atMs, nextId);
            WithinBudget(t.state, cfg, times + (if SpeculatesFor(t.ops, id) then [atMs] else []),
                         Max(peak, PeakStable(t.ops, id)), id)
  {
    var tokens := Tokenize(text);
    if tokens == [] {
      assert times + [] == times;
    } else if e.live.Some? {
      UpdateLiveBudget(e, cfg, e.live.value, tokens, atMs, times, peak, id);
    } else {
      var issued := e.(issued := e.issued + {nextId});
      UpdateLiveBudget(issued, cfg, NewCard(nextId, atMs), tokens, atMs, times, peak, id);
      OpeningIsFree(nextId, atMs, UpdateLive(issued, cfg, NewCard(nextId, atMs), tokens, atMs).ops, id);
    }
  }

  /** No card is live any more, or the live one has the speculation it had. */
  lemma SettledBudget(e: EngineState, f: EngineState, cfg: EngineConfig, times: seq<int>, peak: nat, id: string)
    requires WithinBudget(e, cfg, times, peak, id) && e.issued <= f.issued
    requires f.live.Some? ==> e.live.Some? && f.live.value.view.cardId == e.live.value.view.cardId
                              && f.live.value.speculation == e.live.value.speculation
    ensures forall p: nat | p >= peak :: WithinBudget(f, cfg, times, p, id)
  {
  }

  lemma CommitMakesNone(e: EngineState, cfg: EngineConfig, card: LiveCard, clean: string, atMs: int, id: string)
    ensures var t := CommitCard(e, cfg, card, clean, atMs);
            !SpeculatesFor(t.ops, id) && t.state.live.None? && t.state.issued == e.issued
  {
  }

  /** Turns other than a partial make no speculative request and leave no unseen live card behind. */
  lemma OtherTurnBudget(e: EngineState, cfg: EngineConfig, input: Input, times: seq<int>, peak: nat, id: string)
    requires WithinBudget(e, cfg, times, peak, id) && !(input.Event? && input.event.Partial?)
    ensures var t := React(e, cfg, input);
            && !SpeculatesFor(t.ops, id)
            && forall p: nat | p >= peak :: WithinBudget(t.state, cfg, times, p, id)
  {
    if input.Event? && input.event.Committed? && Trim(input.event.text) != "" {
      var base := if e.live.Some? then e else e.(issued := e.issued + {input.nextId});
      var card := if e.live.Some? then e.live.value else NewCard(input.nextId, input.event.atMs);
      CommitMakesNone(base, cfg, card, Trim(input.event.text), input.event.atMs, id);
    }
    SettledBudget(e, React(e, cfg, input).state, cfg, times, peak, id);
  }

  /** A card gets at most (largest stable count) / (growth threshold) speculative requests, and consecutive ones
      are at least the minimum interval apart. */
  lemma {:induction false} SpeculationBudget(cfg: EngineConfig, inputs: seq<Input>, id: string)
    requires FreshIds(cfg, inputs)
    ensures WithinBudget(Run(cfg, inputs).state, cfg, RequestTimes(cfg, inputs, id),
                         PeakStable(Run(cfg, inputs).ops, id), id)
    decreases |inputs|
  {
    if inputs != [] {
      var before, last := inputs[..|inputs| - 1], inputs[|inputs| - 1];
      SpeculationBudget(cfg, before, id);
      RunValid(cfg, before);
      var r := Run(cfg, before);
      var times := RequestTimes(cfg, before, id);
      var peak := PeakStable(r.ops, id);
      PeakConcat(r.ops, React(r.state, cfg, last).ops, id);
      if last.Event? && last.event.Partial? {
        PartialBudget(r.state, cfg, last.event.text, last.event.atMs, last.nextId, times, peak, id);
      } else {
        OtherTurnBudget(r.state, cfg, last, times, peak, id);
        assert times + [] == times;
      }
    }
  }

  /** The hypotheses of the stability window: the last `frames` of those remembered. */
  predicate WindowAgrees(history: seq<seq<string>>, frames: int, prefix: seq<string>) {
    forall k | Max(0, |history| - frames) <= k < |history| :: prefix <= history[k]
  }

  /** A speculative request asks for whole leading words of the newest hypothesis, on which every hypothesis of the
      stability window agrees. */
  lemma SpeculativeTextIsStable(e: EngineState, cfg: EngineConfig, card: LiveCard, tokens: seq<string>, atMs: int)
    requires AreWords(tokens) && 0 < cfg.stabilityFrames
    requires |UpdateLive(e, cfg, card, tokens, atMs).ops| == 2
    ensures var request := UpdateLive(e, cfg, card, tokens, atMs).ops[1];
            && request.TranslateRequest? && request.speculative && request.cardId == card.view.cardId
            && exists n: nat :: 0 < n <= |tokens| && request.text == Join(tokens[..n])
                 && WindowAgrees(Remembered(card.history, tokens), cfg.stabilityFrames, tokens[..n])
  {
    var history := Remembered(card.history, tokens);
    var rewrites := Recorded(e.rewrites, REWRITE_WINDOW, Newest(card.history), tokens);
    var frames := AdaptiveFrames(cfg.stabilityFrames, RewriteRate(rewrites), cfg.adaptiveRewriteThreshold);
    var n := StableCount(cfg, rewrites, history);
    StableTokensMeaning(history, frames, cfg.volatileTailTokens, n);
    StableCharsCut(tokens, n);
  }

  /* The final flag */

  /** A known card that, as long as the engine holds it, is marked as finally translated. */
  predicate Marked(e: EngineState, id: string) {
    id in e.issued && (Holds(e, id) ==> CardOf(e, id).trFinal)
  }

  lemma CommitKeepsMark(e: EngineState, cfg: EngineConfig, card: LiveCard, clean: string, atMs: int, id: string)
    requires Valid(e.(live := None)) && !IsSettled(e, card.view.cardId)
    requires id in e.issued && if id == card.view.cardId then card.view.trFinal else Marked(e.(live := None), id)
    ensures Marked(CommitCard(e, cfg, card, clean, atMs).state, id)
  {
    var kept := if Backlog(|e.settled|).DropOldest? then e.settled[1..] else e.settled;
    IndexAfterPush(kept, Settle(card, clean), id);
    if Backlog(|e.settled|).DropOldest? {
      IndexAfterShift(e.settled, id);
    }
  }

  lemma PushKeepsMark(e: EngineState, cfg: EngineConfig, event: SttEvent, nextId: string, id: string)
    requires Valid(e) && nextId !in e.issued && Marked(e, id)
    ensures Marked(Push(e, cfg, event, nextId).state, id)
  {
    if event.Committed? && Trim(event.text) != "" {
      if e.live.Some? {
        CommitKeepsMark(e, cfg, e.live.value, Trim(event.text), event.atMs, id);
      } else {
        var base := e.(issued := e.issued + {nextId});
        CommitKeepsMark(base, cfg, NewCard(nextId, event.atMs), Trim(event.text), event.atMs, id);
      }
    }
  }

  lemma ResultKeepsMark(e: EngineState, cfg: EngineConfig, cardId: string, lang: string, text: string, final: bool,
                        id: string)
    requires Valid(e) && Marked(e, id)
    ensures Marked(ApplyTranslation(e, cfg, cardId, lang, text, final).state, id)
  {
    if Holds(e, cardId) && !IsLive(e, cardId) {
      IndexAfterUpdate(e.settled, IndexOf(e.settled, cardId), Translated(CardOf(e, cardId), lang, text, final), id);
    }
  }

  /** Once a card has a final translation it never loses the mark, not even when it goes from live to settled, whatever
      events and translation results follow. */
  lemma {:induction false} FinalFlagStays(cfg: EngineConfig, inputs: seq<Input>, more: seq<Input>, id: string)
    requires FreshIds(cfg, inputs + more)
    requires Holds(Run(cfg, inputs).state, id) && CardOf(Run(cfg, inputs).state, id).trFinal
    ensures Marked(Run(cfg, inputs + more).state, id)
    decreases |more|
  {
    if more == [] {
      assert inputs + more == inputs;
      RunValid(cfg, inputs);
    } else {
      var before, last := inputs + more[..|more| - 1], more[|more| - 1];
      assert (inputs + more)[..|inputs + more| - 1] == before;
      FinalFlagStays(cfg, inputs, more[..|more| - 1], id);
      RunValid(cfg, before);
      match last {
        case Event(event, nextId) => PushKeepsMark(Run(cfg, before).state, cfg, event, nextId, id);
        case Result(cardId, lang, text, final) =>
          ResultKeepsMark(Run(cfg, before).state, cfg, cardId, lang, text, final, id);
      }
    }
  }
}
