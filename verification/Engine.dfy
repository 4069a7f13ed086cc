/** The caption engine: speech-to-text events in, caption operations out. */
module Engine {
  import opened Text
  import opened Stability
  import opened Translation
  import Wire

  datatype SttEvent =
    | Partial(text: string, atMs: int)
    | Committed(text: string, atMs: int)
    | Silence(atMs: int)

  datatype CaptionOp =
    | CardOpen(cardId: string, atMs: int)
    | CardUpdate(cardId: string, text: string, stable: nat)
    | CardCommit(cardId: string, text: string)
    | CardRetract(cardId: string, text: string)
    | CardTranslate(cardId: string, lang: string, text: string, final: bool)
    | CardClose(cardId: string, atMs: int)
    | TranslateRequest(cardId: string, text: string, context: seq<string>, speculative: bool)
    | Speak(cardId: string, lang: string, text: string)

  datatype EngineConfig = EngineConfig(
    stabilityFrames: int,
    volatileTailTokens: int,
    adaptiveRewriteThreshold: real,
    speculativeGrowthChars: int,
    speculativeMinIntervalMs: int,
    contextSentences: nat,
    targetLangs: seq<string>,
    voiceLang: Option<string>,
    minWordsForSpeech: int)

  datatype CardView = CardView(
    cardId: string, text: string, stable: nat, tr: map<string, string>, trFinal: bool, state: Wire.CardState, atMs: int)

  datatype LiveCard = LiveCard(view: CardView, history: seq<seq<string>>, speculation: Speculation)

  /** `issued` holds every identifier the injected generator has returned so far. */
  datatype EngineState = EngineState(
    live: Option<LiveCard>,
    settled: seq<CardView>,
    rewrites: seq<bool>,
    context: seq<string>,
    pendingSpeech: Option<string>,
    cardsEmitted: nat,
    droppedCards: nat,
    translateRequests: nat,
    issued: set<string>)

  datatype Turn = Turn(state: EngineState, ops: seq<CaptionOp>)

  const REWRITE_WINDOW: nat := 20
  const HISTORY_DEPTH: nat := 8

  const INITIAL := EngineState(None, [], [], [], None, 0, 0, 0, {})

  datatype BacklogAction = Show | Compress | DropOldest

  function Backlog(queueDepth: nat): BacklogAction {
    if queueDepth > 6 then DropOldest else if queueDepth > 3 then Compress else Show
  }

  function NewCard(id: string, atMs: int): LiveCard {
    LiveCard(CardView(id, "", 0, map[], false, Wire.Live, atMs), [], Speculation(0, None))
  }

  /* A partial hypothesis */

  function Remembered(history: seq<seq<string>>, tokens: seq<string>): (h: seq<seq<string>>)
    ensures h != [] && h[|h| - 1] == tokens
  {
    var longer := history + [tokens];
    if |longer| > HISTORY_DEPTH then longer[1..] else longer
  }

  function Newest(history: seq<seq<string>>): seq<string> {
    if history == [] then [] else history[|history| - 1]
  }

  function StableCount(cfg: EngineConfig, rewrites: seq<bool>, history: seq<seq<string>>): nat {
    var frames := AdaptiveFrames(cfg.stabilityFrames, RewriteRate(rewrites), cfg.adaptiveRewriteThreshold);
    StableTokens(history, frames, cfg.volatileTailTokens)
  }

  predicate Speculates(cfg: EngineConfig, card: LiveCard, stableChars: nat, atMs: int) {
    && cfg.targetLangs != [] && stableChars > 0
    && ShouldTranslate(card.speculation, stableChars, atMs, cfg.speculativeGrowthChars, cfg.speculativeMinIntervalMs)
  }

  function UpdateLive(e: EngineState, cfg: EngineConfig, card: LiveCard, tokens: seq<string>, atMs: int): Turn {
    var rewrites := Recorded(e.rewrites, REWRITE_WINDOW, Newest(card.history), tokens);
    var history := Remembered(card.history, tokens);
    var chars := StableChars(tokens, StableCount(cfg, rewrites, history));
    ShowPartial(e.(rewrites := rewrites), cfg, card.(history := history), Join(tokens), chars, atMs)
  }

  /** Text and stable count are known: update the card, and speculate when the stable prefix has grown enough. */
  function ShowPartial(e: EngineState, cfg: EngineConfig, card: LiveCard, text: string, chars: nat, atMs: int): Turn {
    var shown := card.(view := card.view.(text := text, stable := chars));
    var update := CardUpdate(card.view.cardId, text, chars);
    if Speculates(cfg, card, chars, atMs) then
      Turn(e.(live := Some(shown.(speculation := Speculation(chars, Some(atMs)))),
              translateRequests := e.translateRequests + 1),
           [update, TranslateRequest(card.view.cardId, text[..Min(chars, |text|)], e.context, true)])
    else
      Turn(e.(live := Some(shown)), [update])
  }

  function OnPartial(e: EngineState, cfg: EngineConfig, text: string, atMs: int, nextId: string): Turn {
    var tokens := Tokenize(text);
    if tokens == [] then Turn(e, [])
    else if e.live.Some? then UpdateLive(e, cfg, e.live.value, tokens, atMs)
    else
      var t := UpdateLive(e.(issued := e.issued + {nextId}), cfg, NewCard(nextId, atMs), tokens, atMs);
      Turn(t.state, [CardOpen(nextId, atMs)] + t.ops)
  }

  /* A committed sentence */

  predicate HasVoice(cfg: EngineConfig) {
    cfg.voiceLang.Some? && cfg.voiceLang.value != ""
  }

  function MergedSpeech(pending: Option<string>, clean: string): string {
    if pending.Some? then pending.value + " " + clean else clean
  }

  /** What is left over for the next sentence: everything so far, while it has too few words. */
  function SpeechAfter(pending: Option<string>, cfg: EngineConfig, clean: string): Option<string> {
    if !HasVoice(cfg) then pending
    else
      var merged := MergedSpeech(pending, clean);
      if |Tokenize(Trim(merged))| < cfg.minWordsForSpeech then Some(merged) else None
  }

  function SpeechOps(pending: Option<string>, cfg: EngineConfig, cardId: string, clean: string): seq<CaptionOp> {
    if HasVoice(cfg) && SpeechAfter(pending, cfg, clean).None? && cfg.targetLangs == [] then
      [Speak(cardId, cfg.voiceLang.value, MergedSpeech(pending, clean))]
    else []
  }

  function RequestOps(context: seq<string>, cfg: EngineConfig, cardId: string, clean: string): seq<CaptionOp> {
    if cfg.targetLangs == [] then [] else [TranslateRequest(cardId, clean, context, false)]
  }

  function DropOps(settled: seq<CardView>, atMs: int): seq<CaptionOp> {
    if Backlog(|settled|).DropOldest? then [CardClose(settled[0].cardId, atMs)] else []
  }

  function Settle(card: LiveCard, clean: string): CardView {
    card.view.(text := clean, stable := |clean|, state := Wire.Settled)
  }

  function CommitOp(card: LiveCard, clean: string): CaptionOp {
    if card.view.text != "" && card.view.text != clean then CardRetract(card.view.cardId, clean)
    else CardCommit(card.view.cardId, clean)
  }

  function CommitCard(e: EngineState, cfg: EngineConfig, card: LiveCard, clean: string, atMs: int): Turn {
    var id := card.view.cardId;
    var drops := Backlog(|e.settled|).DropOldest?;
    Turn(
      e.(live := None,
         settled := (if drops then e.settled[1..] else e.settled) + [Settle(card, clean)],
         rewrites := [],
         context := Pushed(e.context, cfg.contextSentences, clean),
         pendingSpeech := SpeechAfter(e.pendingSpeech, cfg, clean),
         cardsEmitted := e.cardsEmitted + 1,
         droppedCards := e.droppedCards + (if drops then 1 else 0),
         translateRequests := e.translateRequests + |RequestOps(e.context, cfg, id, clean)|),
      [CommitOp(card, clean)] + RequestOps(e.context, cfg, id, clean) + SpeechOps(e.pendingSpeech, cfg, id, clean)
        + DropOps(e.settled, atMs))
  }

  function CloseLive(e: EngineState, atMs: int): Turn {
    if e.live.None? then Turn(e, [])
    else Turn(e.(live := None, rewrites := []), [CardClose(e.live.value.view.cardId, atMs)])
  }

  function OnCommitted(e: EngineState, cfg: EngineConfig, text: string, atMs: int, nextId: string): Turn {
    var clean := Trim(text);
    if clean == "" then CloseLive(e, atMs)
    else if e.live.Some? then CommitCard(e, cfg, e.live.value, clean, atMs)
    else
      var t := CommitCard(e.(issued := e.issued + {nextId}), cfg, NewCard(nextId, atMs), clean, atMs);
      Turn(t.state, [CardOpen(nextId, atMs)] + t.ops)
  }

  /** `nextId` is what the identifier generator would return if it were called in this turn. */
  function Push(e: EngineState, cfg: EngineConfig, event: SttEvent, nextId: string): Turn {
    match event
    case Partial(text, atMs) => OnPartial(e, cfg, text, atMs, nextId)
    case Committed(text, atMs) => OnCommitted(e, cfg, text, atMs, nextId)
    case Silence(atMs) => CloseLive(e, atMs)
  }

  /* A translation result */

  function IndexOf(settled: seq<CardView>, cardId: string): (i: nat)
    ensures i <= |settled|
    ensures i < |settled| ==> settled[i].cardId == cardId
    ensures forall j | 0 <= j < i :: settled[j].cardId != cardId
  {
    if settled == [] || settled[0].cardId == cardId then 0 else 1 + IndexOf(settled[1..], cardId)
  }

  predicate IsLive(e: EngineState, cardId: string) {
    e.live.Some? && e.live.value.view.cardId == cardId
  }

  predicate IsSettled(e: EngineState, cardId: string) {
    IndexOf(e.settled, cardId) < |e.settled|
  }

  predicate Holds(e: EngineState, cardId: string) {
    IsLive(e, cardId) || IsSettled(e, cardId)
  }

  function CardOf(e: EngineState, cardId: string): (view: CardView)
    requires Holds(e, cardId)
    ensures view.cardId == cardId
  {
    if IsLive(e, cardId) then e.live.value.view else e.settled[IndexOf(e.settled, cardId)]
  }

  function Translated(view: CardView, lang: string, text: string, final: bool): CardView {
    view.(tr := view.tr[lang := text], trFinal := final)
  }

  function ApplyTranslation(e: EngineState, cfg: EngineConfig, cardId: string, lang: string, text: string, final: bool)
    : Turn
  {
    if !Holds(e, cardId) || (CardOf(e, cardId).trFinal && !final) then Turn(e, [])
    else
      var view := Translated(CardOf(e, cardId), lang, text, final);
      Turn(
        if IsLive(e, cardId) then e.(live := Some(e.live.value.(view := view)))
        else e.(settled := e.settled[IndexOf(e.settled, cardId) := view]),
        [CardTranslate(cardId, lang, text, final)]
        + if final && cfg.voiceLang == Some(lang) then [Speak(cardId, lang, text)] else [])
  }

  function Snapshot(e: EngineState): seq<CardView> {
    e.settled + if e.live.Some? then [e.live.value.view] else []
  }

  /* The invariant */

  predicate DistinctCards(cards: seq<CardView>) {
    forall i, j | 0 <= i < j < |cards| :: cards[i].cardId != cards[j].cardId
  }

  predicate Valid(e: EngineState) {
    && |e.settled| <= 7
    && DistinctCards(e.settled)
    && (forall i | 0 <= i < |e.settled| ::
          && e.settled[i].cardId in e.issued
          && e.settled[i].state == Wire.Settled
          && e.settled[i].stable == |e.settled[i].text|)
    && (e.live.Some? ==>
          && e.live.value.view.cardId in e.issued
          && e.live.value.view.state == Wire.Live
          && !IsSettled(e, e.live.value.view.cardId))
    && e.cardsEmitted == |e.settled| + e.droppedCards
  }

  lemma InitialValid()
    ensures Valid(INITIAL)
  {
  }

  lemma UpdateLiveValid(e: EngineState, cfg: EngineConfig, card: LiveCard, tokens: seq<string>, atMs: int)
    requires Valid(e.(live := None)) && card.view.cardId in e.issued && card.view.state == Wire.Live
    requires !IsSettled(e, card.view.cardId)
    ensures Valid(UpdateLive(e, cfg, card, tokens, atMs).state)
  {
  }

  lemma CommitCardValid(e: EngineState, cfg: EngineConfig, card: LiveCard, clean: string, atMs: int)
    requires Valid(e.(live := None)) && card.view.cardId in e.issued
    requires !IsSettled(e, card.view.cardId)
    ensures Valid(CommitCard(e, cfg, card, clean, atMs).state)
  {
  }

  /** Every turn keeps the invariant, whatever the event, as long as fresh identifiers are fresh. */
  lemma PushValid(e: EngineState, cfg: EngineConfig, event: SttEvent, nextId: string)
    requires Valid(e) && nextId !in e.issued
    ensures Valid(Push(e, cfg, event, nextId).state)
  {
    match event {
      case Partial(text, atMs) =>
        if e.live.Some? {
          UpdateLiveValid(e, cfg, e.live.value, Tokenize(text), atMs);
        } else {
          UpdateLiveValid(e.(issued := e.issued + {nextId}), cfg, NewCard(nextId, atMs), Tokenize(text), atMs);
        }
      case Committed(text, atMs) =>
        if e.live.Some? {
          CommitCardValid(e, cfg, e.live.value, Trim(text), atMs);
        } else {
          CommitCardValid(e.(issued := e.issued + {nextId}), cfg, NewCard(nextId, atMs), Trim(text), atMs);
        }
      case Silence(atMs) =>
    }
  }

  lemma ApplyTranslationValid(e: EngineState, cfg: EngineConfig, cardId: string, lang: string, text: string,
                              final: bool)
    requires Valid(e)
    ensures Valid(ApplyTranslation(e, cfg, cardId, lang, text, final).state)
  {
  }

  /* Looking a card up after the settled list changes */

  lemma {:induction false} IndexAfterPush(settled: seq<CardView>, card: CardView, id: string)
    ensures IndexOf(settled + [card], id)
         == IndexOf(settled, id) + if IndexOf(settled, id) < |settled| || card.cardId == id then 0 else 1
  {
    if settled == [] {
      assert settled + [card] == [card];
    } else {
      assert (settled + [card])[1..] == settled[1..] + [card];
      IndexAfterPush(settled[1..], card, id);
    }
  }

  lemma IndexAfterShift(settled: seq<CardView>, id: string)
    requires settled != [] && DistinctCards(settled)
    ensures IndexOf(settled[1..], id) == if id == settled[0].cardId then |settled| - 1 else IndexOf(settled, id) - 1
  {
    if id == settled[0].cardId {
      assert forall j | 0 <= j < |settled[1..]| :: settled[1..][j].cardId == settled[j + 1].cardId != id;
    }
  }

  lemma IndexAfterUpdate(settled: seq<CardView>, i: nat, view: CardView, id: string)
    requires i < |settled| && view.cardId == settled[i].cardId
    ensures IndexOf(settled[i := view], id) == IndexOf(settled, id)
  {
    var a, b := IndexOf(settled, id), IndexOf(settled[i := view], id);
    assert forall j | 0 <= j < |settled| :: settled[i := view][j].cardId == settled[j].cardId;
  }
}
