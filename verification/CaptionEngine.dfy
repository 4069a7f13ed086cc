/** The caption engine as the object the relay drives: its fields are updated in place, turn by turn. */
module EngineObject {
  import opened Text
  import opened Stability
  import opened Translation
  import opened Engine

  class CaptionEngine {
    const cfg: EngineConfig
    const rewrites: RewriteTracker
    const context: ContextWindow

    var live: Option<LiveCard>
    var settled: seq<CardView>
    var pendingSpeech: Option<string>
    var cardsEmitted: nat
    var droppedCards: nat
    var translateRequests: nat
    ghost var issued: set<string>

    ghost predicate Consistent()
      reads this, rewrites, context
    {
      && rewrites.capacity == REWRITE_WINDOW && |rewrites.window| <= REWRITE_WINDOW
      && context.size == cfg.contextSentences
    }

    ghost function State(): EngineState
      reads this, rewrites, context
    {
      EngineState(live, settled, rewrites.window, context.sentences, pendingSpeech,
                  cardsEmitted, droppedCards, translateRequests, issued)
    }

    constructor (cfg: EngineConfig)
      ensures Consistent() && State() == INITIAL && this.cfg == cfg
      ensures fresh(rewrites) && fresh(context)
    {
      this.cfg := cfg;
      rewrites := new RewriteTracker();
      context := new ContextWindow(cfg.contextSentences);
      live, settled, pendingSpeech := None, [], None;
      cardsEmitted, droppedCards, translateRequests := 0, 0, 0;
      issued := {};
    }

    method Push(event: SttEvent, nextId: string) returns (ops: seq<CaptionOp>)
      requires Consistent()
      modifies this, rewrites, context
      ensures Consistent()
      ensures Turn(State(), ops) == Engine.Push(old(State()), cfg, event, nextId)
    {
      match event {
        case Partial(text, atMs) => ops := OnPartial(text, atMs, nextId);
        case Committed(text, atMs) => ops := OnCommitted(text, atMs, nextId);
        case Silence(atMs) => ops := CloseLive(atMs);
      }
    }

    method OnPartial(text: string, atMs: int, nextId: string) returns (ops: seq<CaptionOp>)
      requires Consistent()
      modifies this, rewrites
      ensures Consistent()
      ensures Turn(State(), ops) == Engine.OnPartial(old(State()), cfg, text, atMs, nextId)
    {
      var tokens := Tokenize(text);
      if |tokens| == 0 {
        return [];
      }
      ops := OpenIfNone(nextId, atMs);
      var card := if live.Some? then live.value else NewCard(nextId, atMs);
      var more := UpdateCard(card, tokens, atMs);
      assert ops == [] ==> ops + more == more;
      ops := ops + more;
    }

    /** Without a live card, the identifier of a new one is used up. */
    method OpenIfNone(nextId: string, atMs: int) returns (ops: seq<CaptionOp>)
      modifies this`issued
      ensures State() == if live.Some? then old(State()) else old(State()).(issued := old(issued) + {nextId})
      ensures ops == if live.Some? then [] else [CardOpen(nextId, atMs)]
    {
      if live.Some? {
        return [];
      }
      issued := issued + {nextId};
      ops := [CardOpen(nextId, atMs)];
    }

    method UpdateCard(card: LiveCard, tokens: seq<string>, atMs: int) returns (ops: seq<CaptionOp>)
      requires Consistent()
      modifies this, rewrites
      ensures Consistent()
      ensures Turn(State(), ops) == UpdateLive(old(State()), cfg, card, tokens, atMs)
    {
      var previous := if |card.history| == 0 then [] else card.history[|card.history| - 1];
      rewrites.Record(previous, tokens);
      var history := card.history + [tokens];
      if |history| > HISTORY_DEPTH {
        history := history[1..];
      }
      var rate := rewrites.Rate();
      var frames := AdaptiveFrames(cfg.stabilityFrames, rate, cfg.adaptiveRewriteThreshold);
      var stableTokens := StablePrefixTokens(history, frames, cfg.volatileTailTokens);
      var stableChars := StablePrefixChars(tokens, stableTokens);
      ops := ShowText(card.(history := history), Join(tokens), stableChars, atMs);
    }

    method ShowText(card: LiveCard, text: string, stableChars: nat, atMs: int) returns (ops: seq<CaptionOp>)
      modifies this`live, this`translateRequests
      ensures Turn(State(), ops) == ShowPartial(old(State()), cfg, card, text, stableChars, atMs)
    {
      var speculation := card.speculation;
      ops := [CardUpdate(card.view.cardId, text, stableChars)];
      if cfg.targetLangs != [] && stableChars > 0 {
        if ShouldTranslate(speculation, stableChars, atMs, cfg.speculativeGrowthChars, cfg.speculativeMinIntervalMs) {
          speculation := Speculation(stableChars, Some(atMs));
          translateRequests := translateRequests + 1;
          ops := ops + [TranslateRequest(card.view.cardId, text[..Min(stableChars, |text|)], context.sentences, true)];
        }
      }
      live := Some(LiveCard(card.view.(text := text, stable := stableChars), card.history, speculation));
    }

    method OnCommitted(text: string, atMs: int, nextId: string) returns (ops: seq<CaptionOp>)
      requires Consistent()
      modifies this, rewrites, context
      ensures Consistent()
      ensures Turn(State(), ops) == Engine.OnCommitted(old(State()), cfg, text, atMs, nextId)
    {
      var clean := Trim(text);
      if |clean| == 0 {
        ops := CloseLive(atMs);
        return;
      }
      ops := OpenIfNone(nextId, atMs);
      var card := if live.Some? then live.value else NewCard(nextId, atMs);
      var more := CommitSentence(card, clean, atMs);
      assert ops == [] ==> ops + more == more;
      ops := ops + more;
    }

    method CommitSentence(card: LiveCard, clean: string, atMs: int) returns (ops: seq<CaptionOp>)
      requires Consistent()
      modifies this, rewrites, context
      ensures Consistent()
      ensures Turn(State(), ops) == CommitCard(old(State()), cfg, card, clean, atMs)
    {
      ops := AnnounceCommit(card, clean);
      context.Push(clean);
      cardsEmitted := cardsEmitted + 1;
      var drop := DropOldestCard(atMs);
      ops := ops + drop;
      settled := settled + [card.view.(text := clean, stable := |clean|, state := Wire.Settled)];
      live := None;
      rewrites.Reset();
    }

    method AnnounceCommit(card: LiveCard, clean: string) returns (ops: seq<CaptionOp>)
      modifies this`translateRequests, this`pendingSpeech
      ensures pendingSpeech == SpeechAfter(old(pendingSpeech), cfg, clean)
      ensures translateRequests
              == old(translateRequests) + |RequestOps(context.sentences, cfg, card.view.cardId, clean)|
      ensures ops == [CommitOp(card, clean)] + RequestOps(context.sentences, cfg, card.view.cardId, clean)
                     + SpeechOps(old(pendingSpeech), cfg, card.view.cardId, clean)
    {
      var id := card.view.cardId;
      var rewritten := |card.view.text| > 0 && card.view.text != clean;
      ops := [if rewritten then CardRetract(id, clean) else CardCommit(id, clean)];
      if cfg.targetLangs != [] {
        translateRequests := translateRequests + 1;
        ops := ops + [TranslateRequest(id, clean, context.sentences, false)];
      }
      var speech := QueueSpeech(id, clean);
      ops := ops + speech;
    }

    /** Hands a sentence to the voice, or keeps it back while it is too short to be read out by itself. */
    method QueueSpeech(id: string, clean: string) returns (ops: seq<CaptionOp>)
      modifies this`pendingSpeech
      ensures pendingSpeech == SpeechAfter(old(pendingSpeech), cfg, clean)
      ensures ops == SpeechOps(old(pendingSpeech), cfg, id, clean)
    {
      ops := [];
      if cfg.voiceLang.Some? && cfg.voiceLang.value != "" {
        var merged := if pendingSpeech.Some? then pendingSpeech.value + " " + clean else clean;
        if |Tokenize(Trim(merged))| < cfg.minWordsForSpeech {
          pendingSpeech := Some(merged);
        } else {
          pendingSpeech := None;
          if cfg.targetLangs == [] {
            ops := [Speak(id, cfg.voiceLang.value, merged)];
          }
        }
      }
    }

    method DropOldestCard(atMs: int) returns (ops: seq<CaptionOp>)
      modifies this`settled, this`droppedCards
      ensures var drops := Backlog(|old(settled)|).DropOldest?;
              && settled == (if drops then old(settled)[1..] else old(settled))
              && droppedCards == old(droppedCards) + (if drops then 1 else 0)
      ensures ops == DropOps(old(settled), atMs)
    {
      ops := [];
      if Backlog(|settled|) == DropOldest {
        var dropped := settled[0];
        settled := settled[1..];
        droppedCards := droppedCards + 1;
        ops := [CardClose(dropped.cardId, atMs)];
      }
    }

    method CloseLive(atMs: int) returns (ops: seq<CaptionOp>)
      requires Consistent()
      modifies this, rewrites
      ensures Consistent()
      ensures Turn(State(), ops) == Engine.CloseLive(old(State()), atMs)
    {
      if live.None? {
        return [];
      }
      var cardId := live.value.view.cardId;
      live := None;
      rewrites.Reset();
      return [CardClose(cardId, atMs)];
    }

    /** Position of a settled card, or their number when there is none. */
    method FindSettled(cardId: string) returns (i: nat)
      ensures i == IndexOf(settled, cardId)
    {
      i := 0;
      while i < |settled| && settled[i].cardId != cardId
        invariant i <= |settled|
        invariant forall j | 0 <= j < i :: settled[j].cardId != cardId
      {
        i := i + 1;
      }
    }

    /** A card that has a final translation takes no guess any more. */
    method ApplyTranslation(cardId: string, lang: string, text: string, final: bool) returns (ops: seq<CaptionOp>)
      requires Consistent()
      modifies this`live, this`settled
      ensures Consistent()
      ensures Turn(State(), ops) == Engine.ApplyTranslation(old(State()), cfg, cardId, lang, text, final)
    {
      var isLive := live.Some? && live.value.view.cardId == cardId;
      var i := FindSettled(cardId);
      if !isLive && i == |settled| {
        return [];
      }
      var target := if isLive then live.value.view else settled[i];
      if target.trFinal && !final {
        return [];
      }
      target := target.(tr := target.tr[lang := text], trFinal := final);
      if isLive {
        live := Some(live.value.(view := target));
      } else {
        settled := settled[i := target];
      }
      ops := [CardTranslate(cardId, lang, text, final)];
      if final && cfg.voiceLang == Some(lang) {
        ops := ops + [Speak(cardId, lang, text)];
      }
    }

    /** Everything the engine holds, oldest first. */
    method Snapshot() returns (cards: seq<CardView>)
      ensures cards == Engine.Snapshot(State())
    {
      cards := settled;
      if live.Some? {
        cards := cards + [live.value.view];
      }
    }
  }
}
