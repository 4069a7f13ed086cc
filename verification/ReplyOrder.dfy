/** Exactly when it does not matter in which order and how late translation replies land: which neighbours in a run may
    trade places, and what that makes of whole runs. */
module ReplyOrder {
  import opened Text
  import opened Engine
  import opened Lifecycle

  function KeyOf(r: Input): (string, string)
    requires r.Result?
  {
    (r.cardId, r.lang)
  }

  /* The recognised speech and the committed replies of a run, each in order */

  function Speech(inputs: seq<Input>): (events: seq<Input>)
    ensures forall x | x in events :: x.Event?
  {
    if inputs == [] then []
    else
      var last := inputs[|inputs| - 1];
      Speech(inputs[..|inputs| - 1]) + if last.Event? then [last] else []
  }

  function Finals(inputs: seq<Input>): (results: seq<Input>)
    ensures forall r | r in results :: r.Result? && r.final
  {
    if inputs == [] then []
    else
      var last := inputs[|inputs| - 1];
      Finals(inputs[..|inputs| - 1]) + if last.Result? && last.final then [last] else []
  }

  function FinalKeys(inputs: seq<Input>): set<(string, string)> {
    set r | r in inputs && r.Result? && r.final :: KeyOf(r)
  }

  /** A speculative reply that the engine takes: it holds the card, and has no final translation of it. */
  predicate Takes(e: EngineState, r: Input) {
    r.Result? && !r.final && Holds(e, r.cardId) && !CardOf(e, r.cardId).trFinal
  }

  predicate TakenAt(cfg: EngineConfig, inputs: seq<Input>, i: nat)
    requires i < |inputs|
  {
    Takes(Run(cfg, inputs[..i]).state, inputs[i])
  }

  /** Every speculative reply taken for a card that is still held is also answered for good. */
  predicate AllAnswered(cfg: EngineConfig, inputs: seq<Input>) {
    forall i | 0 <= i < |inputs| && TakenAt(cfg, inputs, i) && Holds(Run(cfg, inputs).state, inputs[i].cardId) ::
      KeyOf(inputs[i]) in FinalKeys(inputs)
  }

  /** Replies name cards the engine has opened. */
  predicate NamesOpened(cfg: EngineConfig, inputs: seq<Input>) {
    inputs == [] || (
      var before, last := inputs[..|inputs| - 1], inputs[|inputs| - 1];
      NamesOpened(cfg, before) && (last.Result? ==> last.cardId in Run(cfg, before).state.issued))
  }

  function Reply(e: EngineState, cfg: EngineConfig, r: Input): EngineState
    requires r.Result?
  {
    ApplyTranslation(e, cfg, r.cardId, r.lang, r.text, r.final).state
  }

  function ReplyAll(e: EngineState, cfg: EngineConfig, results: seq<Input>): EngineState
    requires forall r | r in results :: r.Result?
  {
    if results == [] then e
    else Reply(ReplyAll(e, cfg, results[..|results| - 1]), cfg, results[|results| - 1])
  }

  /* A final reply and what is recognised next may trade places */

  lemma ReplyFrame(e: EngineState, cfg: EngineConfig, r: Input, id: string)
    requires r.Result?
    ensures var f := Reply(e, cfg, r);
            && f.issued == e.issued && |f.settled| == |e.settled| && f.live.Some? == e.live.Some?
            && IndexOf(f.settled, id) == IndexOf(e.settled, id) && IsLive(f, id) == IsLive(e, id)
  {
    if Holds(e, r.cardId) && !IsLive(e, r.cardId) {
      IndexAfterUpdate(e.settled, IndexOf(e.settled, r.cardId),
                       Translated(CardOf(e, r.cardId), r.lang, r.text, r.final), id);
    }
  }

  lemma CloseSwaps(e: EngineState, cfg: EngineConfig, r: Input, atMs: int)
    requires Valid(e) && r.Result? && r.final
    ensures CloseLive(Reply(e, cfg, r), atMs).state == Reply(CloseLive(e, atMs).state, cfg, r)
  {
  }

  /** What a final reply does to a card that is not live. */
  function RepliedTo(settled: seq<CardView>, r: Input): seq<CardView>
    requires r.Result?
  {
    var i := IndexOf(settled, r.cardId);
    if i == |settled| then settled else settled[i := Translated(settled[i], r.lang, r.text, r.final)]
  }

  function LiveReplied(card: LiveCard, r: Input): LiveCard
    requires r.Result?
  {
    card.(view := Translated(card.view, r.lang, r.text, r.final))
  }

  lemma ReplyMeaning(e: EngineState, cfg: EngineConfig, r: Input)
    requires r.Result? && r.final
    ensures Reply(e, cfg, r) == if IsLive(e, r.cardId) then e.(live := Some(LiveReplied(e.live.value, r)))
                                else e.(settled := RepliedTo(e.settled, r))
  {
  }

  lemma UpdateFrame(e: EngineState, cfg: EngineConfig, card: LiveCard, tokens: seq<string>, atMs: int,
                    settled: seq<CardView>)
    ensures UpdateLive(e.(settled := settled), cfg, card, tokens, atMs).state
         == UpdateLive(e, cfg, card, tokens, atMs).state.(settled := settled)
    ensures var f := UpdateLive(e, cfg, card, tokens, atMs).state;
            f.settled == e.settled && f.live.Some? && f.live.value.view.cardId == card.view.cardId
  {
  }

  lemma UpdateReplied(e: EngineState, cfg: EngineConfig, r: Input, card: LiveCard, tokens: seq<string>, atMs: int)
    requires r.Result? && r.final && card.view.cardId == r.cardId
    ensures UpdateLive(e.(live := Some(LiveReplied(card, r))), cfg, LiveReplied(card, r), tokens, atMs).state
         == var f := UpdateLive(e, cfg, card, tokens, atMs).state; f.(live := Some(LiveReplied(f.live.value, r)))
  {
  }

  lemma UpdateSwaps(e: EngineState, cfg: EngineConfig, r: Input, tokens: seq<string>, atMs: int)
    requires r.Result? && r.final && e.live.Some?
    ensures UpdateLive(Reply(e, cfg, r), cfg, Reply(e, cfg, r).live.value, tokens, atMs).state
         == Reply(UpdateLive(e, cfg, e.live.value, tokens, atMs).state, cfg, r)
  {
    var card := e.live.value;
    ReplyMeaning(e, cfg, r);
    ReplyMeaning(UpdateLive(e, cfg, card, tokens, atMs).state, cfg, r);
    UpdateFrame(e, cfg, card, tokens, atMs, RepliedTo(e.settled, r));
    if IsLive(e, r.cardId) {
      UpdateReplied(e, cfg, r, card, tokens, atMs);
    }
  }

  /** A card put on air by the event itself is not the one the reply names. */
  lemma OpenSwaps(e: EngineState, cfg: EngineConfig, r: Input, id: string, tokens: seq<string>, atMs: int)
    requires r.Result? && r.final && e.live.None? && r.cardId != id
    ensures UpdateLive(Reply(e, cfg, r).(issued := e.issued + {id}), cfg, NewCard(id, atMs), tokens, atMs).state
         == Reply(UpdateLive(e.(issued := e.issued + {id}), cfg, NewCard(id, atMs), tokens, atMs).state, cfg, r)
  {
    var base := e.(issued := e.issued + {id});
    ReplyMeaning(e, cfg, r);
    UpdateFrame(base, cfg, NewCard(id, atMs), tokens, atMs, RepliedTo(e.settled, r));
    ReplyMeaning(UpdateLive(base, cfg, NewCard(id, atMs), tokens, atMs).state, cfg, r);
  }

  function SettledAfter(settled: seq<CardView>, view: CardView): seq<CardView> {
    (if Backlog(|settled|).DropOldest? then settled[1..] else settled) + [view]
  }

  lemma CommittedIsLast(settled: seq<CardView>, view: CardView)
    requires DistinctCards(settled) && IndexOf(settled, view.cardId) == |settled|
    ensures IndexOf(SettledAfter(settled, view), view.cardId) == |SettledAfter(settled, view)| - 1
  {
    var kept := if Backlog(|settled|).DropOldest? then settled[1..] else settled;
    if Backlog(|settled|).DropOldest? {
      IndexAfterShift(settled, view.cardId);
    }
    IndexAfterPush(kept, view, view.cardId);
  }

  /** The card committed is the one the reply names, live when the reply comes first. */
  lemma CommitSwapsOwn(e: EngineState, cfg: EngineConfig, r: Input, clean: string, atMs: int)
    requires Valid(e) && r.Result? && r.final && e.live.Some? && e.live.value.view.cardId == r.cardId
    ensures CommitCard(Reply(e, cfg, r), cfg, Reply(e, cfg, r).live.value, clean, atMs).state
         == Reply(CommitCard(e, cfg, e.live.value, clean, atMs).state, cfg, r)
  {
    var view := Settle(e.live.value, clean);
    CommittedIsLast(e.settled, view);
    var now := SettledAfter(e.settled, view);
    var translated := Translated(view, r.lang, r.text, true);
    assert now[|now| - 1 := translated] == SettledAfter(e.settled, translated);
  }

  lemma RepliedAfterPush(settled: seq<CardView>, view: CardView, r: Input)
    requires r.Result? && view.cardId != r.cardId
    ensures RepliedTo(settled, r) + [view] == RepliedTo(settled + [view], r)
  {
    IndexAfterPush(settled, view, r.cardId);
  }

  lemma RepliedAfterShift(settled: seq<CardView>, r: Input)
    requires r.Result? && settled != [] && DistinctCards(settled)
    ensures RepliedTo(settled, r)[1..] == RepliedTo(settled[1..], r)
  {
    IndexAfterShift(settled, r.cardId);
  }

  lemma RepliedAfterCommit(settled: seq<CardView>, view: CardView, r: Input)
    requires DistinctCards(settled) && r.Result? && view.cardId != r.cardId
    ensures SettledAfter(RepliedTo(settled, r), view) == RepliedTo(SettledAfter(settled, view), r)
  {
    if Backlog(|settled|).DropOldest? {
      RepliedAfterShift(settled, r);
      RepliedAfterPush(settled[1..], view, r);
    } else {
      RepliedAfterPush(settled, view, r);
    }
  }

  lemma CommitFrame(e: EngineState, cfg: EngineConfig, card: LiveCard, clean: string, atMs: int, settled: seq<CardView>)
    requires |settled| == |e.settled|
    ensures CommitCard(e, cfg, card, clean, atMs).state.settled == SettledAfter(e.settled, Settle(card, clean))
    ensures CommitCard(e.(settled := settled), cfg, card, clean, atMs).state
         == CommitCard(e, cfg, card, clean, atMs).state.(settled := SettledAfter(settled, Settle(card, clean)))
  {
  }

  lemma CommitSwapsOther(e: EngineState, cfg: EngineConfig, r: Input, card: LiveCard, clean: string, atMs: int)
    requires Valid(e.(live := None)) && !IsSettled(e, card.view.cardId)
    requires r.Result? && r.final && card.view.cardId != r.cardId && !IsLive(e, r.cardId)
    ensures CommitCard(Reply(e, cfg, r), cfg, card, clean, atMs).state
         == Reply(CommitCard(e, cfg, card, clean, atMs).state, cfg, r)
  {
    ReplyMeaning(e, cfg, r);
    CommitFrame(e, cfg, card, clean, atMs, RepliedTo(e.settled, r));
    RepliedAfterCommit(e.settled, Settle(card, clean), r);
    ReplyMeaning(CommitCard(e, cfg, card, clean, atMs).state, cfg, r);
  }

  lemma EventSwaps(e: EngineState, cfg: EngineConfig, r: Input, x: Input)
    requires Valid(e) && x.Event? && x.nextId !in e.issued && r.Result? && r.final && r.cardId in e.issued
    ensures React(Reply(e, cfg, r), cfg, x).state == Reply(React(e, cfg, x).state, cfg, r)
  {
    ReplyFrame(e, cfg, r, r.cardId);
    var f := Reply(e, cfg, r);
    match x.event {
      case Partial(text, atMs) =>
        if e.live.Some? {
          UpdateSwaps(e, cfg, r, Tokenize(text), atMs);
        } else {
          OpenSwaps(e, cfg, r, x.nextId, Tokenize(text), atMs);
        }
      case Committed(text, atMs) =>
        var clean := Trim(text);
        if clean == "" {
          CloseSwaps(e, cfg, r, atMs);
        } else if e.live.None? {
          CommitSwapsOther(e.(issued := e.issued + {x.nextId}), cfg, r, NewCard(x.nextId, atMs), clean, atMs);
        } else if e.live.value.view.cardId == r.cardId {
          CommitSwapsOwn(e, cfg, r, clean, atMs);
        } else {
          CommitSwapsOther(e, cfg, r, e.live.value, clean, atMs);
        }
      case Silence(atMs) => CloseSwaps(e, cfg, r, atMs);
    }
  }

  lemma {:induction false} ReplyAllFrame(e: EngineState, cfg: EngineConfig, results: seq<Input>)
    requires Valid(e) && forall r | r in results :: r.Result?
    ensures var f := ReplyAll(e, cfg, results);
            Valid(f) && f.issued == e.issued && f.live.Some? == e.live.Some?
    decreases |results|
  {
    if results != [] {
      var front, r := results[..|results| - 1], results[|results| - 1];
      ReplyAllFrame(e, cfg, front);
      ApplyTranslationValid(ReplyAll(e, cfg, front), cfg, r.cardId, r.lang, r.text, r.final);
      ReplyFrame(ReplyAll(e, cfg, front), cfg, r, r.cardId);
    }
  }

  predicate FinalsOf(e: EngineState, results: seq<Input>) {
    forall r | r in results :: r.Result? && r.final && r.cardId in e.issued
  }

  /** An event may overtake any number of final replies. */
  lemma {:induction false} EventSwapsAll(e: EngineState, cfg: EngineConfig, results: seq<Input>, x: Input)
    requires Valid(e) && x.Event? && x.nextId !in e.issued && FinalsOf(e, results)
    ensures React(ReplyAll(e, cfg, results), cfg, x).state == ReplyAll(React(e, cfg, x).state, cfg, results)
    decreases |results|
  {
    if results != [] {
      var front, r := results[..|results| - 1], results[|results| - 1];
      EventSwapsAll(e, cfg, front, x);
      ReplyAllFrame(e, cfg, front);
      EventSwaps(ReplyAll(e, cfg, front), cfg, r, x);
    }
  }

  /* Speculative replies leave no trace */

  function TranslationIn(view: CardView, lang: string): Option<string> {
    if lang in view.tr then Some(view.tr[lang]) else None
  }

  /** The same card, but for its translations that are still open. */
  ghost predicate SameView(v: CardView, w: CardView, open: set<(string, string)>) {
    w == v.(tr := w.tr) && forall l :: (v.cardId, l) in open || TranslationIn(v, l) == TranslationIn(w, l)
  }

  ghost predicate SameViews(vs: seq<CardView>, ws: seq<CardView>, open: set<(string, string)>) {
    |vs| == |ws| && forall i | 0 <= i < |vs| :: SameView(vs[i], ws[i], open)
  }

  ghost predicate SameLive(a: Option<LiveCard>, b: Option<LiveCard>, open: set<(string, string)>) {
    && a.Some? == b.Some?
    && (a.Some? ==> b.value == a.value.(view := b.value.view) && SameView(a.value.view, b.value.view, open))
  }

  ghost predicate Same(e: EngineState, f: EngineState, open: set<(string, string)>) {
    f == e.(live := f.live, settled := f.settled) && SameLive(e.live, f.live, open)
      && SameViews(e.settled, f.settled, open)
  }

  lemma {:induction false} SameIndex(vs: seq<CardView>, ws: seq<CardView>, open: set<(string, string)>, id: string)
    requires SameViews(vs, ws, open)
    ensures IndexOf(vs, id) == IndexOf(ws, id)
    decreases |vs|
  {
    if vs != [] {
      assert SameView(vs[0], ws[0], open);
      assert forall i | 0 <= i < |vs[1..]| :: vs[1..][i] == vs[i + 1] && ws[1..][i] == ws[i + 1];
      SameIndex(vs[1..], ws[1..], open, id);
    }
  }

  lemma UpdateKeepsSame(e: EngineState, f: EngineState, cfg: EngineConfig, a: LiveCard, b: LiveCard,
                        tokens: seq<string>, atMs: int, open: set<(string, string)>)
    requires Same(e, f, open) && SameLive(Some(a), Some(b), open)
    ensures Same(UpdateLive(e, cfg, a, tokens, atMs).state, UpdateLive(f, cfg, b, tokens, atMs).state, open)
  {
    UpdateFrame(e, cfg, a, tokens, atMs, e.settled);
    UpdateFrame(f, cfg, b, tokens, atMs, f.settled);
  }

  lemma CommitKeepsSame(e: EngineState, f: EngineState, cfg: EngineConfig, a: LiveCard, b: LiveCard, clean: string,
                        atMs: int, open: set<(string, string)>)
    requires Same(e, f, open) && SameLive(Some(a), Some(b), open)
    ensures Same(CommitCard(e, cfg, a, clean, atMs).state, CommitCard(f, cfg, b, clean, atMs).state, open)
  {
  }

  lemma EventKeepsSame(e: EngineState, f: EngineState, cfg: EngineConfig, x: Input, open: set<(string, string)>)
    requires Same(e, f, open) && x.Event?
    ensures Same(React(e, cfg, x).state, React(f, cfg, x).state, open)
  {
    match x.event {
      case Partial(text, atMs) =>
        if e.live.Some? {
          UpdateKeepsSame(e, f, cfg, e.live.value, f.live.value, Tokenize(text), atMs, open);
        } else {
          var ids := e.issued + {x.nextId};
          UpdateKeepsSame(e.(issued := ids), f.(issued := ids), cfg, NewCard(x.nextId, atMs), NewCard(x.nextId, atMs),
                          Tokenize(text), atMs, open);
        }
      case Committed(text, atMs) =>
        if e.live.Some? {
          CommitKeepsSame(e, f, cfg, e.live.value, f.live.value, Trim(text), atMs, open);
        } else {
          var ids := e.issued + {x.nextId};
          CommitKeepsSame(e.(issued := ids), f.(issued := ids), cfg, NewCard(x.nextId, atMs), NewCard(x.nextId, atMs),
                          Trim(text), atMs, open);
        }
      case Silence(atMs) =>
    }
  }

  lemma RepliedViews(vs: seq<CardView>, ws: seq<CardView>, r: Input, open: set<(string, string)>)
    requires SameViews(vs, ws, open) && DistinctCards(vs) && r.Result? && r.final
    ensures SameViews(RepliedTo(vs, r), RepliedTo(ws, r), open - {KeyOf(r)})
  {
    SameIndex(vs, ws, open, r.cardId);
    var i := IndexOf(vs, r.cardId);
    forall j | 0 <= j < |vs| && j != i ensures vs[j].cardId != r.cardId && SameView(vs[j], ws[j], open - {KeyOf(r)}) {
      assert SameView(vs[j], ws[j], open);
    }
    if i < |vs| {
      assert SameView(vs[i], ws[i], open);
      RepliedView(vs[i], ws[i], r, open);
    }
  }

  lemma RepliedView(v: CardView, w: CardView, r: Input, open: set<(string, string)>)
    requires SameView(v, w, open) && r.Result? && r.final && v.cardId == r.cardId
    ensures SameView(Translated(v, r.lang, r.text, true), Translated(w, r.lang, r.text, true), open - {KeyOf(r)})
  {
  }

  /** A final reply settles its key: from then on both agree on it, or neither holds the card. */
  lemma FinalKeepsSame(e: EngineState, f: EngineState, cfg: EngineConfig, r: Input, open: set<(string, string)>)
    requires Same(e, f, open) && Valid(e) && r.Result? && r.final
    ensures Same(Reply(e, cfg, r), Reply(f, cfg, r), open - {KeyOf(r)})
  {
    ReplyMeaning(e, cfg, r);
    ReplyMeaning(f, cfg, r);
    RepliedViews(e.settled, f.settled, r, open);
    if IsLive(e, r.cardId) {
      SameIndex(e.settled, f.settled, open, r.cardId);
      RepliedView(e.live.value.view, f.live.value.view, r, open);
    }
  }

  /** A speculative one leaves at most its own translation open, and nothing once the card has a final one. */
  lemma SpeculativeKeepsSame(e: EngineState, f: EngineState, cfg: EngineConfig, r: Input, open: set<(string, string)>)
    requires Same(e, f, open) && r.Result? && !r.final
    ensures Same(Reply(e, cfg, r), f, open + {KeyOf(r)})
    ensures !Takes(e, r) ==> Reply(e, cfg, r) == e
  {
  }

  lemma SameViewIsEqual(v: CardView, w: CardView, open: set<(string, string)>)
    requires SameView(v, w, open) && forall l :: (v.cardId, l) !in open
    ensures v == w
  {
    forall l ensures (l in v.tr <==> l in w.tr) && (l in v.tr ==> v.tr[l] == w.tr[l]) {
      assert TranslationIn(v, l) == TranslationIn(w, l);
    }
    assert v.tr == w.tr;
  }

  lemma SameIsEqual(e: EngineState, f: EngineState, open: set<(string, string)>)
    requires Same(e, f, open) && forall k | k in open :: !Holds(e, k.0)
    ensures e == f
  {
    forall i | 0 <= i < |e.settled| ensures e.settled[i] == f.settled[i] {
      assert IsSettled(e, e.settled[i].cardId);
      NotOpen(e, e.settled[i].cardId, open);
      SameViewIsEqual(e.settled[i], f.settled[i], open);
    }
    if e.live.Some? {
      NotOpen(e, e.live.value.view.cardId, open);
      SameViewIsEqual(e.live.value.view, f.live.value.view, open);
    }
  }

  lemma NotOpen(e: EngineState, id: string, open: set<(string, string)>)
    requires Holds(e, id) && forall k | k in open :: !Holds(e, k.0)
    ensures forall l :: (id, l) !in open
  {
    forall l ensures (id, l) !in open {
      assert (id, l) in open ==> !Holds(e, (id, l).0);
    }
  }

  /* Whole runs */

  /** Cards and languages with a speculative translation that was taken, and no final one since. */
  function Open(cfg: EngineConfig, inputs: seq<Input>): set<(string, string)> {
    if inputs == [] then {}
    else
      var before, last := inputs[..|inputs| - 1], inputs[|inputs| - 1];
      if last.Event? then Open(cfg, before)
      else if last.final then Open(cfg, before) - {KeyOf(last)}
      else if Takes(Run(cfg, before).state, last) then Open(cfg, before) + {KeyOf(last)}
      else Open(cfg, before)
  }

  lemma {:induction false} OpenWasTaken(cfg: EngineConfig, inputs: seq<Input>, k: (string, string)) returns (i: nat)
    requires k in Open(cfg, inputs)
    ensures i < |inputs| && TakenAt(cfg, inputs, i) && KeyOf(inputs[i]) == k
    decreases |inputs|
  {
    var n := |inputs| - 1;
    if k in Open(cfg, inputs[..n]) {
      i := OpenWasTaken(cfg, inputs[..n], k);
      assert inputs[..n][..i] == inputs[..i];
    } else {
      i := n;
    }
  }

  lemma {:induction false} TakenIsOpen(cfg: EngineConfig, inputs: seq<Input>, i: nat)
    requires i < |inputs| && TakenAt(cfg, inputs, i) && KeyOf(inputs[i]) !in FinalKeys(inputs)
    ensures KeyOf(inputs[i]) in Open(cfg, inputs)
    decreases |inputs|
  {
    var n := |inputs| - 1;
    assert inputs[n] in inputs;
    if i < n {
      assert inputs[..n][..i] == inputs[..i];
      assert forall r | r in inputs[..n] :: r in inputs;
      TakenIsOpen(cfg, inputs[..n], i);
    }
  }

  /** Nothing is open for a card still held exactly when everything taken for such cards was answered. */
  lemma AnsweredIsClosed(cfg: EngineConfig, inputs: seq<Input>)
    requires forall k | k in Open(cfg, inputs) :: k !in FinalKeys(inputs)
    ensures AllAnswered(cfg, inputs) <==> forall k | k in Open(cfg, inputs) :: !Holds(Run(cfg, inputs).state, k.0)
  {
    forall k | k in Open(cfg, inputs) && AllAnswered(cfg, inputs) ensures !Holds(Run(cfg, inputs).state, k.0) {
      var i := OpenWasTaken(cfg, inputs, k);
    }
    forall i | 0 <= i < |inputs| && TakenAt(cfg, inputs, i) && KeyOf(inputs[i]) !in FinalKeys(inputs)
      ensures KeyOf(inputs[i]) in Open(cfg, inputs)
    {
      TakenIsOpen(cfg, inputs, i);
    }
  }

  /** Every card with a final reply is marked, as long as it is held. */
  predicate AllMarked(e: EngineState, inputs: seq<Input>) {
    forall r | r in inputs && r.Result? && r.final :: Marked(e, r.cardId)
  }

  lemma MarksNext(e: EngineState, cfg: EngineConfig, before: seq<Input>, last: Input)
    requires Valid(e) && AllMarked(e, before)
    requires if last.Event? then last.nextId !in e.issued else last.cardId in e.issued
    ensures AllMarked(React(e, cfg, last).state, before + [last])
  {
    forall r | r in before + [last] && r.Result? && r.final
      ensures Marked(React(e, cfg, last).state, r.cardId)
    {
      if r == last {
        ReplyMarks(e, cfg, last);
      } else {
        match last {
          case Event(event, nextId) => PushKeepsMark(e, cfg, event, nextId, r.cardId);
          case Result(cardId, lang, text, final) => ResultKeepsMark(e, cfg, cardId, lang, text, final, r.cardId);
        }
      }
    }
  }

  lemma ReplyMarks(e: EngineState, cfg: EngineConfig, r: Input)
    requires r.Result? && r.final && r.cardId in e.issued
    ensures Marked(Reply(e, cfg, r), r.cardId)
  {
    ReplyFrame(e, cfg, r, r.cardId);
  }

  /** `e` is where `g`, which heard only the speech, ends up once the final replies have landed too. */
  ghost predicate Normal(e: EngineState, g: EngineState, cfg: EngineConfig, finals: seq<Input>,
                         open: set<(string, string)>) {
    && g.issued == e.issued && FinalsOf(g, finals)
    && Same(e, ReplyAll(g, cfg, finals), open)
  }

  lemma EventKeepsNormal(e: EngineState, g: EngineState, cfg: EngineConfig, finals: seq<Input>,
                         open: set<(string, string)>, x: Input)
    requires Normal(e, g, cfg, finals, open) && Valid(g) && x.Event? && x.nextId !in e.issued
    ensures Normal(React(e, cfg, x).state, React(g, cfg, x).state, cfg, finals, open)
  {
    ReplyAllFrame(g, cfg, finals);
    EventKeepsSame(e, ReplyAll(g, cfg, finals), cfg, x, open);
    EventSwapsAll(g, cfg, finals, x);
    IssuedNext(e, g, cfg, x);
  }

  lemma IssuedNext(e: EngineState, g: EngineState, cfg: EngineConfig, x: Input)
    requires x.Event? && e.issued == g.issued && e.live.Some? == g.live.Some?
    ensures React(e, cfg, x).state.issued == React(g, cfg, x).state.issued
    ensures g.issued <= React(g, cfg, x).state.issued
  {
  }

  lemma FinalKeepsNormal(e: EngineState, g: EngineState, cfg: EngineConfig, finals: seq<Input>,
                         open: set<(string, string)>, r: Input)
    requires Normal(e, g, cfg, finals, open) && Valid(e) && Valid(g) && r.Result? && r.final && r.cardId in e.issued
    ensures Normal(Reply(e, cfg, r), g, cfg, finals + [r], open - {KeyOf(r)})
  {
    ReplyAllFrame(g, cfg, finals);
    FinalKeepsSame(e, ReplyAll(g, cfg, finals), cfg, r, open);
    ReplyFrame(e, cfg, r, r.cardId);
    assert (finals + [r])[..|finals|] == finals;
  }

  lemma SpeculativeKeepsNormal(e: EngineState, g: EngineState, cfg: EngineConfig, finals: seq<Input>,
                               open: set<(string, string)>, r: Input)
    requires Normal(e, g, cfg, finals, open) && r.Result? && !r.final
    ensures Normal(Reply(e, cfg, r), g, cfg, finals, if Takes(e, r) then open + {KeyOf(r)} else open)
  {
    SpeculativeKeepsSame(e, ReplyAll(g, cfg, finals), cfg, r, open);
    ReplyFrame(e, cfg, r, r.cardId);
  }

  ghost predicate RunNormal(cfg: EngineConfig, inputs: seq<Input>) {
    var e := Run(cfg, inputs).state;
    && FreshIds(cfg, Speech(inputs)) && AllMarked(e, inputs)
    && Normal(e, Run(cfg, Speech(inputs)).state, cfg, Finals(inputs), Open(cfg, inputs))
    && OpenIsUnanswered(cfg, inputs, e)
  }

  /** What is open has no final reply, and shows on its card for as long as that is held. */
  predicate OpenIsUnanswered(cfg: EngineConfig, inputs: seq<Input>, e: EngineState) {
    forall k | k in Open(cfg, inputs) :: k !in FinalKeys(inputs) && Has(e, k.0, k.1)
  }

  predicate Has(e: EngineState, id: string, lang: string) {
    id in e.issued && (Holds(e, id) ==> lang in CardOf(e, id).tr)
  }

  predicate Lacks(e: EngineState, id: string, lang: string) {
    Holds(e, id) ==> lang !in CardOf(e, id).tr
  }

  /** A recognised event adds no translation to a card and takes none away. */
  predicate KeepsTranslations(e: EngineState, f: EngineState, id: string) {
    Holds(f, id) ==>
      if id in e.issued then Holds(e, id) && CardOf(f, id).tr == CardOf(e, id).tr else CardOf(f, id).tr == map[]
  }

  lemma FoundAfterCommit(settled: seq<CardView>, view: CardView, id: string)
    requires DistinctCards(settled) && IndexOf(settled, view.cardId) == |settled|
    ensures var now := SettledAfter(settled, view);
            var i, j := IndexOf(now, id), IndexOf(settled, id);
            i < |now| ==> if id == view.cardId then now[i] == view else j < |settled| && now[i] == settled[j]
  {
    IndexAfterPush(if Backlog(|settled|).DropOldest? then settled[1..] else settled, view, id);
    if Backlog(|settled|).DropOldest? {
      IndexAfterShift(settled, id);
    }
  }

  lemma CommitKeepsTranslations(e: EngineState, base: EngineState, cfg: EngineConfig, card: LiveCard, clean: string,
                                atMs: int, id: string)
    requires Valid(e) && base.settled == e.settled && !IsSettled(e, card.view.cardId)
    requires if e.live.Some? then e.live.value == card else card.view.cardId !in e.issued && card.view.tr == map[]
    ensures KeepsTranslations(e, CommitCard(base, cfg, card, clean, atMs).state, id)
  {
    FoundAfterCommit(e.settled, Settle(card, clean), id);
    CommitFrame(base, cfg, card, clean, atMs, base.settled);
    assert CommitCard(base, cfg, card, clean, atMs).state.live.None?;
  }

  lemma UpdateKeepsTranslations(e: EngineState, base: EngineState, cfg: EngineConfig, card: LiveCard,
                                tokens: seq<string>, atMs: int, id: string)
    requires Valid(e) && base.settled == e.settled
    requires if e.live.Some? then e.live.value == card else card.view.cardId !in e.issued && card.view.tr == map[]
    ensures KeepsTranslations(e, UpdateLive(base, cfg, card, tokens, atMs).state, id)
  {
    UpdateFrame(base, cfg, card, tokens, atMs, base.settled);
  }

  lemma EventKeepsTranslations(e: EngineState, cfg: EngineConfig, x: Input, id: string)
    requires Valid(e) && x.Event? && x.nextId !in e.issued
    ensures KeepsTranslations(e, React(e, cfg, x).state, id)
  {
    var base := if e.live.Some? then e else e.(issued := e.issued + {x.nextId});
    match x.event {
      case Partial(text, atMs) =>
        var card := if e.live.Some? then e.live.value else NewCard(x.nextId, atMs);
        UpdateKeepsTranslations(e, base, cfg, card, Tokenize(text), atMs, id);
      case Committed(text, atMs) =>
        var card := if e.live.Some? then e.live.value else NewCard(x.nextId, atMs);
        CommitKeepsTranslations(e, base, cfg, card, Trim(text), atMs, id);
      case Silence(_) =>
    }
  }

  lemma ReplyAdds(e: EngineState, cfg: EngineConfig, r: Input, id: string)
    requires r.Result?
    ensures var f := Reply(e, cfg, r);
            && f.issued == e.issued && Holds(f, id) == Holds(e, id)
            && (Holds(e, id) ==> CardOf(f, id).tr == CardOf(e, id).tr
                                 || (id == r.cardId && CardOf(f, id).tr == CardOf(e, id).tr[r.lang := r.text]))
    ensures Takes(e, r) && r.cardId in e.issued ==> Has(Reply(e, cfg, r), r.cardId, r.lang)
  {
    ReplyFrame(e, cfg, r, id);
    ReplyFrame(e, cfg, r, r.cardId);
  }

  lemma OpenAfterEvent(cfg: EngineConfig, before: seq<Input>, e: EngineState, x: Input)
    requires OpenIsUnanswered(cfg, before, e) && Valid(e) && x.Event? && x.nextId !in e.issued
    ensures OpenIsUnanswered(cfg, before + [x], React(e, cfg, x).state)
  {
    assert (before + [x])[..|before|] == before;
    IssuedNext(e, e, cfg, x);
    forall k | k in Open(cfg, before) ensures Has(React(e, cfg, x).state, k.0, k.1) {
      EventKeepsTranslations(e, cfg, x, k.0);
    }
  }

  lemma OpenAfterReply(cfg: EngineConfig, before: seq<Input>, e: EngineState, r: Input)
    requires OpenIsUnanswered(cfg, before, e) && AllMarked(e, before) && e == Run(cfg, before).state
    requires r.Result? && r.cardId in e.issued
    ensures OpenIsUnanswered(cfg, before + [r], Reply(e, cfg, r))
  {
    assert (before + [r])[..|before|] == before;
    assert forall x :: x in before + [r] <==> x in before || x == r;
    forall k | k in Open(cfg, before + [r])
      ensures k !in FinalKeys(before + [r]) && Has(Reply(e, cfg, r), k.0, k.1)
    {
      ReplyAdds(e, cfg, r, k.0);
    }
  }

  lemma MoreSpeech(cfg: EngineConfig, before: seq<Input>, x: Input)
    requires FreshIds(cfg, before + [x]) && FreshIds(cfg, before) && RunNormal(cfg, before) && x.Event?
    ensures RunNormal(cfg, before + [x])
  {
    var e, g := Run(cfg, before).state, Run(cfg, Speech(before)).state;
    assert (before + [x])[..|before|] == before;
    RunValid(cfg, before);
    RunValid(cfg, Speech(before));
    MarksNext(e, cfg, before, x);
    OpenAfterEvent(cfg, before, e, x);
    assert Speech(before + [x])[..|Speech(before)|] == Speech(before);
    assert Finals(before + [x]) == Finals(before);
    EventKeepsNormal(e, g, cfg, Finals(before), Open(cfg, before), x);
  }

  lemma MoreReplies(cfg: EngineConfig, before: seq<Input>, r: Input)
    requires FreshIds(cfg, before) && RunNormal(cfg, before) && r.Result? && r.cardId in Run(cfg, before).state.issued
    ensures RunNormal(cfg, before + [r])
  {
    var e, g := Run(cfg, before).state, Run(cfg, Speech(before)).state;
    assert (before + [r])[..|before|] == before;
    RunValid(cfg, before);
    MarksNext(e, cfg, before, r);
    OpenAfterReply(cfg, before, e, r);
    assert Speech(before + [r]) == Speech(before);
    if r.final {
      RunValid(cfg, Speech(before));
      FinalKeepsNormal(e, g, cfg, Finals(before), Open(cfg, before), r);
    } else {
      assert Finals(before + [r]) == Finals(before);
      SpeculativeKeepsNormal(e, g, cfg, Finals(before), Open(cfg, before), r);
    }
  }

  lemma {:induction false} RunsAreNormal(cfg: EngineConfig, inputs: seq<Input>)
    requires FreshIds(cfg, inputs) && NamesOpened(cfg, inputs)
    ensures RunNormal(cfg, inputs)
    decreases |inputs|
  {
    if inputs != [] {
      var before, last := inputs[..|inputs| - 1], inputs[|inputs| - 1];
      RunsAreNormal(cfg, before);
      assert inputs == before + [last];
      if last.Event? {
        MoreSpeech(cfg, before, last);
      } else {
        MoreReplies(cfg, before, last);
      }
    }
  }

  /* The exact condition */

  lemma {:induction false} SpeechLacks(cfg: EngineConfig, events: seq<Input>, id: string, lang: string)
    requires FreshIds(cfg, events) && forall x | x in events :: x.Event?
    ensures Lacks(Run(cfg, events).state, id, lang)
    decreases |events|
  {
    if events != [] {
      var before, last := events[..|events| - 1], events[|events| - 1];
      SpeechLacks(cfg, before, id, lang);
      RunValid(cfg, before);
      EventKeepsTranslations(Run(cfg, before).state, cfg, last, id);
    }
  }

  lemma {:induction false} RepliesLack(e: EngineState, cfg: EngineConfig, results: seq<Input>, id: string, lang: string)
    requires Lacks(e, id, lang) && forall r | r in results :: r.Result? && KeyOf(r) != (id, lang)
    ensures Lacks(ReplyAll(e, cfg, results), id, lang)
    decreases |results|
  {
    if results != [] {
      var front, last := results[..|results| - 1], results[|results| - 1];
      RepliesLack(e, cfg, front, id, lang);
      ReplyAdds(ReplyAll(e, cfg, front), cfg, last, id);
    }
  }

  lemma {:induction false} FinalsAreInputs(inputs: seq<Input>)
    ensures forall r | r in Finals(inputs) :: KeyOf(r) in FinalKeys(inputs)
    decreases |inputs|
  {
    if inputs != [] {
      var before, last := inputs[..|inputs| - 1], inputs[|inputs| - 1];
      FinalsAreInputs(before);
      assert forall r | r in before :: r in inputs;
      assert last in inputs;
    }
  }

  /** A speculative translation that is still open shows on a card that, had the engine heard the speech first and then
      got the final replies, would not have it. */
  lemma OpenShows(cfg: EngineConfig, inputs: seq<Input>, k: (string, string))
    requires FreshIds(cfg, inputs) && NamesOpened(cfg, inputs)
    requires k in Open(cfg, inputs) && Holds(Run(cfg, inputs).state, k.0)
    ensures Run(cfg, inputs).state != ReplyAll(Run(cfg, Speech(inputs)).state, cfg, Finals(inputs))
  {
    RunsAreNormal(cfg, inputs);
    FinalsAreInputs(inputs);
    SpeechLacks(cfg, Speech(inputs), k.0, k.1);
    RepliesLack(Run(cfg, Speech(inputs)).state, cfg, Finals(inputs), k.0, k.1);
  }

  /** However replies and speech interleave, the engine ends where it would have had it heard all the speech first and
      then got only the final replies, if and only if every speculative reply it took for a card it still holds has been
      answered for good. */
  lemma RepliesCanWaitIff(cfg: EngineConfig, inputs: seq<Input>)
    requires FreshIds(cfg, inputs) && NamesOpened(cfg, inputs)
    ensures Run(cfg, inputs).state == ReplyAll(Run(cfg, Speech(inputs)).state, cfg, Finals(inputs))
            <==> AllAnswered(cfg, inputs)
  {
    RunsAreNormal(cfg, inputs);
    AnsweredIsClosed(cfg, inputs);
    if AllAnswered(cfg, inputs) {
      SameIsEqual(Run(cfg, inputs).state, ReplyAll(Run(cfg, Speech(inputs)).state, cfg, Finals(inputs)),
                  Open(cfg, inputs));
    } else {
      var k :| k in Open(cfg, inputs) && Holds(Run(cfg, inputs).state, k.0);
      OpenShows(cfg, inputs, k);
    }
  }

  /* Final replies trade places */

  predicate DistinctReplies(results: seq<Input>) {
    && (forall r | r in results :: r.Result? && r.final)
    && forall i, j | 0 <= i < j < |results| :: KeyOf(results[i]) != KeyOf(results[j])
  }

  lemma TranslatedTwice(view: CardView, a: Input, b: Input)
    requires a.Result? && b.Result? && a.final && b.final && a.lang != b.lang
    ensures Translated(Translated(view, a.lang, a.text, true), b.lang, b.text, true)
         == Translated(Translated(view, b.lang, b.text, true), a.lang, a.text, true)
  {
    assert view.tr[a.lang := a.text][b.lang := b.text] == view.tr[b.lang := b.text][a.lang := a.text];
  }

  lemma SettledSwap(settled: seq<CardView>, a: Input, b: Input)
    requires a.Result? && b.Result? && a.final && b.final && KeyOf(a) != KeyOf(b)
    ensures RepliedTo(RepliedTo(settled, a), b) == RepliedTo(RepliedTo(settled, b), a)
  {
    var i, j := IndexOf(settled, a.cardId), IndexOf(settled, b.cardId);
    if i < |settled| {
      IndexAfterUpdate(settled, i, Translated(settled[i], a.lang, a.text, true), b.cardId);
      if i == j {
        TranslatedTwice(settled[i], a, b);
      }
    }
    if j < |settled| {
      IndexAfterUpdate(settled, j, Translated(settled[j], b.lang, b.text, true), a.cardId);
    }
  }

  lemma RepliesSwap(e: EngineState, cfg: EngineConfig, a: Input, b: Input)
    requires a.Result? && b.Result? && a.final && b.final && KeyOf(a) != KeyOf(b)
    ensures Reply(Reply(e, cfg, a), cfg, b) == Reply(Reply(e, cfg, b), cfg, a)
  {
    ReplyMeaning(e, cfg, a);
    ReplyMeaning(e, cfg, b);
    ReplyMeaning(Reply(e, cfg, a), cfg, b);
    ReplyMeaning(Reply(e, cfg, b), cfg, a);
    if IsLive(e, a.cardId) && IsLive(e, b.cardId) {
      TranslatedTwice(e.live.value.view, a, b);
    } else {
      SettledSwap(e.settled, a, b);
    }
  }

  function WithoutAt(results: seq<Input>, k: nat): seq<Input>
    requires k < |results|
  {
    results[..k] + results[k + 1..]
  }

  lemma WithoutAtFront(results: seq<Input>, k: nat)
    requires k < |results| - 1
    ensures var front, last := results[..|results| - 1], results[|results| - 1];
            WithoutAt(results, k) == WithoutAt(front, k) + [last]
              && WithoutAt(results, k)[..|results| - 2] == WithoutAt(front, k)
  {
  }

  /** The reply at place `k` may as well have come last. */
  lemma {:induction false} ReplyLast(e: EngineState, cfg: EngineConfig, results: seq<Input>, k: nat)
    requires DistinctReplies(results) && k < |results|
    ensures ReplyAll(e, cfg, results) == Reply(ReplyAll(e, cfg, WithoutAt(results, k)), cfg, results[k])
    decreases |results|
  {
    var n := |results| - 1;
    if k == n {
      assert WithoutAt(results, k) == results[..n];
    } else {
      ReplyLast(e, cfg, results[..n], k);
      WithoutAtFront(results, k);
      RepliesSwap(ReplyAll(e, cfg, WithoutAt(results[..n], k)), cfg, results[k], results[n]);
    }
  }

  lemma WithoutOne(results: seq<Input>, k: nat)
    requires DistinctReplies(results) && k < |results|
    ensures DistinctReplies(WithoutAt(results, k))
    ensures multiset(WithoutAt(results, k)) == multiset(results) - multiset{results[k]}
  {
    assert forall i | 0 <= i < |WithoutAt(results, k)| ::
        WithoutAt(results, k)[i] == results[if i < k then i else i + 1];
    MultisetWithout(results, k);
  }

  lemma MultisetWithout(results: seq<Input>, k: nat)
    requires k < |results|
    ensures multiset(WithoutAt(results, k)) == multiset(results) - multiset{results[k]}
  {
    assert results == results[..k] + [results[k]] + results[k + 1..];
  }

  lemma PlaceOf(a: seq<Input>, b: seq<Input>) returns (k: nat)
    requires a != [] && multiset(a) == multiset(b)
    ensures k < |b| && b[k] == a[|a| - 1]
  {
    assert a[|a| - 1] in multiset(a);
    assert a[|a| - 1] in b;
    k :| k < |b| && b[k] == a[|a| - 1];
  }

  lemma {:induction false} RepliesInAnyOrder(e: EngineState, cfg: EngineConfig, a: seq<Input>, b: seq<Input>)
    requires DistinctReplies(a) && DistinctReplies(b) && multiset(a) == multiset(b)
    ensures ReplyAll(e, cfg, a) == ReplyAll(e, cfg, b)
    decreases |a|
  {
    if a == [] {
      assert |b| == |multiset(b)| == 0;
    } else {
      var n := |a| - 1;
      var k := PlaceOf(a, b);
      WithoutOne(a, n);
      WithoutOne(b, k);
      assert WithoutAt(a, n) == a[..n];
      ReplyLast(e, cfg, b, k);
      RepliesInAnyOrder(e, cfg, a[..n], WithoutAt(b, k));
    }
  }

  /** A speculative reply that is never answered is another matter: it survives if it lands before a final one for
      another language and is refused if it lands after, so the two trade places only if it says nothing new. */
  lemma SpeculationTradesIff(e: EngineState, cfg: EngineConfig, s: Input, f: Input)
    requires s.Result? && !s.final && f.Result? && f.final && f.cardId == s.cardId && f.lang != s.lang
    requires Holds(e, s.cardId) && !CardOf(e, s.cardId).trFinal
    ensures Reply(Reply(e, cfg, s), cfg, f) == Reply(Reply(e, cfg, f), cfg, s)
            <==> TranslationIn(CardOf(e, s.cardId), s.lang) == Some(s.text)
  {
    var view := CardOf(e, s.cardId);
    HeldAfter(e, cfg, s);
    HeldAfter(e, cfg, f);
    HeldAfter(Reply(e, cfg, s), cfg, f);
    var both := CardOf(Reply(Reply(e, cfg, s), cfg, f), s.cardId);
    assert TranslationIn(both, s.lang) == Some(s.text);
    if TranslationIn(view, s.lang) == Some(s.text) {
      assert view.tr[s.lang := s.text] == view.tr;
      assert Reply(e, cfg, s) == e;
    }
  }

  lemma HeldAfter(e: EngineState, cfg: EngineConfig, r: Input)
    requires r.Result? && Holds(e, r.cardId) && (CardOf(e, r.cardId).trFinal ==> r.final)
    ensures Holds(Reply(e, cfg, r), r.cardId)
    ensures CardOf(Reply(e, cfg, r), r.cardId) == Translated(CardOf(e, r.cardId), r.lang, r.text, r.final)
  {
    ReplyFrame(e, cfg, r, r.cardId);
  }

  /** Two sessions that hear the same speech and get the same final replies end in the same state, however the replies
      are ordered and timed, and whatever speculative ones each of them got on the way. */
  lemma ReplyOrderIsIrrelevant(cfg: EngineConfig, inputs: seq<Input>, others: seq<Input>)
    requires FreshIds(cfg, inputs) && NamesOpened(cfg, inputs) && AllAnswered(cfg, inputs)
    requires FreshIds(cfg, others) && NamesOpened(cfg, others) && AllAnswered(cfg, others)
    requires Speech(inputs) == Speech(others)
    requires DistinctReplies(Finals(inputs)) && DistinctReplies(Finals(others))
    requires multiset(Finals(inputs)) == multiset(Finals(others))
    ensures Run(cfg, inputs).state == Run(cfg, others).state
  {
    RepliesCanWaitIff(cfg, inputs);
    RepliesCanWaitIff(cfg, others);
    RepliesInAnyOrder(Run(cfg, Speech(inputs)).state, cfg, Finals(inputs), Finals(others));
  }
}
