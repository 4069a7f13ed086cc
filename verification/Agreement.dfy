/** A projector that has received everything, and the engine. */
module Agreement {
  import opened Text
  import opened Wire
  import opened Engine
  import opened CaptionStore
  import opened Relay

  /** No translation yet, and an empty translation map, are the same thing on screen. */
  function Shown(tr: Option<map<string, string>>): map<string, string> {
    if tr.Some? then tr.value else map[]
  }

  predicate SameCard(c: ProjectorCard, v: CardView) {
    c.text == v.text && c.stable == v.stable && c.state == v.state && Shown(c.tr) == v.tr
  }

  predicate CardAgrees(e: EngineState, c: ProjectorCard) {
    c.cardId in e.issued && (Holds(e, c.cardId) ==> SameCard(c, CardOf(e, c.cardId)))
  }

  predicate DistinctIds(cards: seq<ProjectorCard>) {
    forall i, j | 0 <= i < j < |cards| :: cards[i].cardId != cards[j].cardId
  }

  predicate Shows(cards: seq<ProjectorCard>, id: string) {
    FindIndex(cards, id) < |cards|
  }

  /** The live card is shown, and only settled cards come after it. */
  predicate LiveShown(e: EngineState, cards: seq<ProjectorCard>) {
    e.live.Some? ==>
      var i := FindIndex(cards, e.live.value.view.cardId);
      i < |cards| && forall j | i < j < |cards| :: IsSettled(e, cards[j].cardId)
  }

  predicate Agrees(e: EngineState, p: ProjectorState, seqNo: nat) {
    && |p.cards| <= MAX_CARDS && DistinctIds(p.cards)
    && p.lastSeq <= seqNo
    && (forall c | c in p.cards :: CardAgrees(e, c))
    && LiveShown(e, p.cards)
  }

  /* A message about one card */

  function Current(cards: seq<ProjectorCard>, id: string): (c: ProjectorCard)
    ensures c.cardId == id
  {
    if Shows(cards, id) then cards[FindIndex(cards, id)] else Blank(id)
  }

  lemma FindUnique(cards: seq<ProjectorCard>, i: nat)
    requires DistinctIds(cards) && i < |cards|
    ensures FindIndex(cards, cards[i].cardId) == i
  {
  }

  predicate Bounded(cards: seq<ProjectorCard>) {
    |cards| <= MAX_CARDS && DistinctIds(cards)
  }

  /** Every card of `now` is the new one, or an old one under another identifier. */
  predicate ComesFrom(now: seq<ProjectorCard>, before: seq<ProjectorCard>, next: ProjectorCard) {
    forall c | c in now :: (c in before && c.cardId != next.cardId) || c == next
  }

  lemma ReplaceShape(cards: seq<ProjectorCard>, i: nat, next: ProjectorCard)
    requires Bounded(cards) && i < |cards| && cards[i].cardId == next.cardId
    ensures Bounded(cards[i := next]) && ComesFrom(cards[i := next], cards, next)
  {
    var now := cards[i := next];
    assert forall j | 0 <= j < |now| && j != i :: now[j] == cards[j] && cards[j] in cards;
  }

  lemma AppendShape(cards: seq<ProjectorCard>, next: ProjectorCard)
    requires Bounded(cards) && !Shows(cards, next.cardId)
    ensures Bounded(Recent(cards + [next])) && ComesFrom(Recent(cards + [next]), cards, next)
  {
    assert forall c | c in Recent(cards + [next]) :: c in cards + [next];
    assert forall j | 0 <= j < |cards| :: cards[j].cardId != next.cardId;
  }

  lemma WithCardShape(p: ProjectorState, n: nat, m: Event)
    requires NamesCard(m) && Bounded(p.cards)
    ensures var q := WithCard(p, n, m);
            Bounded(q.cards) && q.lastSeq == n && ComesFrom(q.cards, p.cards, Updated(Current(p.cards, m.cardId), m))
  {
    var i := FindIndex(p.cards, m.cardId);
    var next := Updated(Current(p.cards, m.cardId), m);
    if i < |p.cards| {
      ReplaceShape(p.cards, i, next);
    } else {
      AppendShape(p.cards, next);
    }
  }

  /** A message touches only its own card. */
  lemma WithCardKeeps(e: EngineState, p: ProjectorState, n: nat, m: Event)
    requires NamesCard(m)
    requires |p.cards| <= MAX_CARDS && DistinctIds(p.cards)
    requires forall c | c in p.cards && c.cardId != m.cardId :: CardAgrees(e, c)
    requires CardAgrees(e, Updated(Current(p.cards, m.cardId), m))
    ensures var q := WithCard(p, n, m);
            && |q.cards| <= MAX_CARDS && DistinctIds(q.cards) && q.lastSeq == n
            && forall c | c in q.cards :: CardAgrees(e, c)
  {
    WithCardShape(p, n, m);
  }

  /** Cards other than `id` are held as before or no longer held. */
  ghost predicate OthersKept(e: EngineState, f: EngineState, id: string) {
    && e.issued <= f.issued
    && forall x | x != id && Holds(f, x) :: Holds(e, x) && CardOf(f, x) == CardOf(e, x)
  }

  lemma OthersAgree(e: EngineState, f: EngineState, cards: seq<ProjectorCard>, id: string)
    requires forall c | c in cards :: CardAgrees(e, c)
    requires OthersKept(e, f, id)
    ensures forall c | c in cards && c.cardId != id :: CardAgrees(f, c)
  {
  }

  /* The live card stays on screen */

  lemma {:induction false} Pigeonhole(cards: seq<ProjectorCard>, settled: seq<CardView>)
    requires DistinctIds(cards)
    requires forall j | 0 <= j < |cards| :: IndexOf(settled, cards[j].cardId) < |settled|
    ensures |cards| <= |settled|
  {
    if cards != [] {
      var n := |cards| - 1;
      var k := IndexOf(settled, cards[n].cardId);
      var rest := settled[..k] + settled[k + 1..];
      forall j | 0 <= j < n
        ensures IndexOf(rest, cards[..n][j].cardId) < |rest|
      {
        var i := IndexOf(settled, cards[j].cardId);
        assert i != k;
        assert rest[if i < k then i else i - 1] == settled[i];
      }
      Pigeonhole(cards[..n], rest);
    }
  }

  /** At most seven settled cards can follow the live one, so a list of eight starts with something else. */
  lemma RoomBeforeLive(e: EngineState, cards: seq<ProjectorCard>, i: nat, next: ProjectorCard)
    requires |e.settled| <= 7 && i < |cards| <= MAX_CARDS && DistinctIds(cards)
    requires forall j | i < j < |cards| :: IsSettled(e, cards[j].cardId)
    requires IsSettled(e, next.cardId) && !Shows(cards, next.cardId)
    ensures |cards| == MAX_CARDS ==> i > 0
  {
    Pigeonhole(cards[i + 1..] + [next], e.settled);
  }

  lemma {:induction false} FindInSuffix(cards: seq<ProjectorCard>, drop: nat, id: string)
    requires drop <= FindIndex(cards, id)
    ensures FindIndex(cards[drop..], id) == FindIndex(cards, id) - drop
  {
    if drop == 0 {
      assert cards[0..] == cards;
    } else {
      assert cards[1..][drop - 1..] == cards[drop..];
      FindInSuffix(cards[1..], drop - 1, id);
    }
  }

  lemma {:induction false} FindAppended(cards: seq<ProjectorCard>, next: ProjectorCard, id: string)
    ensures FindIndex(cards + [next], id)
         == FindIndex(cards, id) + if Shows(cards, id) || next.cardId == id then 0 else 1
  {
    if cards == [] {
      assert cards + [next] == [next];
    } else {
      assert (cards + [next])[1..] == cards[1..] + [next];
      FindAppended(cards[1..], next, id);
    }
  }

  lemma AppendShowsLive(e: EngineState, cards: seq<ProjectorCard>, next: ProjectorCard)
    requires e.live.Some? && LiveShown(e, cards) && IsSettled(e, next.cardId)
    ensures LiveShown(e, cards + [next])
    ensures FindIndex(cards + [next], e.live.value.view.cardId) == FindIndex(cards, e.live.value.view.cardId)
  {
    FindAppended(cards, next, e.live.value.view.cardId);
  }

  lemma SuffixShowsLive(e: EngineState, cards: seq<ProjectorCard>, drop: nat)
    requires e.live.Some? && LiveShown(e, cards) && drop <= FindIndex(cards, e.live.value.view.cardId)
    ensures LiveShown(e, cards[drop..])
  {
    FindInSuffix(cards, drop, e.live.value.view.cardId);
    assert forall j | 0 <= j < |cards[drop..]| :: cards[drop..][j] == cards[j + drop];
  }

  /** Appending a settled card that is not shown never pushes the live card out. */
  lemma AppendKeepsLive(e: EngineState, cards: seq<ProjectorCard>, next: ProjectorCard)
    requires |e.settled| <= 7 && LiveShown(e, cards)
    requires |cards| <= MAX_CARDS && DistinctIds(cards)
    requires IsSettled(e, next.cardId) && !Shows(cards, next.cardId)
    ensures LiveShown(e, Recent(cards + [next]))
  {
    if e.live.Some? {
      RoomBeforeLive(e, cards, FindIndex(cards, e.live.value.view.cardId), next);
      AppendShowsLive(e, cards, next);
      SuffixShowsLive(e, cards + [next], Max(0, |cards| + 1 - MAX_CARDS));
    }
  }

  /* The turns of the engine */

  lemma FindKept(cards: seq<ProjectorCard>, i: nat, c: ProjectorCard, id: string)
    requires i < |cards| && c.cardId == cards[i].cardId
    ensures FindIndex(cards[i := c], id) == FindIndex(cards, id)
  {
    var a, b := FindIndex(cards, id), FindIndex(cards[i := c], id);
    assert forall j | 0 <= j < |cards| :: cards[i := c][j].cardId == cards[j].cardId;
  }

  lemma AppendedLast(cards: seq<ProjectorCard>, next: ProjectorCard)
    requires !Shows(cards, next.cardId)
    ensures FindIndex(Recent(cards + [next]), next.cardId) == |Recent(cards + [next])| - 1
  {
    FindAppended(cards, next, next.cardId);
    FindInSuffix(cards + [next], |cards| + 1 - |Recent(cards + [next])|, next.cardId);
  }

  /** The turn showed new text of the live card; `card` is that card before the turn, or a fresh one. */
  lemma UpdateAgrees(e: EngineState, f: EngineState, card: CardView, p: ProjectorState, n: nat, m: Event)
    requires m.Partial? && m.tr == None && n > 0 && Agrees(e, p, n - 1)
    requires card.cardId == m.cardId && card.cardId in f.issued && card.state == Live
    requires f.live.Some? && f.live.value.view == card.(text := m.text, stable := m.stable)
    requires f.settled == e.settled && e.issued <= f.issued
    requires if e.live.Some? then e.live.value.view == card
             else card.tr == map[] && !Shows(p.cards, card.cardId)
    ensures Agrees(f, WithCard(p, n, m), n)
  {
    var id := card.cardId;
    OthersAgree(e, f, p.cards, id);
    var i := FindIndex(p.cards, id);
    assert i < |p.cards| ==> p.cards[i] in p.cards;
    WithCardKeeps(f, p, n, m);
    if i < |p.cards| {
      FindKept(p.cards, i, Updated(p.cards[i], m), id);
    } else {
      AppendedLast(p.cards, Updated(Blank(id), m));
    }
  }

  /** The turn committed a sentence: the card moves from live (or fresh) to the end of the settled list. */
  lemma CommitAgrees(e: EngineState, f: EngineState, card: CardView, p: ProjectorState, n: nat, m: Event)
    requires (m.Commit? || m.Retract?) && m.tr == None && n > 0 && Agrees(e, p, n - 1)
    requires card.cardId == m.cardId && card.cardId in f.issued && !IsSettled(e, card.cardId)
    requires f.live.None? && e.issued <= f.issued
    requires f.settled == e.settled + [card.(text := m.text, stable := |m.text|, state := Settled)]
    requires if e.live.Some? then e.live.value.view == card
             else card.tr == map[] && !Shows(p.cards, card.cardId)
    ensures Agrees(f, WithCard(p, n, m), n)
  {
    forall x
      ensures IndexOf(f.settled, x)
           == IndexOf(e.settled, x) + if IndexOf(e.settled, x) < |e.settled| || x == card.cardId then 0 else 1
    {
      IndexAfterPush(e.settled, f.settled[|e.settled|], x);
    }
    OthersAgree(e, f, p.cards, card.cardId);
    var i := FindIndex(p.cards, card.cardId);
    assert i < |p.cards| ==> p.cards[i] in p.cards;
    WithCardKeeps(f, p, n, m);
  }

  /** The turn closed a card that the engine no longer holds. */
  lemma EndAgrees(e: EngineState, f: EngineState, p: ProjectorState, n: nat, m: Event)
    requires m.CardEnd? && n > 0 && Agrees(e, p, n - 1)
    requires m.cardId in f.issued && !Holds(f, m.cardId) && f.live.None?
    requires OthersKept(e, f, m.cardId)
    ensures Agrees(f, WithCard(p, n, m), n)
  {
    OthersAgree(e, f, p.cards, m.cardId);
    WithCardKeeps(f, p, n, m);
  }

  lemma DropKeepsOthers(e: EngineState, f: EngineState)
    requires e.settled != [] && DistinctCards(e.settled)
    requires e.live.None? && f.live.None? && f.settled == e.settled[1..] && e.issued <= f.issued
    ensures OthersKept(e, f, e.settled[0].cardId) && !Holds(f, e.settled[0].cardId)
  {
    IndexAfterShift(e.settled, e.settled[0].cardId);
    forall x | x != e.settled[0].cardId && Holds(f, x)
      ensures Holds(e, x) && CardOf(f, x) == CardOf(e, x)
    {
      IndexAfterShift(e.settled, x);
    }
  }

  /** The turn applied a translation: the whole card is restated. */
  lemma TranslationAgrees(e: EngineState, f: EngineState, view: CardView, p: ProjectorState, n: nat, m: Event)
    requires Valid(f) && m == Restated(view) && n > 0 && Agrees(e, p, n - 1)
    requires Holds(f, view.cardId) && CardOf(f, view.cardId) == view && view.tr != map[]
    requires OthersKept(e, f, view.cardId) && e.issued == f.issued
    requires forall x :: IsSettled(e, x) == IsSettled(f, x) && IsLive(e, x) == IsLive(f, x)
    requires e.live.Some? == f.live.Some? && (e.live.Some? ==> e.live.value.view.cardId == f.live.value.view.cardId)
    ensures Agrees(f, WithCard(p, n, m), n)
  {
    var id := view.cardId;
    OthersAgree(e, f, p.cards, id);
    HeldState(f, id);
    WithCardKeeps(f, p, n, m);
    var i := FindIndex(p.cards, id);
    assert LiveShown(f, p.cards);
    if i < |p.cards| {
      if f.live.Some? {
        FindKept(p.cards, i, Updated(p.cards[i], m), f.live.value.view.cardId);
      }
    } else if f.live.Some? {
      AppendKeepsLive(f, p.cards, Updated(Blank(id), m));
    }
  }

  lemma HeldState(e: EngineState, id: string)
    requires Valid(e) && Holds(e, id)
    ensures id in e.issued
    ensures CardOf(e, id).state == if IsLive(e, id) then Live else Settled
    ensures !IsLive(e, id) ==> CardOf(e, id).stable == |CardOf(e, id).text|
  {
  }

  lemma SnapshotIsHeld(e: EngineState, i: nat)
    requires Valid(e) && i < |Engine.Snapshot(e)|
    ensures var view := Engine.Snapshot(e)[i];
            Holds(e, view.cardId) && CardOf(e, view.cardId) == view && view.cardId in e.issued
  {
    if i < |e.settled| {
      assert IndexOf(e.settled, e.settled[i].cardId) == i;
    }
  }

  lemma SnapshotIsDistinct(e: EngineState)
    requires Valid(e)
    ensures DistinctCards(Engine.Snapshot(e)) && |Engine.Snapshot(e)| <= MAX_CARDS
  {
  }

  predicate Mirrors(cards: seq<ProjectorCard>, views: seq<CardView>) {
    |cards| == |views| && forall i | 0 <= i < |views| :: cards[i] == Received(ToCaptionCard(views[i]))
  }

  lemma SnapshotMirrors(e: EngineState, p: ProjectorState, n: nat, m: Event)
    requires Valid(e) && m.Snapshot? && m.cards == ToCaptionCards(Engine.Snapshot(e))
    ensures var q := ApplyRelayMessage(p, Sequenced(n, m));
            Mirrors(q.cards, Engine.Snapshot(e)) && q.lastSeq == n
  {
    SnapshotIsDistinct(e);
    assert Recent(m.cards) == m.cards;
  }

  lemma MirrorAgrees(e: EngineState, cards: seq<ProjectorCard>, i: nat)
    requires Valid(e) && Mirrors(cards, Engine.Snapshot(e)) && i < |cards|
    ensures CardAgrees(e, cards[i])
  {
    SnapshotIsHeld(e, i);
  }

  lemma MirrorShowsLive(e: EngineState, cards: seq<ProjectorCard>)
    requires Valid(e) && Mirrors(cards, Engine.Snapshot(e)) && DistinctIds(cards)
    ensures LiveShown(e, cards)
  {
    if e.live.Some? {
      FindUnique(cards, |e.settled|);
    }
  }

  /** A snapshot puts a projector in agreement whatever it showed before. */
  lemma SnapshotAgrees(e: EngineState, p: ProjectorState, n: nat, m: Event)
    requires Valid(e) && m.Snapshot? && m.cards == ToCaptionCards(Engine.Snapshot(e))
    ensures Agrees(e, ApplyRelayMessage(p, Sequenced(n, m)), n)
  {
    var cards := ApplyRelayMessage(p, Sequenced(n, m)).cards;
    SnapshotMirrors(e, p, n, m);
    SnapshotIsDistinct(e);
    MirrorShowsLive(e, cards);
    forall i | 0 <= i < |cards| ensures CardAgrees(e, cards[i]) {
      MirrorAgrees(e, cards, i);
    }
  }

  /* What a projector does not mirror */

  /** The exact condition for a translation to leave projector and engine with the same final mark: it is final and the
      card is settled, or neither. A speculative result for a settled card looks final, a final one for a live card does
      not. */
  lemma FlagAgreesIff(e: EngineState, cfg: EngineConfig, cardId: string, lang: string, text: string, final: bool,
                      p: ProjectorState, n: nat)
    requires Valid(e) && Holds(e, cardId) && (CardOf(e, cardId).trFinal ==> final)
    ensures var f := ApplyTranslation(e, cfg, cardId, lang, text, final).state;
            Holds(f, cardId)
            && (Updated(Current(p.cards, cardId), Restated(CardOf(f, cardId))).trFinal == CardOf(f, cardId).trFinal
                <==> final == !IsLive(e, cardId))
  {
    var f := ApplyTranslation(e, cfg, cardId, lang, text, final).state;
    ApplyTranslationValid(e, cfg, cardId, lang, text, final);
    HeldState(e, cardId);
    if !IsLive(e, cardId) {
      IndexAfterUpdate(e.settled, IndexOf(e.settled, cardId), Translated(CardOf(e, cardId), lang, text, final), cardId);
    }
    HeldState(f, cardId);
    assert lang in CardOf(f, cardId).tr;
  }

  /** The card that is pushed out, if any, when one more is shown. */
  function PushedOut(cards: seq<ProjectorCard>): seq<ProjectorCard> {
    if |cards| < MAX_CARDS then [] else cards[..1]
  }

  /** The end of a card the projector shows only fades it; the end of one it has dropped brings it back, blank. So every
      other card stays on screen exactly when the card was shown or there is room. */
  lemma EndOfUnshownCard(p: ProjectorState, n: nat, cardId: string)
    requires |p.cards| <= MAX_CARDS && DistinctIds(p.cards)
    ensures var q := WithCard(p, n, CardEnd(cardId));
            if Shows(p.cards, cardId) then
              |q.cards| == |p.cards| && forall i | 0 <= i < |p.cards| :: q.cards[i].cardId == p.cards[i].cardId
            else PushedOut(p.cards) + q.cards == p.cards + [Blank(cardId).(state := Fading)]
    ensures var q := WithCard(p, n, CardEnd(cardId));
            (forall c | c in p.cards :: Shows(q.cards, c.cardId))
            <==> Shows(p.cards, cardId) || |p.cards| < MAX_CARDS
  {
    var now := WithCard(p, n, CardEnd(cardId)).cards;
    if Shows(p.cards, cardId) || |p.cards| < MAX_CARDS {
      forall c | c in p.cards ensures Shows(now, c.cardId) {
        StaysOnScreen(p, n, cardId, c);
      }
    } else {
      OldestIsPushedOut(p, n, cardId);
    }
  }

  lemma StaysOnScreen(p: ProjectorState, n: nat, cardId: string, c: ProjectorCard)
    requires c in p.cards && (Shows(p.cards, cardId) || |p.cards| < MAX_CARDS)
    ensures Shows(WithCard(p, n, CardEnd(cardId)).cards, c.cardId)
  {
    var i := FindIndex(p.cards, cardId);
    if i < |p.cards| {
      FindKept(p.cards, i, Updated(p.cards[i], CardEnd(cardId)), c.cardId);
    } else {
      FindAppended(p.cards, Updated(Blank(cardId), CardEnd(cardId)), c.cardId);
    }
  }

  lemma OldestIsPushedOut(p: ProjectorState, n: nat, cardId: string)
    requires |p.cards| == MAX_CARDS && DistinctIds(p.cards) && !Shows(p.cards, cardId)
    ensures !Shows(WithCard(p, n, CardEnd(cardId)).cards, p.cards[0].cardId) && p.cards[0] in p.cards
  {
    var now := WithCard(p, n, CardEnd(cardId)).cards;
    var i := FindIndex(now, p.cards[0].cardId);
    assert now == p.cards[1..] + [Blank(cardId).(state := Fading)];
    assert forall j | 0 <= j < |now| :: now[j].cardId != p.cards[0].cardId;
  }
}
