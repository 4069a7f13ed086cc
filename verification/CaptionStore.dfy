/** The projector's reducer: relay messages folded into what is on air. */
module CaptionStore {
  import opened Text
  import opened Wire

  datatype ProjectorCard = ProjectorCard(
    cardId: string, text: string, stable: nat, tr: Option<map<string, string>>, trFinal: bool, state: CardState,
    at: nat, rev: nat)

  datatype ProjectorState = ProjectorState(
    sessionId: Option<string>, cards: seq<ProjectorCard>, render: RenderConfig, watermark: bool, lastSeq: nat)

  const MAX_CARDS: nat := 8

  const INITIAL_STATE := ProjectorState(None, [], RenderConfig(map[]), false, 0)

  /** `cards.slice(-MAX_CARDS)`. */
  function Recent<T>(cards: seq<T>): (r: seq<T>)
    ensures |r| == Min(|cards|, MAX_CARDS)
  {
    cards[Max(0, |cards| - MAX_CARDS)..]
  }

  function Received(card: CaptionCard): ProjectorCard {
    ProjectorCard(card.cardId, card.text, card.stable, card.tr, card.trFinal, card.state, card.at, 0)
  }

  function ReceivedAll(cards: seq<CaptionCard>): (r: seq<ProjectorCard>)
    ensures |r| == |cards|
    ensures forall i | 0 <= i < |cards| :: r[i] == Received(cards[i])
  {
    seq(|cards|, i requires 0 <= i < |cards| => Received(cards[i]))
  }

  function Blank(cardId: string): ProjectorCard {
    ProjectorCard(cardId, "", 0, None, false, Live, 0, 0)
  }

  function FindIndex(cards: seq<ProjectorCard>, cardId: string): (i: nat)
    ensures i <= |cards|
    ensures i < |cards| ==> cards[i].cardId == cardId
    ensures forall j | 0 <= j < i :: cards[j].cardId != cardId
  {
    if cards == [] || cards[0].cardId == cardId then 0 else 1 + FindIndex(cards[1..], cardId)
  }

  predicate NamesCard(ev: Event) {
    ev.Partial? || ev.Commit? || ev.Retract? || ev.CardEnd?
  }

  /** What an event does to the card it names. */
  function Updated(card: ProjectorCard, ev: Event): (r: ProjectorCard)
    requires NamesCard(ev)
    ensures r.cardId == card.cardId
  {
    match ev
    case Partial(_, text, stable, tr) =>
      card.(text := text, stable := stable, tr := Kept(tr, card.tr), trFinal := false, state := Live)
    case Commit(_, text, tr) =>
      card.(text := text, stable := |text|, tr := Kept(tr, card.tr), trFinal := tr.Some? || card.trFinal,
            state := Settled)
    case Retract(_, text, tr) =>
      card.(text := text, stable := |text|, tr := Kept(tr, card.tr), trFinal := tr.Some? || card.trFinal,
            state := Settled, rev := card.rev + 1)
    case CardEnd(_) => card.(state := Fading)
  }

  function Kept(sent: Option<map<string, string>>, held: Option<map<string, string>>): Option<map<string, string>> {
    if sent.Some? then sent else held
  }

  function WithCard(state: ProjectorState, seqNo: nat, ev: Event): ProjectorState
    requires NamesCard(ev)
  {
    var index := FindIndex(state.cards, ev.cardId);
    var cards :=
      if index < |state.cards| then state.cards[index := Updated(state.cards[index], ev)]
      else Recent(state.cards + [Updated(Blank(ev.cardId), ev)]);
    state.(cards := cards, lastSeq := seqNo)
  }

  function ApplyRelayMessage(state: ProjectorState, m: RelayMessage): ProjectorState {
    if !m.Sequenced? then state
    else if m.event.Snapshot? then
      ProjectorState(Some(m.event.sessionId), ReceivedAll(Recent(m.event.cards)), m.event.render, m.event.watermark,
                     m.seqNo)
    else if m.seqNo <= state.lastSeq then state
    else if m.event.Render? then state.(render := m.event.render, lastSeq := m.seqNo)
    else if NamesCard(m.event) then WithCard(state, m.seqNo, m.event)
    else state
  }

  /** The state after receiving messages in order. */
  function Fold(state: ProjectorState, ms: seq<RelayMessage>): ProjectorState {
    if ms == [] then state
    else ApplyRelayMessage(Fold(state, ms[..|ms| - 1]), ms[|ms| - 1])
  }

  lemma {:induction false} FoldConcat(state: ProjectorState, a: seq<RelayMessage>, b: seq<RelayMessage>)
    ensures Fold(state, a + b) == Fold(Fold(state, a), b)
    decreases |b|
  {
    if b == [] {
      assert a + b == a;
    } else {
      FoldConcat(state, a, b[..|b| - 1]);
      assert (a + b)[..|a + b| - 1] == a + b[..|b| - 1];
    }
  }

  lemma FoldOne(state: ProjectorState, m: RelayMessage)
    ensures Fold(state, [m]) == ApplyRelayMessage(state, m)
  {
    assert [m][..0] == [];
  }

  /** Replaying frames already seen changes nothing, in any order and number. */
  lemma {:induction false} ReplayIsHarmless(state: ProjectorState, ms: seq<RelayMessage>)
    requires forall i | 0 <= i < |ms| :: ms[i].Sequenced? && !ms[i].event.Snapshot? && ms[i].seqNo <= state.lastSeq
    ensures Fold(state, ms) == state
    decreases |ms|
  {
    if ms != [] {
      ReplayIsHarmless(state, ms[..|ms| - 1]);
    }
  }
}
