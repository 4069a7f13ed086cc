/** The relay protocol: what travels from the relay to studio and projectors. */
module Wire {
  import opened Text

  datatype CardState = Live | Settled | Fading

  /** A card without any translation has no `tr`. */
  datatype CaptionCard = CaptionCard(
    cardId: string, text: string, stable: nat, tr: Option<map<string, string>>, trFinal: bool, state: CardState,
      at: nat)

  /** Render settings are carried and never inspected. */
  datatype RenderConfig = RenderConfig(settings: map<string, string>)

  /** The content of the messages that carry a sequence number. */
  datatype Event =
    | Snapshot(sessionId: string, cards: seq<CaptionCard>, render: RenderConfig, watermark: bool)
    | Partial(cardId: string, text: string, stable: nat, tr: Option<map<string, string>>)
    | Commit(cardId: string, text: string, tr: Option<map<string, string>>)
    | Retract(cardId: string, text: string, tr: Option<map<string, string>>)
    | CardEnd(cardId: string)
    | Tts(cardId: string, lang: string, chunk: string, final: bool)
    | Render(render: RenderConfig)

  datatype RelayMessage =
    | Sequenced(seqNo: nat, event: Event)
    | Credits(remaining: int, secondsLeft: nat, burnRatePerMin: int)
    | Notice(level: string, code: string)
    | Ready(sessionId: string, protocolVersion: string, burnRatePerMin: int)
    | End(reason: string, creditsSpent: int)
    | Pong

  datatype Role = Captions | Voice

  /** The allowlist: account messages never reach a projector. */
  predicate ProjectorSafe(m: RelayMessage) {
    m.Sequenced? || m.Pong?
  }

  /** The second filter, by projector role. */
  predicate AllowedForRole(m: RelayMessage, role: Role) {
    match role
    case Voice => m.Pong? || (m.Sequenced? && (m.event.Snapshot? || m.event.Tts? || m.event.Render?))
    case Captions => !(m.Sequenced? && m.event.Tts?)
  }

  predicate Deliverable(m: RelayMessage, role: Role) {
    ProjectorSafe(m) && AllowedForRole(m, role)
  }

  /** The messages of a log that a projector of the given role may see, past the first `from` entries.
      Entry `i` of the log went out with sequence number `i + 1`. */
  function Visible(log: seq<Event>, from: nat, role: Role): (r: seq<RelayMessage>) {
    if |log| <= from then []
    else
      var n := |log| - 1;
      var last := Sequenced(n + 1, log[n]);
      Visible(log[..n], from, role) + if Deliverable(last, role) then [last] else []
  }

  lemma {:induction false} VisibleGrows(log: seq<Event>, more: seq<Event>, from: nat, role: Role)
    requires from <= |log|
    ensures Visible(log + more, from, role) == Visible(log, from, role) + Visible(log + more, |log|, role)
    decreases |more|
  {
    var all := log + more;
    if more == [] {
      assert all == log;
    } else {
      VisibleGrows(log, more[..|more| - 1], from, role);
      assert all[..|all| - 1] == log + more[..|more| - 1];
    }
  }
}
