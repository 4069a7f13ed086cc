/** Runs of the whole system in which a projector shows what the engine does not hold, although it was attached all
    along and received everything: first the means to build such runs, then the end of a card that is no longer on
    screen. */
module Departures {
  import opened Text
  import opened Wire
  import opened Engine
  import opened CaptionStore
  import opened Relay
  import opened Agreement
  import opened Turns
  import opened Replication
  import L = Lifecycle

  /* One relay, one captions projector, and everything delivered as it is sent */

  ghost predicate Reaches(start: System, cfg: RelayConfig, run: seq<SystemEvent>, s: System) {
    Legal(start, cfg, run) && After(start, cfg, run) == s
  }

  lemma {:induction false} ReachesNext(start: System, cfg: RelayConfig, run: seq<SystemEvent>, s: System,
                                       ev: SystemEvent)
    requires Reaches(start, cfg, run, s) && Possible(s, ev)
    ensures Reaches(start, cfg, run + [ev], Replication.Next(s, cfg, ev))
    decreases run
  {
    if run == [] {
      assert run + [ev] == [ev] && [ev][1..] == [];
    } else {
      assert (run + [ev])[1..] == run[1..] + [ev];
      ReachesNext(Replication.Next(start, cfg, run[0]), cfg, run[1..], s, ev);
    }
  }

  function Watched(r: RelayState, c: Client): System {
    System(r, map[0 := c])
  }

  function CaughtUp(r: RelayState, got: seq<RelayMessage>): System {
    Watched(r, Client(Captions, true, [], got))
  }

  lemma {:induction false} DeliverAll(start: System, cfg: RelayConfig, run: seq<SystemEvent>, r: RelayState, c: Client)
    returns (longer: seq<SystemEvent>)
    requires Reaches(start, cfg, run, Watched(r, c)) && c.open
    ensures Reaches(start, cfg, longer, Watched(r, c.(wire := [], got := c.got + c.wire)))
    decreases |c.wire|
  {
    if c.wire == [] {
      longer := run;
      assert c.got + c.wire == c.got;
    } else {
      ReachesNext(start, cfg, run, Watched(r, c), Deliver(0));
      assert map[0 := c][0 := Replication.Received(c)] == map[0 := Replication.Received(c)];
      longer := DeliverAll(start, cfg, run + [Deliver(0)], r, Replication.Received(c));
      assert c.got + [c.wire[0]] + c.wire[1..] == c.got + c.wire;
    }
  }

  lemma TurnIsSent(start: System, cfg: RelayConfig, run: seq<SystemEvent>, r: RelayState, got: seq<RelayMessage>,
                   ev: RelayEvent)
    requires Reaches(start, cfg, run, CaughtUp(r, got)) && Enabled(r, ev) && Step(r, cfg, ev).phase == r.phase
    ensures var s := Step(r, cfg, ev);
            Reaches(start, cfg, run + [RelayTurn(ev)],
                    Watched(s, Client(Captions, true, Visible(s.log, |r.log|, Captions), got)))
  {
    ReachesNext(start, cfg, run, CaughtUp(r, got), RelayTurn(ev));
    SentToOne(r, cfg, got, ev);
  }

  lemma SentToOne(r: RelayState, cfg: RelayConfig, got: seq<RelayMessage>, ev: RelayEvent)
    requires Enabled(r, ev) && Step(r, cfg, ev).phase == r.phase
    ensures var s := Step(r, cfg, ev);
            Replication.Next(CaughtUp(r, got), cfg, RelayTurn(ev))
            == Watched(s, Client(Captions, true, Visible(s.log, |r.log|, Captions), got))
  {
    var s := Step(r, cfg, ev);
    var c, news := Client(Captions, true, [], got), Visible(s.log, |r.log|, Captions);
    assert [] + news == news;
    assert Broadcast(c, r, s) == c.(wire := news);
    assert (map id | id in map[0 := c] :: Broadcast(map[0 := c][id], r, s)) == map[0 := c.(wire := news)];
  }

  /** A turn of the relay, received. */
  lemma Hear(start: System, cfg: RelayConfig, run: seq<SystemEvent>, r: RelayState, got: seq<RelayMessage>,
             ev: RelayEvent)
    returns (longer: seq<SystemEvent>)
    requires Reaches(start, cfg, run, CaughtUp(r, got)) && Enabled(r, ev) && Step(r, cfg, ev).phase == r.phase
    ensures var s := Step(r, cfg, ev);
            var news := Visible(s.log, |r.log|, Captions);
            Reaches(start, cfg, longer, CaughtUp(s, got + news)) && Store(got + news) == Fold(Store(got), news)
  {
    var s := Step(r, cfg, ev);
    var news := Visible(s.log, |r.log|, Captions);
    TurnIsSent(start, cfg, run, r, got, ev);
    longer := DeliverAll(start, cfg, run + [RelayTurn(ev)], s, Client(Captions, true, news, got));
    FoldConcat(INITIAL_STATE, got, news);
  }

  /** The projector's page is loaded and attached before anyone speaks. */
  lemma Arrives(cfg: RelayConfig, render: RenderConfig) returns (run: seq<SystemEvent>, got: seq<RelayMessage>)
    ensures Reaches(Begin(render), cfg, run, CaughtUp(Start(render), got))
    ensures Store(got).cards == [] && Store(got).lastSeq == 0
  {
    var start := Begin(render);
    var snapshot := SnapshotOf(Start(render), cfg);
    var loaded := Client(Captions, false, [], []);
    ReachesNext(start, cfg, [], start, PageLoad(0, Captions));
    assert start.clients[0 := loaded] == map[0 := loaded];
    ReachesNext(start, cfg, [] + [PageLoad(0, Captions)], Watched(Start(render), loaded), Attach(0));
    var attached := Client(Captions, true, [snapshot], []);
    assert map[0 := loaded][0 := attached] == map[0 := attached];
    run := DeliverAll(start, cfg, [] + [PageLoad(0, Captions)] + [Attach(0)], Start(render), attached);
    got := [] + [snapshot];
    FoldOne(INITIAL_STATE, snapshot);
    assert got == [snapshot];
  }

  /* Cards by number, as the default generator names them */

  function Ids(n: nat): set<string> {
    if n == 0 then {} else Ids(n - 1) + {L.DefaultId(n - 1)}
  }

  lemma {:induction false} NotIssued(n: nat, k: nat)
    requires n <= k
    ensures L.DefaultId(k) !in Ids(n)
  {
    if n > 0 {
      NotIssued(n - 1, k);
      if L.DefaultId(n - 1) == L.DefaultId(k) {
        L.DefaultIdsDistinct(n - 1, k);
      }
    }
  }

  predicate Listed(cards: seq<ProjectorCard>, ids: seq<nat>) {
    |cards| == |ids| && forall i | 0 <= i < |ids| :: cards[i].cardId == L.DefaultId(ids[i])
  }

  predicate Holding(e: EngineState, ids: seq<nat>) {
    |e.settled| == |ids| && forall i | 0 <= i < |ids| :: e.settled[i].cardId == L.DefaultId(ids[i])
  }

  lemma ListedShows(cards: seq<ProjectorCard>, ids: seq<nat>, k: nat)
    requires Listed(cards, ids)
    ensures Shows(cards, L.DefaultId(k)) <==> k in ids
  {
    var i := FindIndex(cards, L.DefaultId(k));
    if i < |cards| {
      L.DefaultIdsDistinct(ids[i], k);
    }
  }

  lemma HoldingHolds(e: EngineState, ids: seq<nat>, k: nat)
    requires Holding(e, ids) && e.live.None?
    ensures Holds(e, L.DefaultId(k)) <==> k in ids
  {
    var i := IndexOf(e.settled, L.DefaultId(k));
    if i < |e.settled| {
      L.DefaultIdsDistinct(ids[i], k);
    }
  }

  /** What a message about card `k` does to the list on screen. */
  function Mentioned(ids: seq<nat>, k: nat): seq<nat> {
    if k in ids then ids else Recent(ids + [k])
  }

  lemma ReplacedIsListed(cards: seq<ProjectorCard>, i: nat, next: ProjectorCard, ids: seq<nat>)
    requires i < |cards| && next.cardId == cards[i].cardId && Listed(cards, ids)
    ensures Listed(cards[i := next], ids)
  {
  }

  lemma AppendedIsListed(cards: seq<ProjectorCard>, next: ProjectorCard, ids: seq<nat>, k: nat)
    requires next.cardId == L.DefaultId(k) && Listed(cards, ids)
    ensures Listed(Recent(cards + [next]), Recent(ids + [k]))
  {
    assert Listed(cards + [next], ids + [k]);
  }

  lemma MentionedIsListed(p: ProjectorState, n: nat, ev: Event, ids: seq<nat>, k: nat)
    requires NamesCard(ev) && ev.cardId == L.DefaultId(k) && Listed(p.cards, ids)
    ensures Listed(WithCard(p, n, ev).cards, Mentioned(ids, k)) && WithCard(p, n, ev).lastSeq == n
  {
    var i := FindIndex(p.cards, ev.cardId);
    ListedShows(p.cards, ids, k);
    if i < |p.cards| {
      ReplacedIsListed(p.cards, i, Updated(p.cards[i], ev), ids);
    } else {
      AppendedIsListed(p.cards, Updated(Blank(ev.cardId), ev), ids, k);
    }
  }

  /** The relay has closed every card it opened; the projector has heard it all. */
  ghost predicate Between(r: RelayState, p: ProjectorState, kept: seq<nat>, shown: seq<nat>, next: nat) {
    && r.phase == Running && r.engine.live.None? && Holding(r.engine, kept) && r.engine.issued == Ids(next)
    && p.lastSeq <= |r.log| && Listed(p.cards, shown)
  }

  /* A sentence */

  function CommitNews(e: EngineState, id: string, text: string): seq<Event> {
    [Commit(id, text, None)] + if Backlog(|e.settled|).DropOldest? then [CardEnd(e.settled[0].cardId)] else []
  }

  lemma CommitTurn(e: EngineState, cfg: EngineConfig, word: string, id: string)
    requires e.live.None? && Trim(word) != ""
    ensures var t := Push(e, cfg, Committed(word, 0), id);
            && EventsOf(t.state, t.ops) == CommitNews(e, id, Trim(word))
            && t.state.live.None? && t.state.issued == e.issued + {id}
            && t.state.settled == (if Backlog(|e.settled|).DropOldest? then e.settled[1..] else e.settled)
                                  + [Settle(NewCard(id, 0), Trim(word))]
  {
    var base := e.(issued := e.issued + {id});
    var t := Push(e, cfg, Committed(word, 0), id);
    var rest := CommitCard(base, cfg, NewCard(id, 0), Trim(word), 0).ops;
    EventsConcat(t.state, [CardOpen(id, 0)], rest);
    EventsOne(t.state, CardOpen(id, 0));
    CommitEvents(base, cfg, NewCard(id, 0), Trim(word), 0, t.state);
  }

  lemma HeldAfterCommit(e: EngineState, f: EngineState, kept: seq<nat>, n: nat, card: CardView)
    requires Holding(e, kept) && card.cardId == L.DefaultId(n)
    requires f.settled == (if Backlog(|e.settled|).DropOldest? then e.settled[1..] else e.settled) + [card]
    ensures Holding(f, (if |kept| > 6 then kept[1..] else kept) + [n])
  {
  }

  /** A log entry about a card, as the projector receives it. */
  lemma NewsShown(log: seq<Event>, longer: seq<Event>, ev: Event, p: ProjectorState)
    requires longer == log + [ev] && NamesCard(ev) && p.lastSeq <= |log|
    ensures Fold(p, Visible(longer, |log|, Captions)) == WithCard(p, |log| + 1, ev)
  {
    ReceiveCard(p, log, ev);
  }

  lemma SpeechLog(r: RelayState, cfg: RelayConfig, event: SttEvent, id: string)
    requires r.phase == Running && id !in r.engine.issued
    ensures var s, t := Step(r, cfg, Speech(event, id)), Push(r.engine, cfg.engine, event, id);
            s.phase == Running && s.engine == t.state && s.log == r.log + EventsOf(t.state, t.ops)
  {
  }

  /** A turn with one event about a card, and what the projector makes of it. */
  lemma OneNews(r: RelayState, cfg: RelayConfig, event: SttEvent, id: string, ev: Event, p: ProjectorState)
    requires r.phase == Running && id !in r.engine.issued && p.lastSeq <= |r.log| && NamesCard(ev)
    requires var t := Push(r.engine, cfg.engine, event, id); EventsOf(t.state, t.ops) == [ev]
    ensures var s := Step(r, cfg, Speech(event, id));
            && s.phase == Running && s.engine == Push(r.engine, cfg.engine, event, id).state && s.log == r.log + [ev]
            && Fold(p, Visible(s.log, |r.log|, Captions)) == WithCard(p, |r.log| + 1, ev)
  {
    SpeechLog(r, cfg, event, id);
    NewsShown(r.log, Step(r, cfg, Speech(event, id)).log, ev, p);
  }

  lemma CommitBetween(r: RelayState, cfg: RelayConfig, word: string, p: ProjectorState, kept: seq<nat>, shown: seq<nat>,
                      n: nat)
    requires Between(r, p, kept, shown, n) && |kept| <= 6 && n !in shown && Trim(word) != ""
    ensures L.DefaultId(n) !in r.engine.issued
    ensures var s := Step(r, cfg, Speech(Committed(word, 0), L.DefaultId(n)));
            Between(s, Fold(p, Visible(s.log, |r.log|, Captions)), kept + [n], Recent(shown + [n]), n + 1)
  {
    var id := L.DefaultId(n);
    var ev := Commit(id, Trim(word), None);
    NotIssued(n, n);
    CommitTurn(r.engine, cfg.engine, word, id);
    OneNews(r, cfg, Committed(word, 0), id, ev, p);
    MentionedIsListed(p, |r.log| + 1, ev, shown, n);
    HeldAfterCommit(r.engine, Push(r.engine, cfg.engine, Committed(word, 0), id).state, kept, n,
                    Settle(NewCard(id, 0), Trim(word)));
  }

  /* A card that is opened and never committed */

  lemma PartialTurn(e: EngineState, cfg: EngineConfig, word: string, id: string)
    requires e.live.None? && Tokenize(word) != []
    ensures var t := Push(e, cfg, SttEvent.Partial(word, 0), id);
            && IsLive(t.state, id) && t.state.settled == e.settled && t.state.issued == e.issued + {id}
            && EventsOf(t.state, t.ops)
               == [Event.Partial(id, t.state.live.value.view.text, t.state.live.value.view.stable, None)]
  {
    var base := e.(issued := e.issued + {id});
    var t := Push(e, cfg, SttEvent.Partial(word, 0), id);
    EventsConcat(t.state, [CardOpen(id, 0)], UpdateLive(base, cfg, NewCard(id, 0), Tokenize(word), 0).ops);
    EventsOne(t.state, CardOpen(id, 0));
    UpdateEvents(base, cfg, NewCard(id, 0), Tokenize(word), 0, t.state);
  }

  lemma SilenceTurn(e: EngineState, cfg: EngineConfig, id: string, next: string)
    requires IsLive(e, id)
    ensures var t := Push(e, cfg, Silence(0), next);
            && t.state.live.None? && t.state.settled == e.settled && t.state.issued == e.issued
            && EventsOf(t.state, t.ops) == [CardEnd(id)]
  {
    EventsOne(Push(e, cfg, Silence(0), next).state, CardClose(id, 0));
  }

  /** A card is live and on screen; everything before it was closed. */
  ghost predicate Open(r: RelayState, p: ProjectorState, kept: seq<nat>, shown: seq<nat>, k: nat) {
    && r.phase == Running && IsLive(r.engine, L.DefaultId(k))
    && Holding(r.engine, kept) && r.engine.issued == Ids(k + 1)
    && p.lastSeq <= |r.log| && Listed(p.cards, shown) && k in shown
  }

  lemma PartialOpens(r: RelayState, cfg: RelayConfig, word: string, p: ProjectorState, kept: seq<nat>, shown: seq<nat>,
                     n: nat)
    requires Between(r, p, kept, shown, n) && n !in shown && Tokenize(word) != []
    ensures L.DefaultId(n) !in r.engine.issued
    ensures var s := Step(r, cfg, Speech(SttEvent.Partial(word, 0), L.DefaultId(n)));
            Open(s, Fold(p, Visible(s.log, |r.log|, Captions)), kept, Recent(shown + [n]), n)
  {
    var id := L.DefaultId(n);
    NotIssued(n, n);
    PartialTurn(r.engine, cfg.engine, word, id);
    var v := Push(r.engine, cfg.engine, SttEvent.Partial(word, 0), id).state.live.value.view;
    var ev := Event.Partial(id, v.text, v.stable, None);
    OneNews(r, cfg, SttEvent.Partial(word, 0), id, ev, p);
    MentionedIsListed(p, |r.log| + 1, ev, shown, n);
    NewestIsRecent(shown, n);
  }

  lemma NewestIsRecent(shown: seq<nat>, n: nat)
    ensures n in Recent(shown + [n])
  {
    assert Recent(shown + [n])[|Recent(shown + [n])| - 1] == n;
  }

  lemma SilenceCloses(r: RelayState, cfg: RelayConfig, p: ProjectorState, kept: seq<nat>, shown: seq<nat>, k: nat)
    requires Open(r, p, kept, shown, k)
    ensures L.DefaultId(k + 1) !in r.engine.issued
    ensures var s := Step(r, cfg, Speech(Silence(0), L.DefaultId(k + 1)));
            Between(s, Fold(p, Visible(s.log, |r.log|, Captions)), kept, shown, k + 1)
  {
    var ev := CardEnd(L.DefaultId(k));
    NotIssued(k + 1, k + 1);
    SilenceTurn(r.engine, cfg.engine, L.DefaultId(k), L.DefaultId(k + 1));
    OneNews(r, cfg, Silence(0), L.DefaultId(k + 1), ev, p);
    MentionedIsListed(p, |r.log| + 1, ev, shown, k);
  }

  /* One sentence too many */

  lemma TwoNews(log: seq<Event>, a: Event, b: Event)
    requires !a.Tts? && !b.Tts?
    ensures Visible(log + [a, b], |log|, Captions) == [Sequenced(|log| + 1, a), Sequenced(|log| + 2, b)]
  {
    var one, two := log + [a], log + [a, b];
    assert two[..|log| + 1] == one && one[..|log|] == log;
    assert Visible(one, |log|, Captions) == [Sequenced(|log| + 1, a)];
  }

  function Count(k: nat): (ids: seq<nat>)
    ensures |ids| == k && forall i | 0 <= i < k :: ids[i] == i
  {
    seq(k, i => i)
  }

  lemma CountNext(k: nat)
    ensures Count(k) + [k] == Count(k + 1)
    ensures k < MAX_CARDS ==> Recent(Count(k) + [k]) == Count(k + 1)
  {
  }

  /** So many sentences, one after another. */
  lemma {:induction false} Speaks(cfg: RelayConfig, render: RenderConfig, word: string, k: nat)
    returns (run: seq<SystemEvent>, r: RelayState, got: seq<RelayMessage>)
    requires k <= 7 && Trim(word) != ""
    ensures Reaches(Begin(render), cfg, run, CaughtUp(r, got)) && Between(r, Store(got), Count(k), Count(k), k)
  {
    if k == 0 {
      r := Start(render);
      run, got := Arrives(cfg, render);
    } else {
      var before, q, heard := Speaks(cfg, render, word, k - 1);
      var ev := Speech(Committed(word, 0), L.DefaultId(k - 1));
      CommitBetween(q, cfg, word, Store(heard), Count(k - 1), Count(k - 1), k - 1);
      CountNext(k - 1);
      r, got := Step(q, cfg, ev), heard + Visible(Step(q, cfg, ev).log, |q.log|, Captions);
      run := Hear(Begin(render), cfg, before, q, heard, ev);
    }
  }

  /** Seven sentences and a card that was never committed: all eight are on screen. */
  lemma FillsTheScreen(cfg: RelayConfig, render: RenderConfig, word: string)
    returns (run: seq<SystemEvent>, r: RelayState, got: seq<RelayMessage>)
    requires Trim(word) != "" && Tokenize(word) != []
    ensures Reaches(Begin(render), cfg, run, CaughtUp(r, got)) && Between(r, Store(got), Count(7), Count(8), 8)
  {
    var before, open, seen := OpensOneMore(cfg, render, word);
    var ends := Speech(Silence(0), L.DefaultId(8));
    SilenceCloses(open, cfg, Store(seen), Count(7), Count(8), 7);
    r, got := Step(open, cfg, ends), seen + Visible(Step(open, cfg, ends).log, |open.log|, Captions);
    run := Hear(Begin(render), cfg, before, open, seen, ends);
  }

  lemma OpensOneMore(cfg: RelayConfig, render: RenderConfig, word: string)
    returns (run: seq<SystemEvent>, r: RelayState, got: seq<RelayMessage>)
    requires Trim(word) != "" && Tokenize(word) != []
    ensures Reaches(Begin(render), cfg, run, CaughtUp(r, got)) && Open(r, Store(got), Count(7), Count(8), 7)
  {
    var before, q, heard := Speaks(cfg, render, word, 7);
    var begins := Speech(SttEvent.Partial(word, 0), L.DefaultId(7));
    PartialOpens(q, cfg, word, Store(heard), Count(7), Count(7), 7);
    CountNext(7);
    r, got := Step(q, cfg, begins), heard + Visible(Step(q, cfg, begins).log, |q.log|, Captions);
    run := Hear(Begin(render), cfg, before, q, heard, begins);
  }

  /** One sentence more shows its card, and then ends the oldest one, which is no longer on screen. */
  lemma Overflows(r: RelayState, cfg: RelayConfig, word: string, p: ProjectorState)
    requires Between(r, p, Count(7), Count(8), 8) && Trim(word) != ""
    ensures L.DefaultId(8) !in r.engine.issued
    ensures var s := Step(r, cfg, Speech(Committed(word, 0), L.DefaultId(8)));
            && s.phase == Running && s.engine.live.None? && Holding(s.engine, Count(7)[1..] + [8])
            && s.log == r.log + [Commit(L.DefaultId(8), Trim(word), None), CardEnd(L.DefaultId(0))]
    ensures Listed(WithCard(p, |r.log| + 1, Commit(L.DefaultId(8), Trim(word), None)).cards, Count(9)[1..])
  {
    var id := L.DefaultId(8);
    NotIssued(8, 8);
    CommitTurn(r.engine, cfg.engine, word, id);
    MentionedIsListed(p, |r.log| + 1, Commit(id, Trim(word), None), Count(8), 8);
    CountNext(8);
    HeldAfterCommit(r.engine, Push(r.engine, cfg.engine, Committed(word, 0), id).state, Count(7), 8,
                    Settle(NewCard(id, 0), Trim(word)));
  }

  lemma LastIsBlank(p: ProjectorState, n: nat, id: string)
    requires !Shows(p.cards, id)
    ensures var now := WithCard(p, n, CardEnd(id)).cards;
            now != [] && now[|now| - 1] == Blank(id).(state := Fading)
  {
  }

  lemma OldestGoes()
    ensures Mentioned(Count(9)[1..], 0) == Count(9)[2..] + [0]
    ensures 1 in Count(9)[1..] && 0 !in Count(9)[1..] && 1 !in Count(9)[2..] + [0]
  {
    assert Count(9)[1..][0] == 1;
    assert Recent(Count(9)[1..] + [0]) == Count(9)[2..] + [0];
  }

  /** The end of card 0 puts it back on screen, and card 1 has to go. */
  predicate ComesBack(before: seq<ProjectorCard>, now: seq<ProjectorCard>) {
    && !Shows(before, L.DefaultId(0)) && now != [] && now[|now| - 1] == Blank(L.DefaultId(0)).(state := Fading)
    && Shows(before, L.DefaultId(1)) && !Shows(now, L.DefaultId(1))
  }

  lemma EndBringsBack(p: ProjectorState, n: nat)
    requires Listed(p.cards, Count(9)[1..])
    ensures ComesBack(p.cards, WithCard(p, n, CardEnd(L.DefaultId(0))).cards)
  {
    OldestGoes();
    ListedShows(p.cards, Count(9)[1..], 0);
    ListedShows(p.cards, Count(9)[1..], 1);
    LastIsBlank(p, n, L.DefaultId(0));
    MentionedIsListed(p, n, CardEnd(L.DefaultId(0)), Count(9)[1..], 0);
    ListedShows(WithCard(p, n, CardEnd(L.DefaultId(0))).cards, Count(9)[2..] + [0], 1);
  }

  lemma OneReceived(got: seq<RelayMessage>, n: nat, ev: Event)
    requires NamesCard(ev) && Store(got).lastSeq < n
    ensures Store(got + [Sequenced(n, ev)]) == WithCard(Store(got), n, ev)
    ensures Store(got + [Sequenced(n, ev)]).lastSeq == n
  {
    FoldConcat(INITIAL_STATE, got, [Sequenced(n, ev)]);
    FoldOne(Store(got), Sequenced(n, ev));
  }

  lemma TwoReceived(got: seq<RelayMessage>, n: nat, a: Event, b: Event)
    requires NamesCard(a) && NamesCard(b) && Store(got).lastSeq < n
    ensures Store(got + [Sequenced(n, a)]) == WithCard(Store(got), n, a)
    ensures Store(got + [Sequenced(n, a), Sequenced(n + 1, b)]) == WithCard(WithCard(Store(got), n, a), n + 1, b)
  {
    OneReceived(got, n, a);
    OneReceived(got + [Sequenced(n, a)], n + 1, b);
    assert got + [Sequenced(n, a), Sequenced(n + 1, b)] == got + [Sequenced(n, a)] + [Sequenced(n + 1, b)];
  }

  /** The projector has just been told of the end of card 0, which it no longer showed. It shows it again, blank, and
      has dropped card 1 for it, which the engine still holds. */
  ghost predicate EndedUnshown(s: System) {
    && 0 in s.clients
    && var c := s.clients[0];
    && c.open && c.wire == [] && c.role == Captions && c.got != []
    && c.got[|c.got| - 1] == Sequenced(|s.relay.log|, CardEnd(L.DefaultId(0)))
    && ComesBack(Store(c.got[..|c.got| - 1]).cards, Store(c.got).cards)
    && !Holds(s.relay.engine, L.DefaultId(0)) && Holds(s.relay.engine, L.DefaultId(1))
  }

  lemma LastOfTwo(got: seq<RelayMessage>, n: nat, a: Event, b: Event)
    requires NamesCard(a) && NamesCard(b) && Store(got).lastSeq < n
    ensures var all := got + [Sequenced(n, a), Sequenced(n + 1, b)];
            && all[|all| - 1] == Sequenced(n + 1, b) && Store(all[..|all| - 1]) == WithCard(Store(got), n, a)
            && Store(all) == WithCard(WithCard(Store(got), n, a), n + 1, b)
  {
    var all := got + [Sequenced(n, a), Sequenced(n + 1, b)];
    TwoReceived(got, n, a, b);
    assert all[..|all| - 1] == got + [Sequenced(n, a)];
  }

  lemma LastTurn(r: RelayState, cfg: RelayConfig, word: string, got: seq<RelayMessage>)
    requires Between(r, Store(got), Count(7), Count(8), 8) && Trim(word) != ""
    ensures L.DefaultId(8) !in r.engine.issued
    ensures var s := Step(r, cfg, Speech(Committed(word, 0), L.DefaultId(8)));
            s.phase == Running && EndedUnshown(CaughtUp(s, got + Visible(s.log, |r.log|, Captions)))
  {
    var a := Commit(L.DefaultId(8), Trim(word), None);
    Overflows(r, cfg, word, Store(got));
    TwoNews(r.log, a, CardEnd(L.DefaultId(0)));
    LastOfTwo(got, |r.log| + 1, a, CardEnd(L.DefaultId(0)));
    EndBringsBack(WithCard(Store(got), |r.log| + 1, a), |r.log| + 2);
    HoldsOneNotZero(Step(r, cfg, Speech(Committed(word, 0), L.DefaultId(8))).engine);
  }

  lemma HoldsOneNotZero(e: EngineState)
    requires Holding(e, Count(7)[1..] + [8]) && e.live.None?
    ensures !Holds(e, L.DefaultId(0)) && Holds(e, L.DefaultId(1))
  {
    var kept := Count(7)[1..] + [8];
    assert kept[0] == 1;
    HoldingHolds(e, kept, 0);
    HoldingHolds(e, kept, 1);
  }

  /** This happens whatever the settings, to a projector that was attached all along and received everything at once. */
  lemma EndOfUnshownCardHappens(cfg: RelayConfig, render: RenderConfig, word: string) returns (run: seq<SystemEvent>)
    requires Trim(word) != "" && Tokenize(word) != []
    ensures Legal(Begin(render), cfg, run) && EndedUnshown(After(Begin(render), cfg, run))
  {
    var before, r, got := FillsTheScreen(cfg, render, word);
    LastTurn(r, cfg, word, got);
    run := Hear(Begin(render), cfg, before, r, got, Speech(Committed(word, 0), L.DefaultId(8)));
  }
}
