/** Balances under webhooks and refreshes as well as sessions. */
module Refreshes {
  import opened Text
  import opened Ledger
  import opened LedgerTable
  import opened Metering
  import opened Bank
  import opened Billing
  import opened BillingRuns
  import P = Paddle

  /** What a ledger row is: used by a session, or given or taken back, perhaps for a time. */
  datatype Term = Usage | Given(expiresAt: Option<int>)

  /** `terms[k]` belongs to row `k`. */
  datatype Entries = Entries(rows: seq<Row>, terms: seq<Term>)

  datatype Store = Store(sys: System, terms: seq<Term>)

  /** A webhook books its intents in one transaction. A refresh sums up the first `seen` rows of the ledger, those that
      were committed when it began, and later writes the sums over the balance row. */
  datatype StoreEvent =
    | OfSession(ev: BillingEvent)
    | Webhook(event: P.PaddleEvent, catalog: seq<P.CatalogEntry>, now: int)
    | Refresh(userId: string, seen: nat, now: int)

  function LedgerOf(store: Store): Entries {
    Entries(store.sys.bank.rows, store.terms)
  }

  predicate Paired(l: Entries) {
    |l.rows| == |l.terms|
  }

  /* Sums over a stretch of the ledger */

  /** Used, taken back, or given and not expired. */
  predicate Counted(row: Row, term: Term, now: int) {
    row.delta < 0 || term.Usage? || term.expiresAt.None? || term.expiresAt.value > now
  }

  function Live(l: Entries, from: nat, until: nat, userId: string, bucket: Bucket, now: int): int
    requires Paired(l) && until <= |l.rows|
    decreases until
  {
    if until <= from then 0
    else
      var row := l.rows[until - 1];
      Live(l, from, until - 1, userId, bucket, now)
      + if Counts(row, userId, bucket) && Counted(row, l.terms[until - 1], now) then row.delta else 0
  }

  function Used(l: Entries, from: nat, until: nat, userId: string, bucket: Bucket): int
    requires Paired(l) && until <= |l.rows|
    decreases until
  {
    if until <= from then 0
    else
      var row := l.rows[until - 1];
      Used(l, from, until - 1, userId, bucket)
      + if Counts(row, userId, bucket) && l.terms[until - 1].Usage? then row.delta else 0
  }

  /** Credits given and not expired, less those taken back. */
  function GivenLive(l: Entries, from: nat, until: nat, userId: string, bucket: Bucket, now: int): int
    requires Paired(l) && until <= |l.rows|
  {
    Live(l, from, until, userId, bucket, now) - Used(l, from, until, userId, bucket)
  }

  lemma {:induction false} LiveSplits(l: Entries, from: nat, mid: nat, until: nat, userId: string, bucket: Bucket,
                                      now: int)
    requires Paired(l) && from <= mid <= until <= |l.rows|
    ensures Live(l, from, until, userId, bucket, now)
            == Live(l, from, mid, userId, bucket, now) + Live(l, mid, until, userId, bucket, now)
    decreases until
  {
    if until > mid {
      LiveSplits(l, from, mid, until - 1, userId, bucket, now);
    }
  }

  lemma {:induction false} UsedSplits(l: Entries, from: nat, mid: nat, until: nat, userId: string, bucket: Bucket)
    requires Paired(l) && from <= mid <= until <= |l.rows|
    ensures Used(l, from, until, userId, bucket)
            == Used(l, from, mid, userId, bucket) + Used(l, mid, until, userId, bucket)
    decreases until
  {
    if until > mid {
      UsedSplits(l, from, mid, until - 1, userId, bucket);
    }
  }

  predicate Grows(l: Entries, m: Entries) {
    Paired(l) && Paired(m) && l.rows <= m.rows && l.terms <= m.terms
  }

  lemma {:induction false} SumsStay(l: Entries, m: Entries, from: nat, until: nat, userId: string, bucket: Bucket,
                                    now: int)
    requires Grows(l, m) && until <= |l.rows|
    ensures Live(m, from, until, userId, bucket, now) == Live(l, from, until, userId, bucket, now)
    ensures Used(m, from, until, userId, bucket) == Used(l, from, until, userId, bucket)
    decreases until
  {
    if until > from {
      SumsStay(l, m, from, until - 1, userId, bucket, now);
    }
  }

  /** A stretch of session rows adds up to what it moves the ledger sum by. */
  lemma {:induction false} AllUsed(l: Entries, from: nat, until: nat, userId: string, bucket: Bucket, now: int)
    requires Paired(l) && from <= until <= |l.rows| && forall k | from <= k < until :: l.terms[k].Usage?
    ensures Used(l, from, until, userId, bucket)
            == BalanceOf(l.rows[..until], userId, bucket) - BalanceOf(l.rows[..from], userId, bucket)
    ensures Live(l, from, until, userId, bucket, now) == Used(l, from, until, userId, bucket)
    decreases until
  {
    if until > from {
      AllUsed(l, from, until - 1, userId, bucket, now);
      assert l.rows[..until][..until - 1] == l.rows[..until - 1];
    }
  }

  lemma {:induction false} NoneUsed(l: Entries, from: nat, until: nat, userId: string, bucket: Bucket)
    requires Paired(l) && until <= |l.rows| && forall k | from <= k < until :: l.terms[k].Given?
    ensures Used(l, from, until, userId, bucket) == 0
    decreases until
  {
    if until > from {
      NoneUsed(l, from, until - 1, userId, bucket);
    }
  }

  /* Steps */

  lemma {:induction false} InsertPartsAppends(rows: seq<Row>, userId: string, sid: string, n: nat, parts: seq<Part>)
    ensures rows <= InsertParts(rows, userId, sid, n, parts)
    decreases |parts|
  {
    if parts != [] {
      InsertPartsAppends(rows, userId, sid, n, parts[..|parts| - 1]);
    }
  }

  lemma FlushAppends(bank: Bank, s: Session, entry: FlushEntry, seen: Columns, outcome: Outcome)
    ensures bank.rows <= BankAfter(bank, s, entry, seen, outcome).rows
  {
    InsertPartsAppends(bank.rows, s.userId, s.id, entry.sequence, Plan(Buckets(seen), entry.credits).perBucket);
  }

  lemma ServeAppends(sys: System, ev: BillingEvent)
    requires Billing.Possible(sys, ev)
    ensures sys.bank.rows <= Serve(sys, ev).bank.rows
  {
    match ev {
      case FlushServed(i, closing, seen, outcome) =>
        FlushAppends(sys.bank, sys.sessions[i], Entry(sys.sessions[i].account.meter, closing), seen, outcome);
      case _ =>
    }
  }

  lemma MoveAppends(sys: System, ev: BillingEvent)
    ensures sys.bank.rows <= Billing.Move(sys, ev).bank.rows
  {
    if Billing.Possible(sys, ev) {
      ServeAppends(sys, ev);
    }
  }

  /** Rows whose key is there already are skipped. */
  function WithIntents(l: Entries, userId: string, intents: seq<P.LedgerIntent>): Entries {
    if intents == [] then l
    else
      var before, last := WithIntents(l, userId, intents[..|intents| - 1]), intents[|intents| - 1];
      if HasKey(before.rows, last.idempotencyKey) then before
      else Entries(before.rows + [P.RowOf(userId, last)], before.terms + [Given(last.expiresAt)])
  }

  function LiveColumns(l: Entries, seen: nat, userId: string, now: int): Columns
    requires Paired(l) && seen <= |l.rows|
  {
    var trial := Live(l, 0, seen, userId, Trial, now);
    var subscription := Live(l, 0, seen, userId, Subscription, now);
    var topup := Live(l, 0, seen, userId, Topup, now);
    Columns(trial, subscription, topup, trial + subscription + topup)
  }

  predicate CanRefresh(store: Store, ev: StoreEvent) {
    ev.Refresh? && Paired(LedgerOf(store)) && ev.seen <= |store.terms|
  }

  function Move(store: Store, ev: StoreEvent): Store {
    var bank := store.sys.bank;
    match ev
    case OfSession(e) =>
      var after := Billing.Move(store.sys, e);
      MoveAppends(store.sys, e);
      Store(after, store.terms + seq(|after.bank.rows| - |bank.rows|, _ => Usage))
    case Webhook(event, catalog, now) =>
      var l := WithIntents(LedgerOf(store), event.userId, P.IntentsForEvent(event, catalog, now).ledger);
      Store(store.sys.(bank := bank.(rows := l.rows)), l.terms)
    case Refresh(userId, seen, now) =>
      if CanRefresh(store, ev) then
        var columns := LiveColumns(LedgerOf(store), seen, userId, now);
        store.(sys := store.sys.(bank := bank.(columns := bank.columns[userId := columns])))
      else store
  }

  function Run(start: Store, events: seq<StoreEvent>): Store {
    if events == [] then start else Move(Run(start, events[..|events| - 1]), events[|events| - 1])
  }

  /** The last refresh of a user: what it saw of the ledger, how long the ledger was when it wrote, and its clock. */
  datatype LastRefresh = LastRefresh(seen: nat, at: nat, now: int)

  function RefreshOf(start: Store, events: seq<StoreEvent>, userId: string): Option<LastRefresh> {
    if events == [] then None
    else
      var front, last := events[..|events| - 1], events[|events| - 1];
      var store := Run(start, front);
      if CanRefresh(store, last) && last.userId == userId then
        Some(LastRefresh(last.seen, |store.terms|, last.now))
      else RefreshOf(start, front, userId)
  }

  /* Every step keeps the sessions' invariant: the keys of webhooks are no flush keys */

  lemma {:induction false} IntentsBook(l: Entries, userId: string, intents: seq<P.LedgerIntent>)
    requires Paired(l)
    ensures var m := WithIntents(l, userId, intents);
            Grows(l, m) && m.rows == InsertAll(l.rows, P.RowsOf(userId, intents))
            && forall k | |l.terms| <= k < |m.terms| :: m.terms[k].Given?
    decreases |intents|
  {
    var rows := P.RowsOf(userId, intents);
    if intents != [] {
      var front := intents[..|intents| - 1];
      IntentsBook(l, userId, front);
      assert rows[..|rows| - 1] == P.RowsOf(userId, front);
    }
  }

  lemma EventKeys(event: P.PaddleEvent, catalog: seq<P.CatalogEntry>, now: int, sid: string, n: nat, bucket: Bucket)
    ensures !HasKey(P.EventRows(event, catalog, now), FlushKey(sid, n, bucket))
  {
    var rows := P.EventRows(event, catalog, now);
    forall k | 0 <= k < |rows| ensures rows[k].key != FlushKey(sid, n, bucket) {
      P.EventRowIs(event, catalog, now, k);
      P.NoFlushKey(event.eventId, 0, sid, n, bucket);
      if event.eventType == "transaction.completed" {
        var i :| 0 <= i < |event.items| && P.GrantedAt(event, catalog, rows[k], i);
        P.NoFlushKey(event.eventId, i, sid, n, bucket);
      }
    }
  }

  lemma WebhookKeepsSystem(store: Store, event: P.PaddleEvent, catalog: seq<P.CatalogEntry>, now: int)
    requires SystemOk(store.sys) && Paired(LedgerOf(store))
    ensures SystemOk(Move(store, Webhook(event, catalog, now)).sys)
  {
    var after := Move(store, Webhook(event, catalog, now));
    IntentsBook(LedgerOf(store), event.userId, P.IntentsForEvent(event, catalog, now).ledger);
    var rows, more := store.sys.bank.rows, after.sys.bank.rows;
    forall sid, n: nat, bucket
      ensures HasKey(more, FlushKey(sid, n, bucket)) == HasKey(rows, FlushKey(sid, n, bucket))
    {
      InsertAllKeys(store.sys.bank.rows, P.EventRows(event, catalog, now), FlushKey(sid, n, bucket));
      EventKeys(event, catalog, now, sid, n, bucket);
    }
    forall i | 0 <= i < |store.sys.sessions| ensures SessionOk(after.sys.bank.rows, store.sys.sessions[i]) {
      SameKeysOk(store.sys.bank.rows, after.sys.bank.rows, store.sys.sessions[i]);
    }
  }

  lemma SameKeysOk(rows: seq<Row>, more: seq<Row>, s: Session)
    requires SessionOk(rows, s)
    requires forall sid, n: nat, bucket ::
               HasKey(more, FlushKey(sid, n, bucket)) == HasKey(rows, FlushKey(sid, n, bucket))
    ensures SessionOk(more, s)
  {
  }

  ghost predicate StoreOk(store: Store) {
    SystemOk(store.sys) && Paired(LedgerOf(store))
  }

  lemma MoveKeepsStore(store: Store, ev: StoreEvent)
    requires StoreOk(store)
    ensures StoreOk(Move(store, ev)) && Grows(LedgerOf(store), LedgerOf(Move(store, ev)))
  {
    match ev {
      case OfSession(e) =>
        MoveAppends(store.sys, e);
        MoveKeepsSystem(store.sys, e);
      case Webhook(event, catalog, now) =>
        WebhookKeepsSystem(store, event, catalog, now);
        IntentsBook(LedgerOf(store), event.userId, P.IntentsForEvent(event, catalog, now).ledger);
      case Refresh(_, _, _) =>
    }
  }

  ghost predicate Begins(start: Store) {
    Start(start.sys) && Paired(LedgerOf(start))
  }

  lemma {:induction false} RunKeepsStore(start: Store, events: seq<StoreEvent>)
    requires Begins(start)
    ensures StoreOk(Run(start, events)) && Grows(LedgerOf(start), LedgerOf(Run(start, events)))
    decreases |events|
  {
    if events == [] {
      StartIsOk(start.sys);
    } else {
      RunKeepsStore(start, events[..|events| - 1]);
      MoveKeepsStore(Run(start, events[..|events| - 1]), events[|events| - 1]);
    }
  }

  /* A balance, step by step */

  function Balance(store: Store, userId: string, bucket: Bucket): int {
    Column(Read(store.sys.bank, userId), bucket)
  }

  /** Without a refresh, a balance moves by what sessions used. */
  lemma MoveUses(store: Store, ev: StoreEvent, userId: string, bucket: Bucket)
    requires StoreOk(store) && !(CanRefresh(store, ev) && ev.userId == userId)
    ensures var after := Move(store, ev);
            StoreOk(after) && |store.terms| <= |after.terms|
            && Balance(after, userId, bucket)
               == Balance(store, userId, bucket)
                  + Used(LedgerOf(after), |store.terms|, |after.terms|, userId, bucket)
  {
    MoveKeepsStore(store, ev);
    match ev {
      case OfSession(e) => SessionUses(store, e, userId, bucket);
      case Webhook(event, catalog, now) =>
        var l := LedgerOf(store);
        IntentsBook(l, event.userId, P.IntentsForEvent(event, catalog, now).ledger);
        NoneUsed(LedgerOf(Move(store, ev)), |store.terms|, |Move(store, ev).terms|, userId, bucket);
      case Refresh(_, _, _) =>
    }
  }

  lemma SessionUses(store: Store, ev: BillingEvent, userId: string, bucket: Bucket)
    requires StoreOk(store)
    ensures var after := Move(store, OfSession(ev));
            Paired(LedgerOf(after)) && |store.terms| <= |after.terms|
            && Balance(after, userId, bucket)
               == Balance(store, userId, bucket)
                  + Used(LedgerOf(after), |store.terms|, |after.terms|, userId, bucket)
  {
    var after := Move(store, OfSession(ev));
    MoveAppends(store.sys, ev);
    MoveKeepsBalances(store.sys, ev, userId, bucket);
    AllUsed(LedgerOf(after), |store.terms|, |after.terms|, userId, bucket, 0);
    assert after.sys.bank.rows[..|after.terms|] == after.sys.bank.rows;
    assert after.sys.bank.rows[..|store.terms|] == store.sys.bank.rows;
  }

  lemma RefreshWrites(store: Store, userId: string, seen: nat, now: int, bucket: Bucket)
    requires Paired(LedgerOf(store)) && seen <= |store.terms|
    ensures var end := Move(store, Refresh(userId, seen, now));
            && LedgerOf(end) == LedgerOf(store)
            && Balance(end, userId, bucket) == Live(LedgerOf(store), 0, seen, userId, bucket, now)
  {
  }

  /** What a balance is: what the last refresh wrote, or what it was at the start, and all that sessions used since. */
  predicate BalanceIs(start: Store, events: seq<StoreEvent>, userId: string, bucket: Bucket)
    requires Paired(LedgerOf(Run(start, events)))
  {
    var store := Run(start, events);
    var l := LedgerOf(store);
    var last := RefreshOf(start, events, userId);
    if last.None? then
      Balance(store, userId, bucket)
      == Balance(start, userId, bucket) + Used(l, |start.terms|, |l.terms|, userId, bucket)
    else
      var r := last.value;
      && r.seen <= r.at <= |l.terms|
      && Balance(store, userId, bucket)
         == Live(l, 0, r.seen, userId, bucket, r.now) + Used(l, r.at, |l.terms|, userId, bucket)
  }

  lemma NothingUsed(start: Store, userId: string, bucket: Bucket)
    requires Begins(start)
    ensures StoreOk(Run(start, [])) && BalanceIs(start, [], userId, bucket)
  {
    StartIsOk(start.sys);
  }

  lemma RefreshStep(start: Store, events: seq<StoreEvent>, bucket: Bucket)
    requires events != []
    requires var front, last := events[..|events| - 1], events[|events| - 1];
             StoreOk(Run(start, front)) && CanRefresh(Run(start, front), last)
    ensures StoreOk(Run(start, events)) && BalanceIs(start, events, events[|events| - 1].userId, bucket)
  {
    var before, last := Run(start, events[..|events| - 1]), events[|events| - 1];
    MoveKeepsStore(before, last);
    RefreshWrites(before, last.userId, last.seen, last.now, bucket);
  }
  lemma OneMoreStep(start: Store, events: seq<StoreEvent>, userId: string, bucket: Bucket)
    requires events != []
    requires var front, last := events[..|events| - 1], events[|events| - 1];
             && StoreOk(Run(start, front)) && Grows(LedgerOf(start), LedgerOf(Run(start, front)))
             && BalanceIs(start, front, userId, bucket)
             && !(CanRefresh(Run(start, front), last) && last.userId == userId)
    ensures StoreOk(Run(start, events)) && BalanceIs(start, events, userId, bucket)
  {
    var front, last := events[..|events| - 1], events[|events| - 1];
    var l, m := LedgerOf(Run(start, front)), LedgerOf(Run(start, events));
    var r := RefreshOf(start, front, userId);
    MoveKeepsStore(Run(start, front), last);
    MoveUses(Run(start, front), last, userId, bucket);
    var from := if r.None? then |start.terms| else r.value.at;
    SumsStay(l, m, from, |l.terms|, userId, bucket, 0);
    UsedSplits(m, from, |l.terms|, |m.terms|, userId, bucket);
    if r.Some? {
      SumsStay(l, m, 0, r.value.seen, userId, bucket, r.value.now);
    }
  }
  lemma NextBalance(start: Store, events: seq<StoreEvent>, userId: string, bucket: Bucket)
    requires Begins(start) && events != []
    requires var front := events[..|events| - 1];
             StoreOk(Run(start, front)) && BalanceIs(start, front, userId, bucket)
    ensures StoreOk(Run(start, events)) && BalanceIs(start, events, userId, bucket)
  {
    var front, last := events[..|events| - 1], events[|events| - 1];
    if CanRefresh(Run(start, front), last) && last.userId == userId {
      RefreshStep(start, events, bucket);
    } else {
      RunKeepsStore(start, front);
      OneMoreStep(start, events, userId, bucket);
    }
  }

  /** Over every run of sessions, webhooks and refreshes, in any interleaving, with refreshes that write what they read
      however long ago: a balance is the live sum of the rows the user's last refresh saw, and what sessions used since
      that refresh wrote. */
  lemma {:induction false} BalanceSinceRefresh(start: Store, events: seq<StoreEvent>, userId: string, bucket: Bucket)
    requires Begins(start)
    ensures StoreOk(Run(start, events)) && BalanceIs(start, events, userId, bucket)
    decreases |events|
  {
    if events == [] {
      NothingUsed(start, userId, bucket);
    } else {
      BalanceSinceRefresh(start, events[..|events| - 1], userId, bucket);
      NextBalance(start, events, userId, bucket);
    }
  }

  /** And the total is the sum of the buckets, once refreshed; before that it is off by as much as at the start. */
  lemma {:induction false} TotalSinceRefresh(start: Store, events: seq<StoreEvent>, userId: string)
    requires Begins(start)
    ensures TotalDrift(Run(start, events).sys.bank, userId)
            == if RefreshOf(start, events, userId).Some? then 0 else TotalDrift(start.sys.bank, userId)
    decreases |events|
  {
    if events != [] {
      var front, last := events[..|events| - 1], events[|events| - 1];
      TotalSinceRefresh(start, front, userId);
      RunKeepsStore(start, front);
      MoveTotals(Run(start, front), last, userId);
    }
  }

  lemma MoveTotals(store: Store, ev: StoreEvent, userId: string)
    requires StoreOk(store)
    ensures TotalDrift(Move(store, ev).sys.bank, userId)
            == if CanRefresh(store, ev) && ev.userId == userId then 0 else TotalDrift(store.sys.bank, userId)
  {
    if ev.OfSession? {
      MoveKeepsBalances(store.sys, ev.ev, userId, Trial);
    }
  }

  /** The exact condition for a balance to be the live sum of the whole ledger, by the clock of the last refresh: what
      was committed between what that refresh read and when it wrote, and what was given since, come to nothing. */
  lemma UpToDateIff(start: Store, events: seq<StoreEvent>, userId: string, bucket: Bucket)
    requires Begins(start) && RefreshOf(start, events, userId).Some?
    ensures var r, store := RefreshOf(start, events, userId).value, Run(start, events);
            var l := LedgerOf(store);
            && Paired(l) && r.seen <= r.at <= |l.terms|
            && (Balance(store, userId, bucket) == Live(l, 0, |l.terms|, userId, bucket, r.now)
                <==> Live(l, r.seen, r.at, userId, bucket, r.now)
                     + GivenLive(l, r.at, |l.terms|, userId, bucket, r.now) == 0)
  {
    BalanceSinceRefresh(start, events, userId, bucket);
    var r, l := RefreshOf(start, events, userId).value, LedgerOf(Run(start, events));
    LiveSplits(l, 0, r.seen, |l.terms|, userId, bucket, r.now);
    LiveSplits(l, r.seen, r.at, |l.terms|, userId, bucket, r.now);
  }

  /** What a flush adds to the ledger is what its plan takes. */
  lemma FlushAdds(store: Store, i: nat, closing: bool, seen: Columns, bucket: Bucket)
    requires StoreOk(store) && Billing.Possible(store.sys, FlushServed(i, closing, seen, Fine))
    requires Entry(store.sys.sessions[i].account.meter, closing).credits > 0
    ensures var s := store.sys.sessions[i];
            var rows := Billing.Move(store.sys, FlushServed(i, closing, seen, Fine)).bank.rows;
            BalanceOf(rows, s.userId, bucket)
            == BalanceOf(store.sys.bank.rows, s.userId, bucket)
               - AmountOf(Plan(Buckets(seen), Entry(s.account.meter, closing).credits).perBucket, bucket)
  {
    var s := store.sys.sessions[i];
    var entry := Entry(s.account.meter, closing);
    var parts := Plan(Buckets(seen), entry.credits).perBucket;
    assert SessionOk(store.sys.bank.rows, s) && !Past(s.account.meter, entry.sequence);
    PlanIsTidy(Buckets(seen), entry.credits);
    InsertPartsBalance(store.sys.bank.rows, s.userId, s.id, entry.sequence, parts, s.userId, bucket);
  }

  /** The live sum falls by what a flush adds. */
  lemma FlushLowersLive(store: Store, i: nat, closing: bool, seen: Columns, now: int, bucket: Bucket)
    requires StoreOk(store) && Billing.Possible(store.sys, FlushServed(i, closing, seen, Fine))
    requires Entry(store.sys.sessions[i].account.meter, closing).credits > 0
    ensures var s := store.sys.sessions[i];
            var l := LedgerOf(Move(store, OfSession(FlushServed(i, closing, seen, Fine))));
            && Paired(l) && |store.terms| <= |l.terms|
            && Live(l, 0, |l.terms|, s.userId, bucket, now)
               == Live(l, 0, |store.terms|, s.userId, bucket, now)
                  - AmountOf(Plan(Buckets(seen), Entry(s.account.meter, closing).credits).perBucket, bucket)
  {
    var flush := FlushServed(i, closing, seen, Fine);
    var userId, n := store.sys.sessions[i].userId, |store.terms|;
    var l := LedgerOf(Move(store, OfSession(flush)));
    MoveKeepsStore(store, OfSession(flush));
    FlushAdds(store, i, closing, seen, bucket);
    AllUsed(l, n, |l.terms|, userId, bucket, now);
    LiveSplits(l, 0, n, |l.terms|, userId, bucket, now);
    assert l.rows[..|l.terms|] == l.rows && l.rows[..n] == store.sys.bank.rows;
  }

  /** A refresh that read the ledger before a flush was committed, and writes after it, gives the credits back: every
      bucket that paid stands above its live sum by what it paid. */
  lemma RefreshForgetsFlush(store: Store, i: nat, closing: bool, seen: Columns, now: int, bucket: Bucket)
    requires StoreOk(store) && Billing.Possible(store.sys, FlushServed(i, closing, seen, Fine))
    requires Entry(store.sys.sessions[i].account.meter, closing).credits > 0
    ensures var s := store.sys.sessions[i];
            var flushed := Move(store, OfSession(FlushServed(i, closing, seen, Fine)));
            var end := Move(flushed, Refresh(s.userId, |store.terms|, now));
            var l := LedgerOf(end);
            && Paired(l)
            && Balance(end, s.userId, bucket)
               == Live(l, 0, |l.terms|, s.userId, bucket, now)
                  + AmountOf(Plan(Buckets(seen), Entry(s.account.meter, closing).credits).perBucket, bucket)
  {
    var flushed := Move(store, OfSession(FlushServed(i, closing, seen, Fine)));
    FlushLowersLive(store, i, closing, seen, now, bucket);
    RefreshWrites(flushed, store.sys.sessions[i].userId, |store.terms|, now, bucket);
  }
}
