/** What a user's hold says, and when the user's balance covers it. */
module Holds {
  import opened Ledger
  import opened Metering
  import opened MeterRuns
  import opened Bank
  import opened Billing
  import opened BillingRuns

  /* The hold of one session when gateway calls happen entirely or not at all */

  /** No call fails half way, the release is made, and the hold is kept. */
  predicate Whole(ev: BillingEvent) {
    match ev
    case MeterTurn(_, _) => true
    case ReserveServed(_, _, outcome) => outcome.Fine? || outcome.Untouched?
    case FlushServed(_, _, _, outcome) => outcome.Fine? || outcome.Untouched?
    case ReleaseServed(_, outcome) => outcome.Fine?
    case HoldLapses(_, _) => false
  }

  /** What a flush of session `i` was asked for and the balances could not cover. */
  function ShortOf(sys: System, ev: BillingEvent, i: nat): int {
    if Possible(sys, ev) && ev.FlushServed? && ev.outcome.Fine? && ev.i == i then
      var credits := Entry(sys.sessions[i].account.meter, ev.closing).credits;
      if credits > 0 then Plan(Buckets(ev.seen), credits).shortfall else 0
    else 0
  }

  function Uncovered(start: System, events: seq<BillingEvent>, i: nat): int {
    if events == [] then 0
    else
      var before, last := events[..|events| - 1], events[|events| - 1];
      Uncovered(start, before, i) + ShortOf(Run(start, before), last, i)
  }

  predicate ReleasesCredits(m: MeterState) {
    m.close.Releasing? ==> m.close.amount > 0
  }

  predicate Explained(s: Session, uncovered: int) {
    && s.unlowered == s.account.books.dropped + uncovered && s.lostGrants == s.lostReleases == s.lapsed == 0
    && ReleasesCredits(s.account.meter)
  }

  /** Only a failed flush drops credits. */
  lemma NextDrops(o: MeterOptions, a: Account, e: MeterEvent)
    requires Allowed(a, e) && ReleasesCredits(a.meter)
    ensures Next(o, a, e).books.dropped == a.books.dropped + Answered(a.meter, e, false)
    ensures ReleasesCredits(Next(o, a, e).meter)
  {
  }

  lemma ReserveExplained(bank: Bank, s: Session, available: int, outcome: Outcome, uncovered: int)
    requires s.account.meter.tick.TopUpWaiting? && Explained(s, uncovered) && (outcome.Fine? || outcome.Untouched?)
    ensures Explained(ServeReserve(bank, s, available, outcome).session, uncovered)
  {
    var granted := GrantFor(s.account.meter.tick.want, available);
    NextDrops(s.options, s.account, ReserveAnswer(granted, available, outcome));
  }

  lemma FlushExplained(bank: Bank, s: Session, closing: bool, seen: Columns, outcome: Outcome, uncovered: int)
    requires Waiting(s.account.meter, closing) && Explained(s, uncovered) && (outcome.Fine? || outcome.Untouched?)
    ensures var credits := Entry(s.account.meter, closing).credits;
            Explained(ServeFlush(bank, s, closing, seen, outcome).session,
                      uncovered + if credits > 0 && outcome.Fine? then Plan(Buckets(seen), credits).shortfall else 0)
  {
    NextDrops(s.options, s.account, Reply(closing, Entry(s.account.meter, closing).credits <= 0 || outcome.Fine?));
  }

  lemma ReleaseExplained(bank: Bank, s: Session, uncovered: int)
    requires s.account.meter.close.Releasing? && Explained(s, uncovered)
    ensures Explained(ServeRelease(bank, s, Fine).session, uncovered)
  {
    NextDrops(s.options, s.account, ReleaseReply(true));
  }

  lemma ServeExplained(sys: System, ev: BillingEvent, uncovered: int)
    requires Possible(sys, ev) && Whole(ev) && Explained(sys.sessions[ev.i], uncovered)
    ensures Explained(Serve(sys, ev).session, uncovered + ShortOf(sys, ev, ev.i))
  {
    var s := sys.sessions[ev.i];
    match ev {
      case MeterTurn(_, e) => NextDrops(s.options, s.account, e);
      case ReserveServed(_, available, outcome) => ReserveExplained(sys.bank, s, available, outcome, uncovered);
      case FlushServed(_, closing, seen, outcome) => FlushExplained(sys.bank, s, closing, seen, outcome, uncovered);
      case ReleaseServed(_, _) => ReleaseExplained(sys.bank, s, uncovered);
    }
  }

  predicate AllWhole(events: seq<BillingEvent>) {
    forall ev | ev in events :: Whole(ev)
  }

  lemma {:induction false} RunExplained(start: System, events: seq<BillingEvent>, i: nat)
    requires Start(start) && AllWhole(events) && i < |start.sessions|
    ensures |Run(start, events).sessions| == |start.sessions|
    ensures Explained(Run(start, events).sessions[i], Uncovered(start, events, i))
    decreases |events|
  {
    if events != [] {
      var before, last := events[..|events| - 1], events[|events| - 1];
      RunExplained(start, before, i);
      if Possible(Run(start, before), last) && last.i == i {
        ServeExplained(Run(start, before), last, Uncovered(start, before, i));
      }
    }
  }

  /** When no gateway call fails half way and no top-up was in flight at the settlement, a finished session has changed
      the hold by the credits of its failed and its uncovered flushes minus its initial reservation: to the credit. */
  lemma SessionHold(start: System, events: seq<BillingEvent>, i: nat)
    requires Start(start) && AllWhole(events) && i < |start.sessions|
    ensures |Run(start, events).sessions| == |start.sessions|
    ensures var s := Run(start, events).sessions[i];
            Finished(s.account.meter) && !s.account.books.topUpAtSettle ==>
              s.held == s.account.books.dropped + Uncovered(start, events, i) - start.sessions[i].options.reserved
  {
    RunExplained(start, events, i);
    RunIsOk(start, events);
    FinishedHold(start, events, i);
  }

  /* What is on hold is covered */

  function Credit(bank: Bank, user: string): int {
    TotalAvailable(Buckets(Read(bank, user)))
  }

  function Free(bank: Bank, user: string): int {
    Credit(bank, user) - Hold(bank, user)
  }

  /** Everything on hold for the user is covered by the user's balance. */
  predicate Backed(bank: Bank, user: string) {
    Hold(bank, user) <= Credit(bank, user)
  }

  /** The exact condition for a grant to be backed: what the reservation read as available was no more than what is free
      by the time it takes hold, or it asks for no more than that. */
  lemma GrantIsBackedIff(bank: Bank, s: Session, available: int, outcome: Outcome)
    requires s.account.meter.tick.TopUpWaiting? && Backed(bank, s.userId) && TookEffect(outcome)
    ensures Backed(ServeReserve(bank, s, available, outcome).bank, s.userId)
            <==> available <= Free(bank, s.userId) || s.account.meter.tick.want <= Free(bank, s.userId)
  {
  }

  /** Calls that read what is current and do not fail between ledger and hold. */
  predicate Current(sys: System, ev: BillingEvent) {
    Possible(sys, ev) ==>
      match ev
      case ReserveServed(i, available, _) => available <= Free(sys.bank, sys.sessions[i].userId)
      case FlushServed(i, _, seen, outcome) => seen == Read(sys.bank, sys.sessions[i].userId) && outcome != Written
      case _ => true
  }

  predicate AllCurrent(start: System, events: seq<BillingEvent>) {
    forall k | 0 <= k < |events| :: Current(Run(start, events[..k]), events[k])
  }

  /** Spending a plan made on the balance itself lowers what is available by what it covers. */
  lemma SpendLowersCredit(c: Columns, amount: int)
    ensures TotalAvailable(Buckets(Spend(c, Plan(Buckets(c), amount))))
            == TotalAvailable(Buckets(c)) - Plan(Buckets(c), amount).covered
  {
    var plan := Plan(Buckets(c), amount);
    var spent := Spend(c, plan);
    PlanMeaning(Buckets(c), amount);
    forall b: Bucket ensures Available(Buckets(spent), b) == Available(Buckets(c), b) - AmountOf(plan.perBucket, b) {
      BalanceInBuckets(c, b);
      BalanceInBuckets(spent, b);
    }
  }

  lemma FlushKeepsBacked(bank: Bank, s: Session, entry: FlushEntry, outcome: Outcome, user: string)
    requires Backed(bank, user) && outcome != Written
    ensures Backed(FlushBank(bank, s, entry, Read(bank, s.userId), outcome), user)
  {
    SpendLowersCredit(Read(bank, s.userId), entry.credits);
    if s.userId !in bank.columns {
      NothingToSpend(entry.credits, Trial);
    }
  }

  lemma MoveKeepsBacked(sys: System, ev: BillingEvent, user: string)
    requires Current(sys, ev) && Backed(sys.bank, user)
    ensures Backed(Move(sys, ev).bank, user)
  {
    if Possible(sys, ev) {
      var s := sys.sessions[ev.i];
      match ev {
        case MeterTurn(_, _) =>
        case ReserveServed(_, available, outcome) =>
        case FlushServed(_, closing, seen, outcome) =>
          FlushKeepsBacked(sys.bank, s, Entry(s.account.meter, closing), outcome, user);
        case ReleaseServed(_, outcome) =>
        case HoldLapses(_, _) => LapseKeepsBacked(sys.bank, s, user);
      }
    }
  }

  /** Nothing on hold is always covered. */
  lemma LapseKeepsBacked(bank: Bank, s: Session, user: string)
    requires Backed(bank, user)
    ensures Backed(LapseHold(bank, s).bank, user)
  {
    PositiveSumIsAvailable(Read(bank, user));
    PositiveSumIsPositive(Buckets(Read(bank, user)));
  }

  lemma {:induction false} PositiveSumIsPositive(balances: seq<BucketBalance>)
    ensures PositiveSum(balances) >= 0
    decreases |balances|
  {
    if balances != [] {
      PositiveSumIsPositive(balances[..|balances| - 1]);
    }
  }

  /** As long as every gateway call reads current balances and holds, what is on hold for a user stays within the user's
      balance, over every run of any number of sessions. */
  lemma {:induction false} HoldIsBacked(start: System, events: seq<BillingEvent>, user: string)
    requires AllCurrent(start, events) && Backed(start.bank, user)
    ensures Backed(Run(start, events).bank, user)
    decreases |events|
  {
    if events != [] {
      var before, last := events[..|events| - 1], events[|events| - 1];
      assert forall k | 0 <= k < |before| :: before[..k] == events[..k] && before[k] == events[k];
      HoldIsBacked(start, before, user);
      assert Current(Run(start, before), last);
      MoveKeepsBacked(Run(start, before), last, user);
    }
  }

  /* A hold below zero */

  /** A session that is closed before its first tick. */
  function UnusedRun(i: nat, at: int): seq<BillingEvent> {
    [MeterTurn(i, CloseStart(at))] + [MeterTurn(i, CloseSettle)] + [ReleaseServed(i, Fine)]
  }

  lemma UnusedSettles(o: MeterOptions)
    requires o.reserved > 0
    ensures var a := Begin(o);
            var b := Next(o, a, CloseStart(o.startedAt));
            var c := Next(o, b, CloseSettle);
            && Allowed(a, CloseStart(o.startedAt)) && Allowed(b, CloseSettle)
            && c.meter.close == Releasing(o.reserved) && c.meter.tick.TickIdle?
            && Finished(Next(o, c, ReleaseReply(true)).meter)
  {
  }

  lemma ClosesAtOnce(start: System, i: nat)
    requires i < |start.sessions| && Fresh(start.sessions[i]) && start.sessions[i].options.reserved > 0
    ensures var s := start.sessions[i];
            var closing := Advance(Advance(s, CloseStart(s.options.startedAt)), CloseSettle);
            var sys := System(start.bank, start.sessions[i := closing]);
            && Move(Move(start, MeterTurn(i, CloseStart(s.options.startedAt))), MeterTurn(i, CloseSettle)) == sys
            && Possible(sys, ReleaseServed(i, Fine)) && closing.account.meter.close.amount == s.options.reserved
  {
    UnusedSettles(start.sessions[i].options);
  }

  lemma ReleasesAll(sys: System, i: nat)
    requires Possible(sys, ReleaseServed(i, Fine)) && sys.sessions[i].account.meter.close.amount > 0
    ensures var s, now := sys.sessions[i], Move(sys, ReleaseServed(i, Fine));
            && |now.sessions| == |sys.sessions|
            && now.sessions[i].account == Next(s.options, s.account, ReleaseReply(true))
            && Hold(now.bank, s.userId) == Hold(sys.bank, s.userId) - s.account.meter.close.amount
  {
  }

  /** The hold of a user does become negative: a session closed before its first tick takes off the hold all it started
      with, and nobody had put that there. */
  lemma UnusedSessionLowersHold(start: System, i: nat)
    requires i < |start.sessions| && Fresh(start.sessions[i]) && start.sessions[i].options.reserved > 0
    ensures var s := start.sessions[i];
            var now := Run(start, UnusedRun(i, s.options.startedAt));
            && |now.sessions| == |start.sessions| && Finished(now.sessions[i].account.meter)
            && Hold(now.bank, s.userId) == Hold(start.bank, s.userId) - s.options.reserved
    ensures AllCurrent(start, UnusedRun(i, start.sessions[i].options.startedAt))
    ensures AllWhole(UnusedRun(i, start.sessions[i].options.startedAt))
  {
    UnusedReadsNothing(start, i, start.sessions[i].options.startedAt);
    UnusedRunEnds(start, i);
  }

  lemma UnusedReadsNothing(start: System, i: nat, at: int)
    ensures AllCurrent(start, UnusedRun(i, at)) && AllWhole(UnusedRun(i, at))
  {
  }

  lemma UnusedRunEnds(start: System, i: nat)
    requires i < |start.sessions| && Fresh(start.sessions[i]) && start.sessions[i].options.reserved > 0
    ensures var s := start.sessions[i];
            var now := Run(start, UnusedRun(i, s.options.startedAt));
            && |now.sessions| == |start.sessions| && Finished(now.sessions[i].account.meter)
            && Hold(now.bank, s.userId) == Hold(start.bank, s.userId) - s.options.reserved
  {
    var s := start.sessions[i];
    var one, two := MeterTurn(i, CloseStart(s.options.startedAt)), MeterTurn(i, CloseSettle);
    UnusedSettles(s.options);
    ClosesAtOnce(start, i);
    RunTwo(start, one, two);
    RunNext(start, [one] + [two], ReleaseServed(i, Fine));
    ReleasesAll(Move(Move(start, one), two), i);
  }

  /* Two reservations that both read before either takes hold */

  const THIN: MeterOptions := MeterOptions(BurnConfig(0, false), 0, 0, 0)
  const WINDOW: int := 10_020

  function NewSession(id: string): Session {
    Session(id, "user", THIN, Begin(THIN), 0, 0, 0, 0, 0)
  }

  const TWO_SESSIONS: System :=
    System(Bank([], map["user" := Columns(0, 0, WINDOW, WINDOW)], map[]), [NewSession("a"), NewSession("b")])

  const FIRST_TICKS := MeterTurn(0, TickStart(0))
  const SECOND_TICKS := MeterTurn(1, TickStart(0))
  const FIRST_RESERVES := ReserveServed(0, WINDOW, Fine)
  const SECOND_RESERVES := ReserveServed(1, WINDOW, Fine)

  const RACE: seq<BillingEvent> := [FIRST_TICKS] + [SECOND_TICKS] + [FIRST_RESERVES] + [SECOND_RESERVES]

  function Ticked(id: string): Session {
    Advance(NewSession(id), TickStart(0))
  }

  lemma FirstTickReserves(id: string)
    ensures Allowed(Begin(THIN), TickStart(0)) && Ticked(id).account.meter.tick == TopUpWaiting(0, WINDOW)
  {
    assert Rate(THIN) == 167;
  }

  lemma BothTick(one: System, two: System)
    requires one == Move(TWO_SESSIONS, FIRST_TICKS) && two == Move(one, SECOND_TICKS)
    ensures two == System(TWO_SESSIONS.bank, [Ticked("a"), Ticked("b")])
  {
    FirstTickReserves("a");
    FirstTickReserves("b");
  }

  lemma GrantWindow(sys: System, i: nat, id: string)
    requires i < |sys.sessions| && sys.sessions[i] == Ticked(id)
    ensures var after := Move(sys, ReserveServed(i, WINDOW, Fine));
            && after.bank == AddToHold(sys.bank, "user", WINDOW)
            && |after.sessions| == |sys.sessions|
            && forall j | 0 <= j < |sys.sessions| && j != i :: after.sessions[j] == sys.sessions[j]
  {
    FirstTickReserves(id);
  }

  lemma RunNext(start: System, events: seq<BillingEvent>, ev: BillingEvent)
    ensures Run(start, events + [ev]) == Move(Run(start, events), ev)
  {
    assert (events + [ev])[..|events|] == events;
  }

  lemma RunTwo(start: System, a: BillingEvent, b: BillingEvent)
    ensures Run(start, [a] + [b]) == Move(Move(start, a), b)
  {
    assert [a][..0] == [];
    RunNext(start, [a], b);
  }

  lemma RunFour(start: System, a: BillingEvent, b: BillingEvent, c: BillingEvent, d: BillingEvent)
    ensures Run(start, [a] + [b] + [c] + [d]) == Move(Move(Move(Move(start, a), b), c), d)
  {
    RunTwo(start, a, b);
    RunNext(start, [a] + [b], c);
    RunNext(start, [a] + [b] + [c], d);
  }

  lemma TwoSessionsAreNew()
    ensures Start(TWO_SESSIONS)
  {
    assert NewSession("a").id != NewSession("b").id;
  }

  lemma CreditIsWindow(bank: Bank)
    requires bank.columns == TWO_SESSIONS.bank.columns
    ensures Credit(bank, "user") == WINDOW
  {
    BalanceInBuckets(Read(bank, "user"), Trial);
    BalanceInBuckets(Read(bank, "user"), Subscription);
    BalanceInBuckets(Read(bank, "user"), Topup);
  }

  lemma RaceEnds()
    ensures Run(TWO_SESSIONS, RACE).bank == AddToHold(AddToHold(TWO_SESSIONS.bank, "user", WINDOW), "user", WINDOW)
  {
    var one := Move(TWO_SESSIONS, FIRST_TICKS);
    var two := Move(one, SECOND_TICKS);
    BothTick(one, two);
    GrantWindow(two, 0, "a");
    GrantWindow(Move(two, FIRST_RESERVES), 1, "b");
    RunFour(TWO_SESSIONS, FIRST_TICKS, SECOND_TICKS, FIRST_RESERVES, SECOND_RESERVES);
  }

  /** Both reservations read the same free balance, and the hold ends at twice the user's credits. */
  lemma StaleReadsPromiseTwice()
    ensures Start(TWO_SESSIONS) && Backed(TWO_SESSIONS.bank, "user") && Free(TWO_SESSIONS.bank, "user") == WINDOW
    ensures Hold(Run(TWO_SESSIONS, RACE).bank, "user") == 2 * WINDOW && !Backed(Run(TWO_SESSIONS, RACE).bank, "user")
  {
    TwoSessionsAreNew();
    RaceEnds();
    CreditIsWindow(TWO_SESSIONS.bank);
    CreditIsWindow(Run(TWO_SESSIONS, RACE).bank);
  }
}
