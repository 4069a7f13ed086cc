/** What sessions may still take out of a balance, and when no credit is promised twice. */
module Promises {
  import opened Ledger
  import opened Metering
  import opened MeterRuns
  import opened Bank
  import opened Billing
  import opened BillingRuns
  import opened Holds

  /** What a session may still take: what is reserved and not spent, and what is spent and not yet in the ledger. */
  function Promised(s: Session): int {
    Remaining(s.account.meter) + s.account.meter.pendingCredits + InFlight(s.account.meter)
  }

  /** What is on hold for a session and of no use to it: grants it never heard of, flushes that failed or were not
      covered, releases that failed or are on their way. */
  function Losses(s: Session): int {
    s.lostGrants + s.unlowered + s.lostReleases + InRelease(s.account.meter)
  }

  /* Sums over the sessions of a user */

  function PromisedTo(sessions: seq<Session>, user: string): int {
    if sessions == [] then 0
    else
      var last := sessions[|sessions| - 1];
      PromisedTo(sessions[..|sessions| - 1], user) + If(last.userId == user, Promised(last))
  }

  function StartedWith(sessions: seq<Session>, user: string): int {
    if sessions == [] then 0
    else
      var last := sessions[|sessions| - 1];
      StartedWith(sessions[..|sessions| - 1], user) + If(last.userId == user, last.options.reserved)
  }

  function LostBy(sessions: seq<Session>, user: string): int {
    if sessions == [] then 0
    else
      var last := sessions[|sessions| - 1];
      LostBy(sessions[..|sessions| - 1], user) + If(last.userId == user, Losses(last))
  }

  function LapsedBy(sessions: seq<Session>, user: string): int {
    if sessions == [] then 0
    else
      var last := sessions[|sessions| - 1];
      LapsedBy(sessions[..|sessions| - 1], user) + If(last.userId == user, last.lapsed)
  }

  /** A session is promised what it started with and what it put on hold, whether or not that lapsed, less what was
      lost. */
  lemma PromisedIs(s: Session)
    requires Sound(s.options, s.account) && HoldAgrees(s)
    ensures Promised(s) == s.options.reserved + s.held + s.lapsed - Losses(s)
  {
  }

  lemma {:induction false} PromisedToIs(sessions: seq<Session>, user: string)
    requires forall i | 0 <= i < |sessions| ::
               Sound(sessions[i].options, sessions[i].account) && HoldAgrees(sessions[i])
    ensures PromisedTo(sessions, user)
            == StartedWith(sessions, user) + HeldBy(sessions, user) + LapsedBy(sessions, user) - LostBy(sessions, user)
    decreases |sessions|
  {
    if sessions != [] {
      PromisedToIs(sessions[..|sessions| - 1], user);
      PromisedIs(sessions[|sessions| - 1]);
    }
  }

  lemma {:induction false} StartedWithSame(now: seq<Session>, start: seq<Session>, user: string)
    requires |now| == |start|
    requires forall i | 0 <= i < |now| :: now[i].userId == start[i].userId && now[i].options == start[i].options
    ensures StartedWith(now, user) == StartedWith(start, user)
    decreases |now|
  {
    if now != [] {
      StartedWithSame(now[..|now| - 1], start[..|start| - 1], user);
    }
  }

  /* Nothing lost is ever won back */

  predicate LossesCount(s: Session) {
    s.lostGrants >= 0 && s.unlowered >= 0 && s.lostReleases >= 0 && ReleasesCredits(s.account.meter)
  }

  lemma ReserveLosses(bank: Bank, s: Session, available: int, outcome: Outcome)
    requires s.account.meter.tick.TopUpWaiting? && LossesCount(s)
    ensures LossesCount(ServeReserve(bank, s, available, outcome).session)
  {
    var granted := GrantFor(s.account.meter.tick.want, available);
    NextDrops(s.options, s.account, ReserveAnswer(granted, available, outcome));
  }

  lemma FlushLosses(bank: Bank, s: Session, closing: bool, seen: Columns, outcome: Outcome)
    requires Waiting(s.account.meter, closing) && LossesCount(s)
    ensures LossesCount(ServeFlush(bank, s, closing, seen, outcome).session)
  {
    var credits := Entry(s.account.meter, closing).credits;
    PlanMeaning(Buckets(seen), credits);
    NextDrops(s.options, s.account, Billing.Reply(closing, credits <= 0 || outcome.Fine?));
  }

  lemma ReleaseLosses(bank: Bank, s: Session, outcome: Outcome)
    requires s.account.meter.close.Releasing? && LossesCount(s)
    ensures LossesCount(ServeRelease(bank, s, outcome).session)
  {
    NextDrops(s.options, s.account, ReleaseReply(outcome.Fine?));
  }

  lemma ServeLosses(sys: System, ev: BillingEvent)
    requires Possible(sys, ev) && LossesCount(sys.sessions[ev.i])
    ensures LossesCount(Serve(sys, ev).session)
  {
    var s := sys.sessions[ev.i];
    match ev {
      case MeterTurn(_, e) => NextDrops(s.options, s.account, e);
      case ReserveServed(_, available, outcome) => ReserveLosses(sys.bank, s, available, outcome);
      case FlushServed(_, closing, seen, outcome) => FlushLosses(sys.bank, s, closing, seen, outcome);
      case ReleaseServed(_, outcome) => ReleaseLosses(sys.bank, s, outcome);
      case HoldLapses(_, _) =>
    }
  }

  predicate AllLossesCount(sessions: seq<Session>) {
    forall i | 0 <= i < |sessions| :: LossesCount(sessions[i])
  }

  lemma {:induction false} RunLosses(start: System, events: seq<BillingEvent>)
    requires Start(start)
    ensures AllLossesCount(Run(start, events).sessions)
    decreases |events|
  {
    if events != [] {
      var before, last := Run(start, events[..|events| - 1]), events[|events| - 1];
      RunLosses(start, events[..|events| - 1]);
      if Possible(before, last) {
        ServeLosses(before, last);
      }
    }
  }

  lemma {:induction false} LostByIsLoss(sessions: seq<Session>, user: string)
    requires AllLossesCount(sessions)
    ensures LostBy(sessions, user) >= 0
    decreases |sessions|
  {
    if sessions != [] {
      LostByIsLoss(sessions[..|sessions| - 1], user);
    }
  }

  /* What is promised is what is on hold */

  /** Over every run, whatever gateway calls read and however they fail: what a user's sessions are promised is what is
      on hold, more by what they started with beyond the hold there was and by what lapsed, less by what was lost. */
  lemma PromisesFollowHold(start: System, events: seq<BillingEvent>, user: string)
    requires Start(start)
    ensures var now := Run(start, events);
            && PromisedTo(now.sessions, user)
               == Hold(now.bank, user) + StartedWith(start.sessions, user) - Hold(start.bank, user)
                  + LapsedBy(now.sessions, user) - LostBy(now.sessions, user)
            && LostBy(now.sessions, user) >= 0
  {
    var now := Run(start, events);
    RunIsOk(start, events);
    assert forall i | 0 <= i < |now.sessions| :: SessionOk(now.bank.rows, now.sessions[i]);
    PromisedToIs(now.sessions, user);
    HoldIsSumOfSessions(start, events, user);
    SessionsStay(start, events);
    StartedWithSame(now.sessions, start.sessions, user);
    RunLosses(start, events);
    LostByIsLoss(now.sessions, user);
  }

  predicate AllFair(sessions: seq<Session>) {
    forall j | 0 <= j < |sessions| :: Promised(sessions[j]) >= 0
  }

  lemma {:induction false} PromisedPart(sessions: seq<Session>, i: nat, user: string)
    requires AllFair(sessions) && i <= |sessions|
    ensures PromisedTo(sessions, user)
            >= if i < |sessions| && sessions[i].userId == user then Promised(sessions[i]) else 0
    decreases |sessions|
  {
    if sessions != [] {
      var n := |sessions| - 1;
      PromisedPart(sessions[..n], if i < n then i else n, user);
    }
  }

  lemma PromisesAreFair(start: System, events: seq<BillingEvent>)
    requires Start(start)
    ensures AllFair(Run(start, events).sessions)
  {
    var now := Run(start, events);
    RunIsOk(start, events);
    forall i | 0 <= i < |now.sessions| ensures Promised(now.sessions[i]) >= 0 {
      assert SessionOk(now.bank.rows, now.sessions[i]);
    }
  }

  /** The hold was written often enough. */
  predicate NoLapse(events: seq<BillingEvent>) {
    forall ev | ev in events :: !ev.HoldLapses?
  }

  predicate NothingLapsed(sessions: seq<Session>) {
    forall i | 0 <= i < |sessions| :: sessions[i].lapsed == 0
  }

  lemma {:induction false} RunKeepsHolds(start: System, events: seq<BillingEvent>)
    requires Start(start) && NoLapse(events)
    ensures NothingLapsed(Run(start, events).sessions)
    decreases |events|
  {
    if events != [] {
      RunKeepsHolds(start, events[..|events| - 1]);
    }
  }

  lemma {:induction false} LapsedByNone(sessions: seq<Session>, user: string)
    requires NothingLapsed(sessions)
    ensures LapsedBy(sessions, user) == 0
    decreases |sessions|
  {
    if sessions != [] {
      LapsedByNone(sessions[..|sessions| - 1], user);
    }
  }

  /** No credit is promised twice: together the sessions of a user may take no more than the user has. */
  predicate Kept(sys: System, user: string) {
    PromisedTo(sys.sessions, user) <= Credit(sys.bank, user)
  }

  /** As long as gateway calls read what is current, holds do not lapse, and what sessions started with was on hold from
      the start, no credit is ever promised to two sessions. */
  lemma NoDoublePromise(start: System, events: seq<BillingEvent>, user: string)
    requires Start(start) && AllCurrent(start, events) && NoLapse(events) && Backed(start.bank, user)
    requires StartedWith(start.sessions, user) <= Hold(start.bank, user)
    ensures Kept(Run(start, events), user)
  {
    PromisesFollowHold(start, events, user);
    RunKeepsHolds(start, events);
    LapsedByNone(Run(start, events).sessions, user);
    HoldIsBacked(start, events, user);
  }
}
