/** Whole runs of sessions: balances follow the ledger, holds what the sessions made of them. */
module BillingRuns {
  import opened Ledger
  import opened LedgerTable
  import opened Metering
  import opened MeterRuns
  import opened Bank
  import opened Billing

  /** The system at its start: new sessions with ids of their own, none of whose flushes is in the ledger. */
  ghost predicate Start(sys: System) {
    && (forall i | 0 <= i < |sys.sessions| :: Fresh(sys.sessions[i]))
    && (forall i, j | 0 <= i < j < |sys.sessions| :: sys.sessions[i].id != sys.sessions[j].id)
    && (forall i, n: nat, bucket | 0 <= i < |sys.sessions| ::
        !HasKey(sys.bank.rows, FlushKey(sys.sessions[i].id, n, bucket)))
  }

  lemma StartIsOk(sys: System)
    requires Start(sys)
    ensures SystemOk(sys)
  {
    forall i | 0 <= i < |sys.sessions| ensures SessionOk(sys.bank.rows, sys.sessions[i]) {
      var s := sys.sessions[i];
      RunSound(s.options, []);
      assert s.account == Begin(s.options);
    }
  }

  lemma {:induction false} RunIsOk(start: System, events: seq<BillingEvent>)
    requires Start(start)
    ensures SystemOk(Run(start, events))
    decreases |events|
  {
    if events == [] {
      StartIsOk(start);
    } else {
      RunIsOk(start, events[..|events| - 1]);
      MoveKeepsSystem(Run(start, events[..|events| - 1]), events[|events| - 1]);
    }
  }

  lemma MoveKeepsBalances(sys: System, ev: BillingEvent, user: string, bucket: Bucket)
    requires SystemOk(sys)
    ensures SameDrift(Move(sys, ev).bank, sys.bank, user, bucket)
    ensures TotalDrift(Move(sys, ev).bank, user) == TotalDrift(sys.bank, user)
  {
    if Possible(sys, ev) {
      EventServes(sys, ev);
    }
  }

  /** However sessions, flushes and failures interleave, and however stale the balances they were planned on, every
      bucket column moves exactly as the ledger sum of its bucket, and the total as the sum of the buckets. */
  lemma {:induction false} BalancesFollowLedger(start: System, events: seq<BillingEvent>, user: string, bucket: Bucket)
    requires Start(start)
    ensures var bank := Run(start, events).bank;
            && Column(Read(bank, user), bucket) - BalanceOf(bank.rows, user, bucket)
               == Column(Read(start.bank, user), bucket) - BalanceOf(start.bank.rows, user, bucket)
            && TotalDrift(bank, user) == TotalDrift(start.bank, user)
    decreases |events|
  {
    if events != [] {
      var before := events[..|events| - 1];
      BalancesFollowLedger(start, before, user, bucket);
      RunIsOk(start, before);
      MoveKeepsBalances(Run(start, before), events[|events| - 1], user, bucket);
      assert SameDrift(Run(start, events).bank, Run(start, before).bank, user, bucket);
    }
  }

  /** A meter whose close has run to its end. */
  predicate Finished(m: MeterState) {
    m.close.CloseDone? && m.tick.TickIdle?
  }

  /** What a finished session leaves on its user's hold: the credits of its flushes that failed or were not covered,
      less the initial reservation, which nobody added to the hold; and whatever a failure or a late grant left
      behind. */
  lemma FinishedHold(start: System, events: seq<BillingEvent>, i: nat)
    requires Start(start) && i < |start.sessions|
    ensures |Run(start, events).sessions| == |start.sessions|
    ensures var s := Run(start, events).sessions[i];
            Finished(s.account.meter) ==>
              && s.held == s.unlowered - s.options.reserved + s.account.books.lateGrants + s.lostGrants + s.lostReleases
                           - s.lapsed
              && s.options == start.sessions[i].options && s.userId == start.sessions[i].userId
  {
    RunIsOk(start, events);
    SessionsStay(start, events);
    var s := Run(start, events).sessions[i];
    assert SessionOk(Run(start, events).bank.rows, s);
  }

  lemma {:induction false} SessionsStay(start: System, events: seq<BillingEvent>)
    ensures var now := Run(start, events).sessions;
            && |now| == |start.sessions|
            && forall i | 0 <= i < |now| ::
                 && now[i].id == start.sessions[i].id && now[i].userId == start.sessions[i].userId
                 && now[i].options == start.sessions[i].options
    decreases |events|
  {
    if events != [] {
      SessionsStay(start, events[..|events| - 1]);
    }
  }

  /** What all sessions of a user did to the hold. */
  function HeldBy(sessions: seq<Session>, user: string): int {
    if sessions == [] then 0
    else
      var last := sessions[|sessions| - 1];
      HeldBy(sessions[..|sessions| - 1], user) + If(last.userId == user, last.held)
  }

  lemma {:induction false} HeldByUpdate(sessions: seq<Session>, i: nat, s: Session, user: string)
    requires i < |sessions| && s.userId == sessions[i].userId
    ensures HeldBy(sessions[i := s], user)
            == HeldBy(sessions, user) + If(user == s.userId, s.held - sessions[i].held)
    decreases |sessions|
  {
    var n := |sessions| - 1;
    if i < n {
      HeldByUpdate(sessions[..n], i, s, user);
      assert sessions[i := s][..n] == sessions[..n][i := s];
    } else {
      assert sessions[i := s][..n] == sessions[..n];
    }
  }

  lemma {:induction false} HeldByNone(sessions: seq<Session>, user: string)
    requires forall i | 0 <= i < |sessions| :: Fresh(sessions[i])
    ensures HeldBy(sessions, user) == 0
    decreases |sessions|
  {
    if sessions != [] {
      HeldByNone(sessions[..|sessions| - 1], user);
    }
  }

  lemma MoveKeepsHold(sys: System, ev: BillingEvent, user: string)
    requires SystemOk(sys)
    ensures var now := Move(sys, ev);
            Hold(now.bank, user) - HeldBy(now.sessions, user) == Hold(sys.bank, user) - HeldBy(sys.sessions, user)
  {
    if Possible(sys, ev) {
      EventServes(sys, ev);
      HeldByUpdate(sys.sessions, ev.i, Serve(sys, ev).session, user);
    }
  }

  /** A user's hold is what it was at the start plus what each of the user's sessions did to it. */
  lemma {:induction false} HoldIsSumOfSessions(start: System, events: seq<BillingEvent>, user: string)
    requires Start(start)
    ensures var now := Run(start, events);
            Hold(now.bank, user) == Hold(start.bank, user) + HeldBy(now.sessions, user)
    decreases |events|
  {
    if events == [] {
      HeldByNone(start.sessions, user);
    } else {
      var before := events[..|events| - 1];
      HoldIsSumOfSessions(start, before, user);
      RunIsOk(start, before);
      MoveKeepsHold(Run(start, before), events[|events| - 1], user);
    }
  }
}
