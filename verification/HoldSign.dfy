/** When a user's hold can become negative. */
module HoldSign {
  import opened Bank
  import opened Billing
  import opened BillingRuns
  import opened Holds
  import opened Promises

  /** What is on hold is promised to a session or lost, but for what was on hold at the start and what the sessions
      started with. */
  lemma HoldStaysUp(start: System, events: seq<BillingEvent>, user: string)
    requires Start(start) && NoLapse(events) && StartedWith(start.sessions, user) <= Hold(start.bank, user)
    ensures Hold(Run(start, events).bank, user) >= 0
  {
    var now := Run(start, events);
    PromisesFollowHold(start, events, user);
    RunKeepsHolds(start, events);
    LapsedByNone(now.sessions, user);
    PromisesAreFair(start, events);
    PromisedPart(now.sessions, |now.sessions|, user);
  }

  lemma {:induction false} RunConcat(start: System, a: seq<BillingEvent>, b: seq<BillingEvent>)
    ensures Run(start, a + b) == Run(Run(start, a), b)
    decreases |b|
  {
    if b == [] {
      assert a + b == a;
    } else {
      RunConcat(start, a, b[..|b| - 1]);
      assert (a + b)[..|a + b| - 1] == a + b[..|b| - 1];
    }
  }

  lemma {:induction false} OthersStay(start: System, events: seq<BillingEvent>, i: nat)
    requires forall ev | ev in events :: ev.i == i
    ensures var now := Run(start, events).sessions;
            |now| == |start.sessions| && forall j | 0 <= j < |now| && j != i :: now[j] == start.sessions[j]
    decreases |events|
  {
    if events != [] {
      OthersStay(start, events[..|events| - 1], i);
    }
  }

  /** Meter turns and releases only: no balance is read and nothing fails. */
  predicate ReadsNothing(events: seq<BillingEvent>) {
    forall ev | ev in events :: ev.MeterTurn? || (ev.ReleaseServed? && ev.outcome.Fine?)
  }

  /** The first `n` sessions are closed one after the other, each before its first tick. */
  predicate Closed(start: System, events: seq<BillingEvent>, n: nat, user: string)
    requires n <= |start.sessions|
  {
    var now := Run(start, events);
    && ReadsNothing(events)
    && |now.sessions| == |start.sessions|
    && (forall j | n <= j < |now.sessions| :: now.sessions[j] == start.sessions[j])
    && Hold(now.bank, user) == Hold(start.bank, user) - StartedWith(start.sessions[..n], user)
  }

  lemma Closes(now: System, n: nat)
    requires n < |now.sessions| && Fresh(now.sessions[n]) && now.sessions[n].options.reserved > 0
    ensures var s := now.sessions[n];
            var after := Run(now, UnusedRun(n, s.options.startedAt));
            && |after.sessions| == |now.sessions|
            && (forall j | 0 <= j < |now.sessions| && j != n :: after.sessions[j] == now.sessions[j])
            && Hold(after.bank, s.userId) == Hold(now.bank, s.userId) - s.options.reserved
  {
    OthersStay(now, UnusedRun(n, now.sessions[n].options.startedAt), n);
    UnusedRunEnds(now, n);
  }

  lemma ClosingReadsNothing(events: seq<BillingEvent>, n: nat, at: int)
    requires ReadsNothing(events)
    ensures ReadsNothing(events + UnusedRun(n, at))
  {
  }

  lemma CloseOne(start: System, events: seq<BillingEvent>, n: nat, user: string) returns (more: seq<BillingEvent>)
    requires n < |start.sessions| && Fresh(start.sessions[n]) && Closed(start, events, n, user)
    ensures Closed(start, more, n + 1, user)
  {
    var s, now := start.sessions[n], Run(start, events);
    assert start.sessions[..n + 1][..n] == start.sessions[..n];
    more := events;
    if s.userId == user && s.options.reserved > 0 {
      more := events + UnusedRun(n, s.options.startedAt);
      RunConcat(start, events, UnusedRun(n, s.options.startedAt));
      ClosingReadsNothing(events, n, s.options.startedAt);
      Closes(now, n);
    }
  }

  lemma {:induction false} CloseAll(start: System, n: nat, user: string) returns (events: seq<BillingEvent>)
    requires Start(start) && n <= |start.sessions|
    ensures Closed(start, events, n, user)
  {
    events := [];
    if n > 0 {
      var before := CloseAll(start, n - 1, user);
      events := CloseOne(start, before, n - 1, user);
    }
  }

  /** When every session of a user is closed before its first tick, the hold has lost all they started with, whether or
      not it was ever put there. No balance is read meanwhile and no call fails. */
  lemma UnusedSessionsLowerHold(start: System, user: string) returns (events: seq<BillingEvent>)
    requires Start(start)
    ensures AllCurrent(start, events) && AllWhole(events) && NoLapse(events)
    ensures Hold(Run(start, events).bank, user) == Hold(start.bank, user) - StartedWith(start.sessions, user)
  {
    events := CloseAll(start, |start.sessions|, user);
    assert start.sessions[..|start.sessions|] == start.sessions;
  }

  /** The exact condition for the hold of a user never to be negative, over every run whose holds do not lapse, whatever
      gateway calls read and however they fail: what the user's sessions started with was on hold from the start. */
  lemma HoldNonNegativeIff(start: System, user: string)
    requires Start(start)
    ensures (forall events | NoLapse(events) :: Hold(Run(start, events).bank, user) >= 0)
            <==> StartedWith(start.sessions, user) <= Hold(start.bank, user)
  {
    if StartedWith(start.sessions, user) <= Hold(start.bank, user) {
      forall events | NoLapse(events) ensures Hold(Run(start, events).bank, user) >= 0 {
        HoldStaysUp(start, events, user);
      }
    } else {
      var events := UnusedSessionsLowerHold(start, user);
      assert Hold(Run(start, events).bank, user) < 0;
    }
  }
}
