/** Reading what is current is not enough when something was not on hold, or the hold lapsed. The runs that show it are
    built here, a second of sound or of silence at a time, with every call in time and every balance read current. */
module PromisesBroken {
  import opened Text
  import opened Ledger
  import opened Metering
  import opened MeterRuns
  import opened Bank
  import opened Billing
  import opened BillingRuns
  import opened Holds
  import opened Promises
  import opened Timeline
  import opened Seconds

  /* Runs of one session: all others stand still, every call reads what is current, and every event is in time */

  /** Session `i` rests, nothing was lost, and the others have not begun. */
  predicate Quiet(start: System, sys: System, i: nat) {
    && |sys.sessions| == |start.sessions| && i < |start.sessions|
    && (forall j | 0 <= j < |sys.sessions| && j != i :: sys.sessions[j] == start.sessions[j])
    && Alike(sys.sessions[i], start.sessions[i]) && Losses(sys.sessions[i]) == 0
  }

  predicate Alike(s: Session, t: Session) {
    s.id == t.id && s.userId == t.userId && s.options == t.options
  }

  lemma {:induction false} NothingLost(start: System, sys: System, i: nat, sessions: nat, user: string)
    requires Quiet(start, sys, i) && sessions <= |sys.sessions|
    requires forall j | 0 <= j < |start.sessions| :: Fresh(start.sessions[j])
    ensures LostBy(sys.sessions[..sessions], user) == 0
    decreases sessions
  {
    if sessions > 0 {
      NothingLost(start, sys, i, sessions - 1, user);
      assert sys.sessions[..sessions][..sessions - 1] == sys.sessions[..sessions - 1];
    }
  }

  lemma StaysQuiet(start: System, sys: System, i: nat, s: Session, bank: Bank)
    requires Quiet(start, sys, i) && Alike(s, sys.sessions[i]) && Losses(s) == 0
    ensures Quiet(start, System(bank, sys.sessions[i := s]), i)
  {
  }

  /** More happens, and no hold lapses meanwhile. */
  predicate Extends(events: seq<BillingEvent>, longer: seq<BillingEvent>) {
    events <= longer && forall k | |events| <= k < |longer| :: !longer[k].HoldLapses?
  }

  /** The clock, seen from when session `i` started. */
  function Now(start: System, events: seq<BillingEvent>, i: nat): int
    requires i < |start.sessions|
  {
    Clock(start.sessions[i].options.startedAt, events)
  }

  /** When the hold of its user was last written. */
  function Since(start: System, events: seq<BillingEvent>, i: nat): int
    requires i < |start.sessions|
  {
    LastWrite(start, start.sessions[i].options.startedAt, events, start.sessions[i].userId)
  }

  /** Such a run ends in this state. */
  predicate Reaches(start: System, events: seq<BillingEvent>, sys: System, i: nat)
    requires i < |start.sessions|
  {
    && Run(start, events) == sys && AllCurrent(start, events)
    && Timely(start, start.sessions[i].options.startedAt, events, start.sessions[i].userId)
  }

  lemma ReachesOne(start: System, events: seq<BillingEvent>, sys: System, i: nat, ev: BillingEvent)
    requires i < |start.sessions| && Reaches(start, events, sys, i) && Current(sys, ev)
    requires InTime(start, start.sessions[i].options.startedAt, events, ev, start.sessions[i].userId)
    ensures Reaches(start, events + [ev], Move(sys, ev), i)
  {
    var more := events + [ev];
    RunNext(start, events, ev);
    assert more[..|events|] == events;
    forall k | 0 <= k < |more|
      ensures Current(Run(start, more[..k]), more[k])
      ensures InTime(start, start.sessions[i].options.startedAt, more[..k], more[k], start.sessions[i].userId)
    {
      if k < |events| {
        assert more[..k] == events[..k];
      }
    }
  }

  /** The hold of the user has not lapsed by then. */
  predicate InDate(start: System, events: seq<BillingEvent>, sys: System, i: nat, t: int)
    requires i < |start.sessions|
  {
    start.sessions[i].userId in sys.bank.holds ==> t < Since(start, events, i) + HOLD_TTL_MS
  }

  lemma ReachesNext(start: System, events: seq<BillingEvent>, sys: System, i: nat, ev: BillingEvent)
    requires i < |start.sessions| && Reaches(start, events, sys, i) && Current(sys, ev) && !ev.HoldLapses?
    requires var t := Moment(ev, Now(start, events, i)); Now(start, events, i) <= t && InDate(start, events, sys, i, t)
    ensures Reaches(start, events + [ev], Move(sys, ev), i)
    ensures Now(start, events + [ev], i) == Moment(ev, Now(start, events, i))
    ensures Since(start, events + [ev], i)
            == if WritesHold(sys, ev) && OfUser(sys, ev, start.sessions[i].userId)
               then Moment(ev, Now(start, events, i))
               else Since(start, events, i)
  {
    NextWrite(start, start.sessions[i].options.startedAt, events, ev, start.sessions[i].userId);
    ReachesOne(start, events, sys, i, ev);
  }

  predicate OfRound(e: MeterEvent) {
    e.MarkAudio? || e.TickStart? || e.TickFlush? || e.TickEnd?
  }

  lemma RoundKeepsClose(o: MeterOptions, a: Account, e: MeterEvent)
    requires Allowed(a, e) && OfRound(e)
    ensures Next(o, a, e).meter.close == a.meter.close
  {
    if e.TickStart? {
      StartTickMeaning(o, a.meter, e.at);
    }
  }

  predicate SameLapse(sys: System, after: System, i: nat) {
    i < |sys.sessions| && i < |after.sessions| && after.sessions[i].lapsed == sys.sessions[i].lapsed
  }

  /** A turn of the meter of session `i`. */
  lemma Turn(start: System, sys: System, i: nat, e: MeterEvent)
    requires Quiet(start, sys, i) && OfRound(e) && Allowed(sys.sessions[i].account, e)
    ensures var ev, s := MeterTurn(i, e), sys.sessions[i];
            && Current(sys, ev) && Move(sys, ev) == System(sys.bank, sys.sessions[i := Advance(s, e)])
            && Quiet(start, Move(sys, ev), i) && SameLapse(sys, Move(sys, ev), i)
  {
    RoundKeepsClose(sys.sessions[i].options, sys.sessions[i].account, e);
    StaysQuiet(start, sys, i, Advance(sys.sessions[i], e), sys.bank);
  }

  /** The run has come this far, and the meter of session `i` has the same clock. */
  predicate Leads(start: System, events: seq<BillingEvent>, sys: System, i: nat) {
    && i < |start.sessions| && Reaches(start, events, sys, i) && Quiet(start, sys, i)
    && Now(start, events, i) == sys.sessions[i].account.books.clock
  }

  /** The hold, if there is one, was written no earlier than the meter last flushed. */
  predicate HoldWritten(start: System, events: seq<BillingEvent>, sys: System, i: nat)
    requires i < |start.sessions| && i < |sys.sessions|
  {
    start.sessions[i].userId in sys.bank.holds ==>
      Since(start, events, i) >= sys.sessions[i].account.meter.lastFlushAt
  }

  /** A turn of the meter, as part of a run. */
  lemma TakesTurn(start: System, events: seq<BillingEvent>, sys: System, i: nat, e: MeterEvent)
    returns (more: seq<BillingEvent>, after: System)
    requires i < |start.sessions| && Reaches(start, events, sys, i) && Quiet(start, sys, i)
    requires OfRound(e) && Allowed(sys.sessions[i].account, e)
    requires var t := EventTime(e, sys.sessions[i].account.books.clock);
             Now(start, events, i) <= t == EventTime(e, Now(start, events, i)) && InDate(start, events, sys, i, t)
    ensures more == events + [MeterTurn(i, e)] && Leads(start, more, after, i) && Extends(events, more)
    ensures SameLapse(sys, after, i) && after.bank == sys.bank
    ensures after.sessions[i].account == Next(sys.sessions[i].options, sys.sessions[i].account, e)
    ensures Since(start, more, i) == Since(start, events, i)
  {
    Turn(start, sys, i, e);
    ReachesNext(start, events, sys, i, MeterTurn(i, e));
    more, after := events + [MeterTurn(i, e)], Move(sys, MeterTurn(i, e));
  }

  /* One second with sound */

  predicate Ready(start: System, events: seq<BillingEvent>, sys: System, i: nat) {
    Leads(start, events, sys, i) && Resting(sys.sessions[i].account) && HoldWritten(start, events, sys, i)
  }

  /** In the tick at `t`, supplied; unless something is pending, a grant has just written the hold. */
  predicate Fed(start: System, events: seq<BillingEvent>, sys: System, i: nat, t: int) {
    && Leads(start, events, sys, i) && Supplied(sys.sessions[i].account, t) && HoldWritten(start, events, sys, i)
    && (sys.sessions[i].account.meter.pendingCredits > 0 || Since(start, events, i) == t)
  }

  /** As much is free and as much is left. */
  predicate SameMeans(sys: System, after: System, i: nat)
    requires i < |sys.sessions| && i < |after.sessions|
  {
    && Free(after.bank, sys.sessions[i].userId) == Free(sys.bank, sys.sessions[i].userId)
    && Remaining(after.sessions[i].account.meter) == Remaining(sys.sessions[i].account.meter)
  }

  lemma HearsSound(start: System, events: seq<BillingEvent>, sys: System, i: nat)
    returns (longer: seq<BillingEvent>, after: System)
    requires Ready(start, events, sys, i) && Sound(sys.sessions[i].options, sys.sessions[i].account)
    ensures Leads(start, longer, after, i) && HoldWritten(start, longer, after, i)
    ensures Extends(events, longer) && SameLapse(sys, after, i) && SameMeans(sys, after, i)
    ensures Marked(after.sessions[i].account, NextTick(sys.sessions[i].account))
  {
    IsMarked(sys.sessions[i].options, sys.sessions[i].account);
    longer, after := TakesTurn(start, events, sys, i, MarkAudio(NextTick(sys.sessions[i].account)));
  }

  lemma StartsTick(start: System, events: seq<BillingEvent>, sys: System, i: nat, t: int)
    returns (longer: seq<BillingEvent>, after: System)
    requires Leads(start, events, sys, i) && HoldWritten(start, events, sys, i) && Marked(sys.sessions[i].account, t)
    ensures Leads(start, longer, after, i) && HoldWritten(start, longer, after, i)
    ensures Extends(events, longer) && SameLapse(sys, after, i)
    ensures Free(after.bank, sys.sessions[i].userId) == Free(sys.bank, sys.sessions[i].userId)
    ensures var a, b := sys.sessions[i].account, after.sessions[i].account;
            || Asking(sys.sessions[i].options, b, t)
            || (Supplied(b, t) && b.meter.pendingCredits > 0 && 0 <= Remaining(b.meter) < Remaining(a.meter))
  {
    HearsSecond(sys.sessions[i].options, sys.sessions[i].account, t);
    longer, after := TakesTurn(start, events, sys, i, TickStart(t));
  }

  /** The grant of a tick: as much as is free, up to a window. */
  lemma Grant(start: System, sys: System, i: nat, t: int)
    requires Quiet(start, sys, i) && Asking(sys.sessions[i].options, sys.sessions[i].account, t)
    requires Free(sys.bank, sys.sessions[i].userId) > 0
    ensures var s := sys.sessions[i];
            var free := Free(sys.bank, s.userId);
            var ev := ReserveServed(i, free, Fine);
            var after := Move(sys, ev);
            && Current(sys, ev) && WritesHold(sys, ev) && Quiet(start, after, i) && SameLapse(sys, after, i)
            && Supplied(after.sessions[i].account, t)
            && after.sessions[i].account.meter.lastFlushAt == s.account.meter.lastFlushAt
            && after.bank == AddToHold(sys.bank, s.userId, Min(Window(s.options), free))
  {
    var s := sys.sessions[i];
    var free := Free(sys.bank, s.userId);
    var granted := Min(Window(s.options), free);
    IsSupplied(s.options, s.account, t, granted, Max(0, free - granted));
    StaysQuiet(start, sys, i, ServeReserve(sys.bank, s, free, Fine).session, AddToHold(sys.bank, s.userId, granted));
  }

  lemma IsGranted(start: System, events: seq<BillingEvent>, sys: System, i: nat, t: int)
    returns (longer: seq<BillingEvent>, after: System)
    requires Leads(start, events, sys, i) && HoldWritten(start, events, sys, i)
    requires Asking(sys.sessions[i].options, sys.sessions[i].account, t) && Free(sys.bank, sys.sessions[i].userId) > 0
    ensures Fed(start, longer, after, i, t) && Extends(events, longer) && SameLapse(sys, after, i)
    ensures 0 <= Free(after.bank, sys.sessions[i].userId) < Free(sys.bank, sys.sessions[i].userId)
  {
    var grant := ReserveServed(i, Free(sys.bank, sys.sessions[i].userId), Fine);
    Grant(start, sys, i, t);
    ReachesNext(start, events, sys, i, grant);
    longer, after := events + [grant], Move(sys, grant);
  }

  /** Less is free, or as much is free and less is left of what is reserved. */
  predicate Progress(sys: System, after: System, i: nat)
    requires i < |sys.sessions| && i < |after.sessions|
  {
    var free, left := Free(sys.bank, sys.sessions[i].userId), Remaining(sys.sessions[i].account.meter);
    var free', left' := Free(after.bank, sys.sessions[i].userId), Remaining(after.sessions[i].account.meter);
    0 <= free' < free || (free' == free && 0 <= left' < left)
  }

  /** The first half of a second: it is charged, and a window asked for is granted as far as it is free. */
  lemma HalfSecond(start: System, events: seq<BillingEvent>, sys: System, i: nat)
    returns (longer: seq<BillingEvent>, after: System)
    requires Ready(start, events, sys, i) && Sound(sys.sessions[i].options, sys.sessions[i].account)
    requires Free(sys.bank, sys.sessions[i].userId) > 0
    ensures Fed(start, longer, after, i, NextTick(sys.sessions[i].account))
    ensures Extends(events, longer) && SameLapse(sys, after, i) && Progress(sys, after, i)
  {
    var t := NextTick(sys.sessions[i].account);
    var marked, heard := HearsSound(start, events, sys, i);
    longer, after := StartsTick(start, marked, heard, i, t);
    if Asking(sys.sessions[i].options, after.sessions[i].account, t) {
      longer, after := IsGranted(start, longer, after, i, t);
    }
  }

  /** The flush of a tick, when the balance covers it, takes as much off the hold as off the balance. */
  lemma Write(start: System, sys: System, i: nat, t: int)
    requires Quiet(start, sys, i) && Writing(sys.sessions[i].account, t)
    requires 0 <= sys.sessions[i].account.meter.tick.entry.credits <= Credit(sys.bank, sys.sessions[i].userId)
    ensures var s := sys.sessions[i];
            var ev := FlushServed(i, false, Read(sys.bank, s.userId), Fine);
            var after := Move(sys, ev);
            && Current(sys, ev) && (WritesHold(sys, ev) <==> s.account.meter.tick.entry.credits > 0)
            && Quiet(start, after, i) && SameLapse(sys, after, i) && SameMeans(sys, after, i)
            && Saved(after.sessions[i].account, t) && after.sessions[i].account.meter.lastFlushAt == t
  {
    var s := sys.sessions[i];
    HasWritten(s.options, s.account, t);
    FlushKeepsFree(sys.bank, s, s.account.meter.tick.entry);
    var served := ServeFlush(sys.bank, s, false, Read(sys.bank, s.userId), Fine);
    StaysQuiet(start, sys, i, served.session, served.bank);
  }

  lemma FlushKeepsFree(bank: Bank, s: Session, entry: FlushEntry)
    requires 0 <= entry.credits <= Credit(bank, s.userId)
    ensures Plan(Buckets(Read(bank, s.userId)), entry.credits).covered == entry.credits
    ensures Free(BankAfter(bank, s, entry, Read(bank, s.userId), Fine), s.userId) == Free(bank, s.userId)
  {
    PlanMeaning(Buckets(Read(bank, s.userId)), entry.credits);
    SpendLowersCredit(Read(bank, s.userId), entry.credits);
    if s.userId !in bank.columns {
      NothingToSpend(entry.credits, Trial);
    }
  }

  lemma Writes(start: System, events: seq<BillingEvent>, sys: System, i: nat, t: int)
    returns (longer: seq<BillingEvent>, after: System)
    requires Leads(start, events, sys, i) && Writing(sys.sessions[i].account, t) && InDate(start, events, sys, i, t)
    requires 0 <= sys.sessions[i].account.meter.tick.entry.credits <= Credit(sys.bank, sys.sessions[i].userId)
    requires sys.sessions[i].account.meter.tick.entry.credits > 0 || Since(start, events, i) == t
    ensures Leads(start, longer, after, i) && HoldWritten(start, longer, after, i)
    ensures Extends(events, longer) && SameLapse(sys, after, i) && SameMeans(sys, after, i)
    ensures Saved(after.sessions[i].account, t)
  {
    var write := FlushServed(i, false, Read(sys.bank, sys.sessions[i].userId), Fine);
    Write(start, sys, i, t);
    ReachesNext(start, events, sys, i, write);
    longer, after := events + [write], Move(sys, write);
  }

  lemma Flushes(start: System, events: seq<BillingEvent>, sys: System, i: nat, t: int)
    returns (longer: seq<BillingEvent>, after: System)
    requires Fed(start, events, sys, i, t)
    requires 0 <= sys.sessions[i].account.meter.pendingCredits <= Credit(sys.bank, sys.sessions[i].userId)
    ensures Leads(start, longer, after, i) && HoldWritten(start, longer, after, i)
    ensures Extends(events, longer) && SameLapse(sys, after, i) && SameMeans(sys, after, i)
    ensures Saved(after.sessions[i].account, t)
  {
    StartsWriting(sys.sessions[i].options, sys.sessions[i].account, t);
    longer, after := TakesTurn(start, events, sys, i, TickFlush);
    if Writing(after.sessions[i].account, t) {
      longer, after := Writes(start, longer, after, i, t);
    }
  }

  /** The second half: the flush and the end of the tick, which leave what is free as it was. */
  lemma SecondHalf(start: System, events: seq<BillingEvent>, sys: System, i: nat, t: int)
    returns (longer: seq<BillingEvent>, after: System)
    requires Fed(start, events, sys, i, t)
    requires 0 <= sys.sessions[i].account.meter.pendingCredits <= Credit(sys.bank, sys.sessions[i].userId)
    ensures Ready(start, longer, after, i)
    ensures Extends(events, longer) && SameLapse(sys, after, i) && SameMeans(sys, after, i)
  {
    var flushed, saved := Flushes(start, events, sys, i, t);
    RestsAgain(saved.sessions[i].options, saved.sessions[i].account, t);
    longer, after := TakesTurn(start, flushed, saved, i, TickEnd);
  }

  /* Second after second */

  lemma {:induction false} OnlyLapse(start: System, sys: System, i: nat, sessions: nat, user: string)
    requires Quiet(start, sys, i) && sessions <= |sys.sessions|
    requires forall j | 0 <= j < |start.sessions| :: Fresh(start.sessions[j])
    ensures LapsedBy(sys.sessions[..sessions], user)
            == if i < sessions && sys.sessions[i].userId == user then sys.sessions[i].lapsed else 0
    decreases sessions
  {
    if sessions > 0 {
      OnlyLapse(start, sys, i, sessions - 1, user);
      assert sys.sessions[..sessions][..sessions - 1] == sys.sessions[..sessions - 1];
    }
  }

  /** How much more is promised than is on hold. */
  function Excess(start: System, sys: System, i: nat): int
    requires i < |start.sessions| && i < |sys.sessions|
  {
    StartedWith(start.sessions, start.sessions[i].userId) - Hold(start.bank, start.sessions[i].userId)
    + sys.sessions[i].lapsed
  }

  /** The promises of a quiet system exceed its hold by what its sessions started with too much, and by what lapsed. */
  lemma ExceedsHold(start: System, events: seq<BillingEvent>, sys: System, i: nat)
    requires Start(start) && Leads(start, events, sys, i)
    ensures var user := start.sessions[i].userId;
            PromisedTo(sys.sessions, user) - Hold(sys.bank, user) == Excess(start, sys, i)
  {
    var user := start.sessions[i].userId;
    PromisesFollowHold(start, events, user);
    NothingLost(start, sys, i, |sys.sessions|, user);
    OnlyLapse(start, sys, i, |sys.sessions|, user);
    assert sys.sessions[..|sys.sessions|] == sys.sessions;
  }

  /** As long as nothing is promised twice, the balance covers what a session has pending. */
  lemma PendingIsCovered(start: System, events: seq<BillingEvent>, sys: System, i: nat)
    requires Start(start) && Leads(start, events, sys, i) && Kept(sys, sys.sessions[i].userId)
    ensures Sound(sys.sessions[i].options, sys.sessions[i].account)
    ensures 0 <= sys.sessions[i].account.meter.pendingCredits <= Credit(sys.bank, sys.sessions[i].userId)
  {
    RunIsOk(start, events);
    PromisesAreFair(start, events);
    assert SessionOk(sys.bank.rows, sys.sessions[i]);
    PromisedPart(sys.sessions, i, sys.sessions[i].userId);
  }

  /** One second with sound: less is free then, or less is left, unless the promises have come to exceed the balance. */
  lemma Second(start: System, events: seq<BillingEvent>, sys: System, i: nat)
    returns (longer: seq<BillingEvent>, after: System)
    requires Start(start) && Ready(start, events, sys, i)
    requires Excess(start, sys, i) > 0 && Kept(sys, start.sessions[i].userId)
    ensures Reaches(start, longer, after, i) && Extends(events, longer)
    ensures Kept(after, start.sessions[i].userId) ==>
              Ready(start, longer, after, i) && SameLapse(sys, after, i) && Progress(sys, after, i)
  {
    ExceedsHold(start, events, sys, i);
    PendingIsCovered(start, events, sys, i);
    var half, fed := HalfSecond(start, events, sys, i);
    if !Kept(fed, start.sessions[i].userId) {
      return half, fed;
    }
    PendingIsCovered(start, half, fed, i);
    longer, after := SecondHalf(start, half, fed, i, NextTick(sys.sessions[i].account));
  }

  /** Second after second, until all of the balance is on hold and the promises exceed it. */
  lemma Overdraws(start: System, events: seq<BillingEvent>, sys: System, i: nat)
    returns (longer: seq<BillingEvent>, end: System)
    requires Start(start) && Ready(start, events, sys, i) && Excess(start, sys, i) > 0
    ensures Reaches(start, longer, end, i) && Extends(events, longer) && !Kept(end, start.sessions[i].userId)
    decreases Free(sys.bank, start.sessions[i].userId), Remaining(sys.sessions[i].account.meter)
  {
    longer, end := events, sys;
    if Kept(sys, start.sessions[i].userId) {
      longer, end := Second(start, events, sys, i);
      if Kept(end, start.sessions[i].userId) {
        longer, end := Overdraws(start, longer, end, i);
      }
    }
  }

  lemma BeginsReady(start: System, i: nat)
    requires Start(start) && i < |start.sessions|
    ensures Ready(start, [], start, i) && Excess(start, start, i)
            == StartedWith(start.sessions, start.sessions[i].userId) - Hold(start.bank, start.sessions[i].userId)
  {
  }

  /** Runs with current reads, no lapse, and everything in time. */
  predicate Proper(start: System, events: seq<BillingEvent>, i: nat)
    requires i < |start.sessions|
  {
    && AllCurrent(start, events) && NoLapse(events)
    && Timely(start, start.sessions[i].options.startedAt, events, start.sessions[i].userId)
  }

  /** If the sessions of a user started with more than was on hold, credits are promised twice when one of them hears
      sound for long enough, its meter ticking once a second. */
  lemma HearsTooMuch(start: System, i: nat) returns (events: seq<BillingEvent>)
    requires Start(start) && i < |start.sessions|
    requires StartedWith(start.sessions, start.sessions[i].userId) > Hold(start.bank, start.sessions[i].userId)
    ensures Proper(start, events, i) && !Kept(Run(start, events), start.sessions[i].userId)
  {
    BeginsReady(start, i);
    var end;
    events, end := Overdraws(start, [], start, i);
  }

  /** The exact condition, for every user with a session: no credit is ever promised twice, in any run that reads only
      what is current and whose holds do not lapse, if and only if what the sessions started with was on hold from the
      start. It makes no difference whether everything is to happen in time as well. */
  lemma NoDoublePromiseIff(start: System, i: nat)
    requires Start(start) && i < |start.sessions| && Backed(start.bank, start.sessions[i].userId)
    ensures var user := start.sessions[i].userId;
            (forall events | AllCurrent(start, events) && NoLapse(events) :: Kept(Run(start, events), user))
            <==> StartedWith(start.sessions, user) <= Hold(start.bank, user)
    ensures var user := start.sessions[i].userId;
            (forall events | Proper(start, events, i) :: Kept(Run(start, events), user))
            <==> StartedWith(start.sessions, user) <= Hold(start.bank, user)
  {
    var user := start.sessions[i].userId;
    if StartedWith(start.sessions, user) <= Hold(start.bank, user) {
      forall events | AllCurrent(start, events) && NoLapse(events) ensures Kept(Run(start, events), user) {
        NoDoublePromise(start, events, user);
      }
    } else {
      var events := HearsTooMuch(start, i);
      assert !Kept(Run(start, events), user);
    }
  }

  /* A hold that lapses */

  /** A tick without sound, at `t`. */
  function SilentTurns(i: nat, t: int): seq<BillingEvent> {
    [MeterTurn(i, TickStart(t))] + [MeterTurn(i, TickFlush)] + [MeterTurn(i, TickEnd)]
  }

  /** One of them every second, the last one a second before the end. */
  function Silence(i: nat, from: int, until: int): seq<BillingEvent>
    decreases until - from
  {
    if from + METER_TICK_MS > until then [] else SilentTurns(i, from) + Silence(i, from + METER_TICK_MS, until)
  }

  /** Session `i` has made no call, and heard nothing since it started. */
  predicate Uncalled(start: System, events: seq<BillingEvent>, sys: System, i: nat)
    requires i < |start.sessions|
  {
    && Reaches(start, events, sys, i) && Quiet(start, sys, i)
    && sys.sessions[i].account.meter.lastAudioAt == start.sessions[i].options.startedAt
    && Since(start, events, i) == start.sessions[i].options.startedAt
  }

  predicate Unheard(start: System, events: seq<BillingEvent>, sys: System, i: nat)
    requires i < |start.sessions|
  {
    Uncalled(start, events, sys, i) && Seconds.Silent(sys.sessions[i].options, sys.sessions[i].account)
  }

  /** In the silent tick at `t`. */
  predicate TicksSilently(start: System, events: seq<BillingEvent>, sys: System, i: nat, t: int)
    requires i < |start.sessions|
  {
    && Uncalled(start, events, sys, i) && Leads(start, events, sys, i) && InDate(start, events, sys, i, t)
    && SilentTick(sys.sessions[i].options, sys.sessions[i].account, t)
  }

  lemma SilentTurn(start: System, events: seq<BillingEvent>, sys: System, i: nat, t: int)
    returns (more: seq<BillingEvent>, after: System)
    requires i < |start.sessions| && Unheard(start, events, sys, i)
    requires Now(start, events, i) <= t && sys.sessions[i].account.books.clock <= t && InDate(start, events, sys, i, t)
    requires t >= start.sessions[i].options.startedAt + SILENCE_PAUSE_MS
    ensures more == events + [MeterTurn(i, TickStart(t))] && TicksSilently(start, more, after, i, t)
    ensures after.bank == sys.bank && SameLapse(sys, after, i)
    ensures var m := after.sessions[i].account.meter; m.tick == TopUpDone(t) && m.lastFlushAt <= t
  {
    SilentStart(sys.sessions[i].options, sys.sessions[i].account, t);
    more, after := TakesTurn(start, events, sys, i, TickStart(t));
  }

  lemma SilentlyFlushes(start: System, events: seq<BillingEvent>, sys: System, i: nat, t: int)
    returns (more: seq<BillingEvent>, after: System)
    requires i < |start.sessions| && TicksSilently(start, events, sys, i, t)
    requires var m := sys.sessions[i].account.meter; m.tick == TopUpDone(t) && m.lastFlushAt <= t
    ensures more == events + [MeterTurn(i, TickFlush)] && TicksSilently(start, more, after, i, t)
    ensures after.bank == sys.bank && SameLapse(sys, after, i)
    ensures var m := after.sessions[i].account.meter;
            m.tick == FlushDone(t) && m.lastFlushAt <= t < m.lastFlushAt + LEDGER_FLUSH_INTERVAL_MS
  {
    SilentFlush(sys.sessions[i].options, sys.sessions[i].account, t);
    more, after := TakesTurn(start, events, sys, i, TickFlush);
  }

  lemma SilentlyEnds(start: System, events: seq<BillingEvent>, sys: System, i: nat, t: int)
    returns (more: seq<BillingEvent>, after: System)
    requires i < |start.sessions| && TicksSilently(start, events, sys, i, t)
    requires var m := sys.sessions[i].account.meter;
             m.tick == FlushDone(t) && m.lastFlushAt <= t < m.lastFlushAt + LEDGER_FLUSH_INTERVAL_MS
    ensures more == events + [MeterTurn(i, TickEnd)]
    ensures Unheard(start, more, after, i) && Leads(start, more, after, i)
    ensures after.bank == sys.bank && SameLapse(sys, after, i) && after.sessions[i].account.books.clock == t
  {
    SilentEnd(sys.sessions[i].options, sys.sessions[i].account, t);
    more, after := TakesTurn(start, events, sys, i, TickEnd);
  }

  lemma ThreeTurns(events: seq<BillingEvent>, i: nat, t: int)
    ensures events + [MeterTurn(i, TickStart(t))] + [MeterTurn(i, TickFlush)] + [MeterTurn(i, TickEnd)]
            == events + SilentTurns(i, t)
  {
  }

  lemma StaysSilent(start: System, events: seq<BillingEvent>, sys: System, i: nat, t: int)
    returns (more: seq<BillingEvent>, after: System)
    requires i < |start.sessions| && Unheard(start, events, sys, i)
    requires Now(start, events, i) <= t && sys.sessions[i].account.books.clock <= t && InDate(start, events, sys, i, t)
    requires t >= start.sessions[i].options.startedAt + SILENCE_PAUSE_MS
    ensures more == events + SilentTurns(i, t)
    ensures Unheard(start, more, after, i) && Leads(start, more, after, i)
    ensures after.bank == sys.bank && SameLapse(sys, after, i) && after.sessions[i].account.books.clock == t
  {
    var one, b := SilentTurn(start, events, sys, i, t);
    var two, c := SilentlyFlushes(start, one, b, i, t);
    more, after := SilentlyEnds(start, two, c, i, t);
    ThreeTurns(events, i, t);
  }

  /** The clock shows at most `t`, and the hold is as it was. */
  predicate SilentUntil(start: System, events: seq<BillingEvent>, sys: System, i: nat, t: int)
    requires i < |start.sessions|
  {
    && Unheard(start, events, sys, i) && sys.bank == start.bank && sys.sessions[i].lapsed == 0
    && Now(start, events, i) <= t && sys.sessions[i].account.books.clock <= t
  }

  lemma BeginsSilent(start: System, i: nat)
    requires Start(start) && i < |start.sessions|
    requires !NeedsTopUp(start.sessions[i].options, Opening(start.sessions[i].options))
    ensures SilentUntil(start, [], start, i, start.sessions[i].options.startedAt + SILENCE_PAUSE_MS)
  {
  }

  lemma OneMoreSecond(start: System, events: seq<BillingEvent>, sys: System, i: nat, t: int)
    returns (more: seq<BillingEvent>, after: System)
    requires i < |start.sessions| && SilentUntil(start, events, sys, i, t)
    requires SILENCE_PAUSE_MS <= t - start.sessions[i].options.startedAt < HOLD_TTL_MS
    ensures more == events + SilentTurns(i, t) && SilentUntil(start, more, after, i, t + METER_TICK_MS)
  {
    more, after := StaysSilent(start, events, sys, i, t);
  }

  lemma SilenceGoesOn(events: seq<BillingEvent>, i: nat, t: int, until: int)
    requires t + METER_TICK_MS <= until
    ensures events + SilentTurns(i, t) + Silence(i, t + METER_TICK_MS, until) == events + Silence(i, t, until)
  {
    var now, later := SilentTurns(i, t), Silence(i, t + METER_TICK_MS, until);
    assert events + now + later == events + (now + later);
  }

  lemma {:induction false} IsSilent(start: System, events: seq<BillingEvent>, sys: System, i: nat, t: int, until: int)
    returns (longer: seq<BillingEvent>, end: System)
    requires i < |start.sessions| && SilentUntil(start, events, sys, i, t)
    requires var startedAt := start.sessions[i].options.startedAt;
             startedAt + SILENCE_PAUSE_MS <= t <= until <= startedAt + HOLD_TTL_MS
    ensures longer == events + Silence(i, t, until) && SilentUntil(start, longer, end, i, until)
    decreases until - t
  {
    if t + METER_TICK_MS > until {
      longer, end := events, sys;
    } else {
      var more, after := OneMoreSecond(start, events, sys, i, t);
      SilenceGoesOn(events, i, t, until);
      longer, end := IsSilent(start, more, after, i, t + METER_TICK_MS, until);
    }
  }

  /** A quarter of an hour without a write: the hold lapses. */
  lemma Lapses(start: System, events: seq<BillingEvent>, sys: System, i: nat)
    returns (more: seq<BillingEvent>, after: System)
    requires i < |start.sessions|
    requires SilentUntil(start, events, sys, i, start.sessions[i].options.startedAt + HOLD_TTL_MS)
    ensures var lapse := HoldLapses(i, start.sessions[i].options.startedAt + HOLD_TTL_MS);
            more == events + [lapse] && Unheard(start, more, after, i) && Now(start, more, i) == lapse.at
    ensures start.sessions[i].userId !in after.bank.holds
    ensures after.sessions[i].lapsed == Hold(start.bank, start.sessions[i].userId)
    ensures after.sessions[i].account == sys.sessions[i].account
    ensures sys.sessions[i].account.books.clock <= start.sessions[i].options.startedAt + HOLD_TTL_MS
  {
    var lapse := HoldLapses(i, start.sessions[i].options.startedAt + HOLD_TTL_MS);
    more, after := events + [lapse], Move(sys, lapse);
    NextWrite(start, start.sessions[i].options.startedAt, events, lapse, start.sessions[i].userId);
    ReachesOne(start, events, sys, i, lapse);
  }

  /** The silence of session `i` from the pause on, and the lapse at its end. */
  function SilenceAndLapse(i: nat, from: int, until: int): seq<BillingEvent> {
    Silence(i, from, until) + [HoldLapses(i, until)]
  }

  lemma {:induction false} StartedPart(sessions: seq<Session>, i: nat, user: string)
    requires (forall j | 0 <= j < |sessions| :: Fresh(sessions[j])) && i <= |sessions|
    ensures StartedWith(sessions, user)
            >= if i < |sessions| && sessions[i].userId == user then sessions[i].options.reserved else 0
    decreases |sessions|
  {
    if sessions != [] {
      var n := |sessions| - 1;
      StartedPart(sessions[..n], if i < n then i else n, user);
    }
  }

  lemma SilentToTheEnd(start: System, i: nat, from: int, until: int) returns (events: seq<BillingEvent>, sys: System)
    requires i < |start.sessions| && SilentUntil(start, [], start, i, from)
    requires from == start.sessions[i].options.startedAt + SILENCE_PAUSE_MS
    requires until == start.sessions[i].options.startedAt + HOLD_TTL_MS
    ensures events == Silence(i, from, until) && SilentUntil(start, events, sys, i, until)
  {
    events, sys := IsSilent(start, [], start, i, from, until);
  }

  lemma LapsesInSilence(start: System, i: nat, from: int, until: int) returns (events: seq<BillingEvent>, sys: System)
    requires i < |start.sessions| && SilentUntil(start, [], start, i, from)
    requires from == start.sessions[i].options.startedAt + SILENCE_PAUSE_MS
    requires until == start.sessions[i].options.startedAt + HOLD_TTL_MS
    ensures events == SilenceAndLapse(i, from, until)
    ensures Unheard(start, events, sys, i) && Now(start, events, i) == until
    ensures sys.sessions[i].account.books.clock <= until && start.sessions[i].userId !in sys.bank.holds
    ensures sys.sessions[i].lapsed == Hold(start.bank, start.sessions[i].userId)
  {
    var silence, silent := SilentToTheEnd(start, i, from, until);
    events, sys := Lapses(start, silence, silent, i);
  }

  lemma SilenceExtends(events: seq<BillingEvent>, i: nat, t: int)
    ensures Extends(events, events + SilentTurns(i, t))
  {
  }

  /** The tick after the lapse. */
  lemma TicksOn(start: System, events: seq<BillingEvent>, sys: System, i: nat, t: int)
    returns (more: seq<BillingEvent>, after: System)
    requires i < |start.sessions| && Unheard(start, events, sys, i) && Now(start, events, i) == t
    requires sys.sessions[i].account.books.clock <= t && start.sessions[i].userId !in sys.bank.holds
    requires t >= start.sessions[i].options.startedAt + SILENCE_PAUSE_MS
    ensures Ready(start, more, after, i) && SameLapse(sys, after, i) && Extends(events, more)
  {
    more, after := StaysSilent(start, events, sys, i, t);
    SilenceExtends(events, i, t);
  }

  /** A session that started with enough not to ask for more falls silent: its meter ticks once a second and makes no
      call, and after a quarter of an hour the hold of its user lapses. */
  lemma LosesHold(start: System, i: nat, from: int, until: int) returns (events: seq<BillingEvent>, sys: System)
    requires Start(start) && i < |start.sessions|
    requires !NeedsTopUp(start.sessions[i].options, Opening(start.sessions[i].options))
    requires from == start.sessions[i].options.startedAt + SILENCE_PAUSE_MS
    requires until == start.sessions[i].options.startedAt + HOLD_TTL_MS
    ensures Ready(start, events, sys, i) && Extends(SilenceAndLapse(i, from, until), events)
    ensures sys.sessions[i].lapsed == Hold(start.bank, start.sessions[i].userId)
  {
    BeginsSilent(start, i);
    var before, lapsed := LapsesInSilence(start, i, from, until);
    events, sys := TicksOn(start, before, lapsed, i, until);
  }

  /** Even if all that was started with was on hold, some run that goes on from there, reads only what is current and
      keeps the time promises more than the user has: the balance is granted again. */
  lemma LapseOverdraws(start: System, i: nat, from: int, until: int) returns (events: seq<BillingEvent>)
    requires Start(start) && i < |start.sessions|
    requires !NeedsTopUp(start.sessions[i].options, Opening(start.sessions[i].options))
    requires from == start.sessions[i].options.startedAt + SILENCE_PAUSE_MS
    requires until == start.sessions[i].options.startedAt + HOLD_TTL_MS
    ensures Extends(SilenceAndLapse(i, from, until), events)
    ensures AllCurrent(start, events)
    ensures Timely(start, start.sessions[i].options.startedAt, events, start.sessions[i].userId)
    ensures !Kept(Run(start, events), start.sessions[i].userId)
  {
    var silence, ready := LosesHold(start, i, from, until);
    StartedPart(start.sessions, i, start.sessions[i].userId);
    var end;
    events, end := Overdraws(start, silence, ready, i);
  }

  /* What the session start does */

  /** A session starts with a window of credits, or all the user has if that is less; nothing is put on hold for it. */
  function InitialReservation(burn: BurnConfig, available: int): int {
    Min(available, BurnRatePerSecond(burn) * RESERVATION_WINDOW_SECONDS)
  }

  /** So one session started that way, with nothing on hold, is promised more than the user has in some run, although
      all its calls read what is current. */
  lemma StartedSessionOverdraws(start: System, i: nat) returns (events: seq<BillingEvent>)
    requires Start(start) && i < |start.sessions| && Hold(start.bank, start.sessions[i].userId) == 0
    requires var s := start.sessions[i];
             Credit(start.bank, s.userId) > 0
             && s.options.reserved == InitialReservation(s.options.burn, Credit(start.bank, s.userId))
    ensures Proper(start, events, i) && !Kept(Run(start, events), start.sessions[i].userId)
  {
    var s := start.sessions[i];
    SecondsMatchMinutes(s.options.burn);
    StartedPart(start.sessions, i, s.userId);
    events := HearsTooMuch(start, i);
  }

  /** And two of them are promised all the user has twice before either makes a call. */
  lemma TwoStartsPromiseTwice(start: System, user: string)
    requires |start.sessions| == 2
    requires forall j | 0 <= j < 2 :: start.sessions[j].userId == user && Fresh(start.sessions[j])
    requires forall j | 0 <= j < 2 ::
               start.sessions[j].options.reserved
                 == InitialReservation(start.sessions[j].options.burn, Credit(start.bank, user))
    requires forall j | 0 <= j < 2 :: Credit(start.bank, user) <= Window(start.sessions[j].options)
    ensures PromisedTo(start.sessions, user) == 2 * Credit(start.bank, user)
  {
    assert start.sessions[..1][..0] == [];
    assert PromisedTo(start.sessions[..1], user) == Promised(start.sessions[0]);
  }
}
