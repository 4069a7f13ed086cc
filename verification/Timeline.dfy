/** When things happen to a user's hold. */
module Timeline {
  import opened MeterRuns
  import opened Bank
  import opened Billing

  /** Turns of a meter and lapses have a moment of their own; a gateway call takes effect at the moment before it. */
  function Moment(ev: BillingEvent, now: int): int {
    match ev
    case MeterTurn(_, e) => EventTime(e, now)
    case HoldLapses(_, at) => at
    case _ => now
  }

  /** What the clock shows after some events, for a system observed from `began` on. */
  function Clock(began: int, events: seq<BillingEvent>): int {
    if events == [] then began
    else Moment(events[|events| - 1], Clock(began, events[..|events| - 1]))
  }

  /** The calls that write the hold of their session's user, and so renew it. */
  predicate WritesHold(sys: System, ev: BillingEvent) {
    && Possible(sys, ev)
    && var m := sys.sessions[ev.i].account.meter;
       match ev
       case ReserveServed(_, available, outcome) => TookEffect(outcome) && GrantFor(m.tick.want, available) > 0
       case FlushServed(_, closing, _, outcome) => TookEffect(outcome) && Entry(m, closing).credits > 0
       case ReleaseServed(_, outcome) => TookEffect(outcome) && m.close.amount > 0
       case _ => false
  }

  predicate OfUser(sys: System, ev: BillingEvent, user: string) {
    ev.i < |sys.sessions| && sys.sessions[ev.i].userId == user
  }

  /** When the hold of the user was last written; the one there was at the start, at `began`. */
  function LastWrite(start: System, began: int, events: seq<BillingEvent>, user: string): int {
    if events == [] then began
    else
      var front, last := events[..|events| - 1], events[|events| - 1];
      var sys := Run(start, front);
      if WritesHold(sys, last) && OfUser(sys, last, user) then Clock(began, events)
      else LastWrite(start, began, front, user)
  }

  /** Time does not run back, and the user's hold lapses a quarter of an hour after it was last written, before anything
      else happens. */
  predicate InTime(start: System, began: int, before: seq<BillingEvent>, ev: BillingEvent, user: string) {
    var sys, now := Run(start, before), Moment(ev, Clock(began, before));
    var expires := LastWrite(start, began, before, user) + HOLD_TTL_MS;
    && Clock(began, before) <= now
    && if ev.HoldLapses? && OfUser(sys, ev, user) then now >= expires else user in sys.bank.holds ==> now < expires
  }

  predicate Timely(start: System, began: int, events: seq<BillingEvent>, user: string) {
    forall k | 0 <= k < |events| :: InTime(start, began, events[..k], events[k], user)
  }

  lemma NextWrite(start: System, began: int, events: seq<BillingEvent>, ev: BillingEvent, user: string)
    ensures var sys := Run(start, events);
            && Clock(began, events + [ev]) == Moment(ev, Clock(began, events))
            && LastWrite(start, began, events + [ev], user)
               == if WritesHold(sys, ev) && OfUser(sys, ev, user) then Moment(ev, Clock(began, events))
                  else LastWrite(start, began, events, user)
  {
    assert (events + [ev])[..|events|] == events;
  }
}
