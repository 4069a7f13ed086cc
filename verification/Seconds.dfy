/** One second of a meter, with sound and without: the stages a tick goes through when its calls succeed. Between ticks
    the meter rests; in one it may ask for a window, is supplied, may write a flush, and has saved what was due. */
module Seconds {
  import opened Metering
  import opened MeterRuns

  predicate Working(s: MeterState) {
    s.close.NotClosing? && !s.closed && !s.exhausted
  }

  predicate Resting(a: Account) {
    && Working(a.meter) && a.meter.tick.TickIdle? && a.meter.graceStartedAt.None?
    && a.meter.lastFlushAt <= a.books.clock == a.meter.lastTickAt < a.meter.lastFlushAt + LEDGER_FLUSH_INTERVAL_MS
  }

  function Window(o: MeterOptions): int {
    Rate(o) * RESERVATION_WINDOW_SECONDS
  }

  function NextTick(a: Account): int {
    a.books.clock + METER_TICK_MS
  }

  /** In the tick at `t`, before its flush. */
  predicate Ticking(a: Account, t: int) {
    && Working(a.meter) && a.books.clock == t == a.meter.lastTickAt
    && a.meter.lastFlushAt < t < a.meter.lastFlushAt + LEDGER_FLUSH_INTERVAL_MS + METER_TICK_MS
  }

  predicate Asking(o: MeterOptions, a: Account, t: int) {
    Ticking(a, t) && a.meter.tick == TopUpWaiting(t, Window(o))
  }

  predicate Supplied(a: Account, t: int) {
    Ticking(a, t) && a.meter.tick == TopUpDone(t) && a.meter.graceStartedAt.None?
  }

  predicate Writing(a: Account, t: int) {
    && Working(a.meter) && a.meter.tick.FlushWaiting? && a.meter.tick.now == t && a.meter.graceStartedAt.None?
    && a.books.clock == t == a.meter.lastTickAt == a.meter.lastFlushAt
  }

  predicate Saved(a: Account, t: int) {
    && Working(a.meter) && a.meter.tick == FlushDone(t) && a.meter.graceStartedAt.None?
    && a.meter.lastFlushAt <= a.books.clock == t == a.meter.lastTickAt < a.meter.lastFlushAt + LEDGER_FLUSH_INTERVAL_MS
  }

  /** A second costs its rate. */
  lemma SecondCosts(o: MeterOptions)
    ensures Wanted(o, METER_TICK_MS) == Rate(o)
  {
    assert METER_TICK_MS * Rate(o) == 1000 * Rate(o);
  }

  /** A second with sound either uses up some of what is reserved or asks for a window. */
  lemma SecondIsCharged(o: MeterOptions, s: MeterState, now: int)
    requires Working(s) && now == s.lastTickAt + METER_TICK_MS && s.lastAudioAt == now && s.graceStartedAt.None?
    requires 0 <= Remaining(s) && 0 <= s.pendingCredits
    ensures var t := StartTick(o, s, now).state;
            && Working(t) && t.lastFlushAt == s.lastFlushAt && t.lastTickAt == now
            && (t.tick == TopUpWaiting(now, Window(o))
                || (t.tick == TopUpDone(now) && t.graceStartedAt.None? && t.pendingCredits > 0
                    && 0 <= Remaining(t) < Remaining(s)))
  {
    SecondCosts(o);
  }

  /** Sound has been heard at `t`, a second after the last tick. */
  predicate Marked(a: Account, t: int) {
    && Working(a.meter) && a.meter.tick.TickIdle? && a.meter.graceStartedAt.None?
    && a.meter.lastAudioAt == a.books.clock == t == a.meter.lastTickAt + METER_TICK_MS
    && a.meter.lastFlushAt < t < a.meter.lastFlushAt + LEDGER_FLUSH_INTERVAL_MS + METER_TICK_MS
    && 0 <= Remaining(a.meter) && 0 <= a.meter.pendingCredits
  }

  lemma IsMarked(o: MeterOptions, a: Account)
    requires Sound(o, a) && Resting(a)
    ensures var t := NextTick(a);
            var b := Next(o, a, MarkAudio(t));
            && Allowed(a, MarkAudio(t)) && Marked(b, t)
            && b.meter.lastFlushAt == a.meter.lastFlushAt && Remaining(b.meter) == Remaining(a.meter)
  {
  }

  lemma HearsSecond(o: MeterOptions, a: Account, t: int)
    requires Marked(a, t)
    ensures var b := Next(o, a, TickStart(t));
            && Allowed(a, TickStart(t)) && b.meter.lastFlushAt == a.meter.lastFlushAt
            && (Asking(o, b, t)
                || (Supplied(b, t) && b.meter.pendingCredits > 0 && 0 <= Remaining(b.meter) < Remaining(a.meter)))
  {
    SecondIsCharged(o, a.meter, t);
  }

  lemma IsSupplied(o: MeterOptions, a: Account, t: int, granted: int, balance: int)
    requires Asking(o, a, t) && granted > 0
    ensures var b := Next(o, a, ReserveReply(granted, balance));
            && Allowed(a, ReserveReply(granted, balance)) && Supplied(b, t)
            && b.meter.lastFlushAt == a.meter.lastFlushAt
  {
  }

  /** The flush of a tick: not due, nothing to write, or everything pending is handed over. */
  lemma StartsWriting(o: MeterOptions, a: Account, t: int)
    requires Supplied(a, t)
    ensures Allowed(a, TickFlush)
    ensures var b := Next(o, a, TickFlush);
            && Remaining(b.meter) == Remaining(a.meter)
            && if Writing(b, t) then b.meter.tick.entry.credits == a.meter.pendingCredits
               else Saved(b, t) && (b.meter.lastFlushAt == a.meter.lastFlushAt || a.meter.pendingCredits <= 0)
  {
  }

  lemma HasWritten(o: MeterOptions, a: Account, t: int)
    requires Writing(a, t)
    ensures var b := Next(o, a, FlushReply(true));
            && Allowed(a, FlushReply(true)) && Saved(b, t)
            && Remaining(b.meter) == Remaining(a.meter) && b.meter.lastFlushAt == t
  {
  }

  lemma RestsAgain(o: MeterOptions, a: Account, t: int)
    requires Saved(a, t)
    ensures var b := Next(o, a, TickEnd);
            && Allowed(a, TickEnd) && Resting(b)
            && Remaining(b.meter) == Remaining(a.meter) && b.meter.lastFlushAt == a.meter.lastFlushAt
  {
  }

  /** Nothing is pending and enough is reserved: without sound, a tick makes no call. */
  predicate Silent(o: MeterOptions, a: Account) {
    Resting(a) && NextEntry(a.meter).None? && !NeedsTopUp(o, a.meter)
  }

  /** Its first stage finds nothing to charge and nothing to ask for. */
  predicate SilentTick(o: MeterOptions, a: Account, t: int) {
    && Working(a.meter) && a.meter.graceStartedAt.None? && a.books.clock == t == a.meter.lastTickAt
    && NextEntry(a.meter).None? && !NeedsTopUp(o, a.meter)
  }

  lemma SilentStart(o: MeterOptions, a: Account, t: int)
    requires Silent(o, a) && a.books.clock <= t && t - a.meter.lastAudioAt >= SILENCE_PAUSE_MS
    ensures var b := Next(o, a, TickStart(t));
            && Allowed(a, TickStart(t)) && SilentTick(o, b, t) && b.meter.tick == TopUpDone(t)
            && b.meter.lastFlushAt <= t && b.meter.lastAudioAt == a.meter.lastAudioAt
  {
  }

  lemma SilentFlush(o: MeterOptions, a: Account, t: int)
    requires SilentTick(o, a, t) && a.meter.tick == TopUpDone(t) && a.meter.lastFlushAt <= t
    ensures var b := Next(o, a, TickFlush);
            && Allowed(a, TickFlush) && SilentTick(o, b, t) && b.meter.tick == FlushDone(t)
            && b.meter.lastFlushAt <= t < b.meter.lastFlushAt + LEDGER_FLUSH_INTERVAL_MS
            && b.meter.lastAudioAt == a.meter.lastAudioAt
  {
  }

  lemma SilentEnd(o: MeterOptions, a: Account, t: int)
    requires SilentTick(o, a, t) && a.meter.tick == FlushDone(t)
    requires a.meter.lastFlushAt <= t < a.meter.lastFlushAt + LEDGER_FLUSH_INTERVAL_MS
    ensures var b := Next(o, a, TickEnd);
            Allowed(a, TickEnd) && Silent(o, b) && b.books.clock == t && b.meter.lastAudioAt == a.meter.lastAudioAt
  {
  }
}
