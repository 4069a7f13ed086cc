/** The meter as the relay keeps it: fields updated in place, one method for each stretch of code between two waits. */
module MeterObject {
  import opened Text
  import opened Ledger
  import opened Metering

  class Meter {
    const options: MeterOptions
    const ratePerMinute: int
    const ratePerSecond: int

    var reserved: int
    var spent: int
    var balanceRemaining: int
    var lastTickAt: int
    var lastAudioAt: int
    var lastFlushAt: int
    var pendingCredits: int
    var billableMs: real
    var flushedSeconds: int
    var flushSequence: nat
    var graceStartedAt: Option<int>
    var warnedLow: bool
    var warnedCritical: bool
    var exhausted: bool
    var closed: bool
    /** Where the tick in flight and the close are waiting. */
    var tick: TickStage
    var close: CloseStage

    ghost predicate Valid() {
      ratePerMinute == BurnRatePerMinute(options.burn) && ratePerSecond == Rate(options)
    }

    ghost function State(): MeterState
      reads this
    {
      MeterState(reserved, spent, balanceRemaining, lastTickAt, lastAudioAt, lastFlushAt, pendingCredits, billableMs,
                 flushedSeconds, flushSequence, graceStartedAt, warnedLow, warnedCritical, exhausted, closed,
                 tick, close)
    }

    constructor (options: MeterOptions)
      ensures Valid() && this.options == options && State() == Opening(options)
    {
      this.options, ratePerMinute, ratePerSecond := options, BurnRatePerMinute(options.burn), Rate(options);
      reserved, spent, balanceRemaining := options.reserved, 0, options.balanceRemaining;
      lastTickAt, lastAudioAt, lastFlushAt := options.startedAt, options.startedAt, options.startedAt;
      pendingCredits, billableMs, flushedSeconds, flushSequence := 0, 0.0, 0, 0;
      graceStartedAt, warnedLow, warnedCritical, exhausted, closed := None, false, false, false, false;
      tick, close := TickIdle, NotClosing;
    }

    method MarkAudio(at: int)
      modifies this
      ensures State() == React(options, old(State()), MeterEvent.MarkAudio(at)).state
    {
      lastAudioAt := at;
    }

    /* A tick */

    method EnterGrace(now: int) returns (notices: seq<Notice>)
      modifies this
      ensures Turn(State(), None, notices) == Metering.EnterGrace(old(State()), now)
    {
      notices := [];
      if graceStartedAt.Some? {
        return;
      }
      graceStartedAt := Some(now);
      if !warnedCritical {
        warnedCritical := true;
        notices := [CreditsCritical];
      }
    }

    method Charge(elapsedMs: int, now: int) returns (notices: seq<Notice>)
      requires Valid()
      modifies this
      ensures Turn(State(), None, notices) == Metering.Charge(options, old(State()), elapsedMs, now)
    {
      notices := [];
      var wanted := RoundDiv(elapsedMs * ratePerSecond, 1000);
      if wanted <= 0 {
        return;
      }
      var available := Max(0, reserved - spent);
      var charged := Min(wanted, available);
      spent := spent + charged;
      pendingCredits := pendingCredits + charged;
      billableMs := billableMs + charged as real / wanted as real * elapsedMs as real;
      if charged < wanted {
        notices := EnterGrace(now);
      }
    }

    /** Up to the call for a top-up, or past it. */
    method BeginTick(now: int) returns (call: Option<GatewayCall>, notices: seq<Notice>)
      requires Valid() && tick.TickIdle?
      modifies this
      ensures Turn(State(), call, notices) == React(options, old(State()), TickStart(now))
    {
      call, notices := None, [];
      if closed {
        return;
      }
      var elapsedMs := Max(0, now - lastTickAt);
      lastTickAt := now;
      var idle := now - lastAudioAt >= SILENCE_PAUSE_MS;
      if !idle && elapsedMs > 0 {
        notices := Charge(elapsedMs, now);
      }
      if exhausted || 100 * (reserved - spent) >= 34 * (ratePerSecond * RESERVATION_WINDOW_SECONDS) {
        tick := TopUpDone(now);
        return;
      }
      var want := ratePerSecond * RESERVATION_WINDOW_SECONDS;
      tick := TopUpWaiting(now, want);
      call := Some(Reserve(want));
    }

    method TopUpReplied(granted: int, balance: int) returns (notices: seq<Notice>)
      requires tick.TopUpWaiting?
      modifies this
      ensures Turn(State(), None, notices) == React(options, old(State()), ReserveReply(granted, balance))
    {
      var now := tick.now;
      tick := TopUpDone(now);
      balanceRemaining := balance;
      if granted > 0 {
        reserved := reserved + granted;
        graceStartedAt := None;
        return [];
      }
      notices := EnterGrace(now);
    }

    /** A reserve call that fails ends the tick where it stands. */
    method TopUpFailed()
      requires tick.TopUpWaiting?
      modifies this
      ensures State() == React(options, old(State()), ReserveFailed).state
    {
      tick := TickIdle;
    }

    /** Clears what is pending before it is written. */
    method FlushNow(now: int) returns (entry: Option<FlushEntry>)
      modifies this
      ensures entry == NextEntry(old(State())) && State() == Flushed(old(State()), now)
    {
      var credits := pendingCredits;
      var totalSeconds := (billableMs / 1000.0).Floor;
      var seconds := Max(0, totalSeconds - flushedSeconds);
      lastFlushAt := now;
      if credits <= 0 && seconds <= 0 {
        return None;
      }
      pendingCredits := 0;
      flushedSeconds := totalSeconds;
      flushSequence := flushSequence + 1;
      return Some(FlushEntry(credits, seconds, flushSequence));
    }

    method MaybeFlush() returns (call: Option<GatewayCall>)
      requires tick.TopUpDone?
      modifies this
      ensures Turn(State(), call, []) == React(options, old(State()), TickFlush)
    {
      var now := tick.now;
      call := None;
      if now - lastFlushAt < LEDGER_FLUSH_INTERVAL_MS {
        tick := FlushDone(now);
        return;
      }
      var entry := FlushNow(now);
      if entry.None? {
        tick := FlushDone(now);
        return;
      }
      tick := FlushWaiting(now, entry.value);
      call := Some(Flush(entry.value));
    }

    method FlushReplied(ok: bool) returns (notices: seq<Notice>)
      requires tick.FlushWaiting?
      modifies this
      ensures Turn(State(), None, notices) == React(options, old(State()), FlushReply(ok))
    {
      tick := FlushDone(tick.now);
      notices := if ok then [] else [FlushFailed];
    }

    method EmitCredits() returns (notices: seq<Notice>)
      requires Valid()
      modifies this
      ensures Turn(State(), None, notices) == Metering.EmitCredits(options, old(State()))
    {
      var remaining := Max(0, balanceRemaining + (reserved - spent));
      var secondsLeft := Max(0, remaining / ratePerSecond);
      var initial := options.reserved + options.balanceRemaining;
      notices := [Credits(remaining, secondsLeft, ratePerMinute)];
      if !warnedCritical && secondsLeft <= CRITICAL_SECONDS_LEFT {
        warnedCritical := true;
        return notices + [CreditsCritical];
      }
      if !warnedLow && initial > 0 && 5 * remaining <= initial {
        warnedLow := true;
        return notices + [LowCredits];
      }
    }

    method EndTick() returns (notices: seq<Notice>)
      requires Valid() && tick.FlushDone?
      modifies this
      ensures Turn(State(), None, notices) == React(options, old(State()), TickEnd)
    {
      var now := tick.now;
      tick := TickIdle;
      notices := EmitCredits();
      if exhausted || graceStartedAt.None? {
        return;
      }
      if now - graceStartedAt.value < ZERO_BALANCE_GRACE_SECONDS * 1000 {
        return;
      }
      exhausted := true;
      notices := notices + [Exhausted];
    }

    /* The close */

    method BeginClose(now: int) returns (call: Option<GatewayCall>)
      modifies this
      ensures Turn(State(), call, []) == React(options, old(State()), CloseStart(now))
    {
      call := None;
      if closed {
        return;
      }
      closed := true;
      var entry := FlushNow(now);
      if entry.None? {
        close := CloseFlushed;
        return;
      }
      close := CloseFlushWaiting(entry.value);
      call := Some(Flush(entry.value));
    }

    method CloseFlushReplied(ok: bool) returns (notices: seq<Notice>)
      requires close.CloseFlushWaiting?
      modifies this
      ensures Turn(State(), None, notices) == React(options, old(State()), CloseFlushReply(ok))
    {
      close := CloseFlushed;
      notices := if ok then [] else [FlushFailed];
    }

    method Settle() returns (call: Option<GatewayCall>)
      requires close.CloseFlushed?
      modifies this
      ensures Turn(State(), call, []) == React(options, old(State()), CloseSettle)
    {
      var unused := Max(0, reserved - spent);
      if unused <= 0 {
        close := CloseDone;
        return None;
      }
      reserved := reserved - unused;
      close := Releasing(unused);
      return Some(Release(unused));
    }

    method Released(ok: bool)
      requires close.Releasing?
      modifies this
      ensures State() == React(options, old(State()), ReleaseReply(ok)).state
    {
      close := CloseDone;
    }
  }
}
