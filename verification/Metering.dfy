/** The billing clock: what each turn of a meter does, split at every point where it waits for the ledger gateway.
    Credits are integers in ten-thousandths, times are milliseconds, billed time is a real. */
module Metering {
  import opened Text
  import opened Ledger

  const METER_TICK_MS: int := 1_000
  const SILENCE_PAUSE_MS: int := 20_000
  const RESERVATION_WINDOW_SECONDS: int := 60
  const LEDGER_FLUSH_INTERVAL_MS: int := 10_000
  const ZERO_BALANCE_GRACE_SECONDS: int := 60
  const CRITICAL_SECONDS_LEFT: int := 60

  datatype MeterOptions = MeterOptions(burn: BurnConfig, reserved: int, balanceRemaining: int, startedAt: int)

  function Rate(o: MeterOptions): (rate: int)
    ensures rate > 0
  {
    SecondsMatchMinutes(o.burn);
    BurnRatePerSecond(o.burn)
  }

  datatype FlushEntry = FlushEntry(credits: int, billableSeconds: int, sequence: nat)

  /** Where a tick is. It waits for the gateway at two places and yields once after each of its stages. */
  datatype TickStage =
    | TickIdle
    | TopUpWaiting(now: int, want: int)
    | TopUpDone(now: int)
    | FlushWaiting(now: int, entry: FlushEntry)
    | FlushDone(now: int)

  datatype CloseStage =
    | NotClosing
    | CloseFlushWaiting(lastEntry: FlushEntry)
    | CloseFlushed
    | Releasing(amount: int)
    | CloseDone

  datatype MeterState = MeterState(
    reserved: int, spent: int, balanceRemaining: int,
    lastTickAt: int, lastAudioAt: int, lastFlushAt: int,
    pendingCredits: int, billableMs: real, flushedSeconds: int, flushSequence: nat,
    graceStartedAt: Option<int>, warnedLow: bool, warnedCritical: bool, exhausted: bool, closed: bool,
    tick: TickStage, close: CloseStage)

  datatype GatewayCall = Reserve(want: int) | Flush(entry: FlushEntry) | Release(amount: int)

  datatype Notice =
    | Credits(remaining: int, secondsLeft: int, burnRatePerMin: int)
    | CreditsCritical
    | LowCredits
    | Exhausted
    | FlushFailed

  /** What a turn leaves behind: the new state, the gateway call it started, and what it told the actor. */
  datatype Turn = Turn(state: MeterState, call: Option<GatewayCall>, notices: seq<Notice>)

  datatype MeterEvent =
    | MarkAudio(at: int)
    | TickStart(at: int)
    | ReserveReply(granted: int, balanceRemaining: int)
    | ReserveFailed
    | TickFlush
    | FlushReply(ok: bool)
    | TickEnd
    | CloseStart(at: int)
    | CloseFlushReply(ok: bool)
    | CloseSettle
    | ReleaseReply(ok: bool)

  /* The stages of a turn */

  function Opening(o: MeterOptions): MeterState {
    MeterState(o.reserved, 0, o.balanceRemaining, o.startedAt, o.startedAt, o.startedAt,
               0, 0.0, 0, 0, None, false, false, false, false, TickIdle, NotClosing)
  }

  function Remaining(s: MeterState): int {
    s.reserved - s.spent
  }

  function EnterGrace(s: MeterState, now: int): Turn {
    if s.graceStartedAt.Some? then Turn(s, None, [])
    else Turn(s.(graceStartedAt := Some(now), warnedCritical := true), None,
              if s.warnedCritical then [] else [CreditsCritical])
  }

  function Wanted(o: MeterOptions, elapsedMs: int): int {
    RoundDiv(elapsedMs * Rate(o), 1000)
  }

  function BilledMs(charged: int, wanted: int, elapsedMs: int): real
    requires wanted > 0
  {
    charged as real / wanted as real * elapsedMs as real
  }

  function Charge(o: MeterOptions, s: MeterState, elapsedMs: int, now: int): Turn {
    var wanted := Wanted(o, elapsedMs);
    if wanted <= 0 then Turn(s, None, [])
    else
      var charged := Min(wanted, Max(0, Remaining(s)));
      var billed := s.(spent := s.spent + charged, pendingCredits := s.pendingCredits + charged,
                       billableMs := s.billableMs + BilledMs(charged, wanted, elapsedMs));
      if charged < wanted then EnterGrace(billed, now) else Turn(billed, None, [])
  }

  predicate Charging(s: MeterState, now: int) {
    !s.closed && now - s.lastAudioAt < SILENCE_PAUSE_MS && now > s.lastTickAt
  }

  /** Less than 34 hundredths of a window is left. */
  predicate NeedsTopUp(o: MeterOptions, s: MeterState) {
    100 * Remaining(s) < 34 * (Rate(o) * RESERVATION_WINDOW_SECONDS)
  }

  function StartTick(o: MeterOptions, s: MeterState, now: int): Turn {
    if s.closed then Turn(s, None, [])
    else
      var stamped := s.(lastTickAt := now);
      var charged := if Charging(s, now) then Charge(o, stamped, now - s.lastTickAt, now) else Turn(stamped, None, []);
      if charged.state.exhausted || !NeedsTopUp(o, charged.state) then
        charged.(state := charged.state.(tick := TopUpDone(now)))
      else
        var want := Rate(o) * RESERVATION_WINDOW_SECONDS;
        Turn(charged.state.(tick := TopUpWaiting(now, want)), Some(Reserve(want)), charged.notices)
  }

  function TopUpReplied(s: MeterState, granted: int, balanceRemaining: int): Turn
    requires s.tick.TopUpWaiting?
  {
    var done := s.(balanceRemaining := balanceRemaining, tick := TopUpDone(s.tick.now));
    if granted > 0 then Turn(done.(reserved := s.reserved + granted, graceStartedAt := None), None, [])
    else EnterGrace(done, s.tick.now)
  }

  function TotalSeconds(s: MeterState): int {
    (s.billableMs / 1000.0).Floor
  }

  /** The entry a flush hands over, if there is anything to hand over. */
  function NextEntry(s: MeterState): Option<FlushEntry> {
    var seconds := Max(0, TotalSeconds(s) - s.flushedSeconds);
    if s.pendingCredits <= 0 && seconds <= 0 then None
    else Some(FlushEntry(s.pendingCredits, seconds, s.flushSequence + 1))
  }

  function Flushed(s: MeterState, now: int): MeterState {
    var stamped := s.(lastFlushAt := now);
    if NextEntry(s).None? then stamped
    else stamped.(pendingCredits := 0, flushedSeconds := TotalSeconds(s), flushSequence := s.flushSequence + 1)
  }

  function FlushCall(entry: Option<FlushEntry>): Option<GatewayCall> {
    if entry.None? then None else Some(Flush(entry.value))
  }

  function FlushInTick(s: MeterState): Turn
    requires s.tick.TopUpDone?
  {
    var now := s.tick.now;
    if now - s.lastFlushAt < LEDGER_FLUSH_INTERVAL_MS then Turn(s.(tick := FlushDone(now)), None, [])
    else
      var entry := NextEntry(s);
      Turn(Flushed(s, now).(tick := if entry.None? then FlushDone(now) else FlushWaiting(now, entry.value)),
           FlushCall(entry), [])
  }

  function FlushOutcome(ok: bool): seq<Notice> {
    if ok then [] else [FlushFailed]
  }

  function RemainingCredits(s: MeterState): int {
    Max(0, s.balanceRemaining + Remaining(s))
  }

  function SecondsLeft(o: MeterOptions, s: MeterState): int {
    Max(0, RemainingCredits(s) / Rate(o))
  }

  function EmitCredits(o: MeterOptions, s: MeterState): Turn {
    var credits := Credits(RemainingCredits(s), SecondsLeft(o, s), BurnRatePerMinute(o.burn));
    var initial := o.reserved + o.balanceRemaining;
    if !s.warnedCritical && SecondsLeft(o, s) <= CRITICAL_SECONDS_LEFT then
      Turn(s.(warnedCritical := true), None, [credits, CreditsCritical])
    else if !s.warnedLow && initial > 0 && 5 * RemainingCredits(s) <= initial then
      Turn(s.(warnedLow := true), None, [credits, LowCredits])
    else Turn(s, None, [credits])
  }

  predicate GraceIsOver(s: MeterState, now: int) {
    !s.exhausted && s.graceStartedAt.Some? && now - s.graceStartedAt.value >= ZERO_BALANCE_GRACE_SECONDS * 1000
  }

  function EndTick(o: MeterOptions, s: MeterState): Turn
    requires s.tick.FlushDone?
  {
    var now := s.tick.now;
    var told := EmitCredits(o, s.(tick := TickIdle));
    if GraceIsOver(s, now) then Turn(told.state.(exhausted := true), None, told.notices + [Exhausted]) else told
  }

  function StartClose(s: MeterState, now: int): Turn {
    if s.closed then Turn(s, None, [])
    else
      var entry := NextEntry(s);
      Turn(Flushed(s, now).(closed := true,
                            close := if entry.None? then CloseFlushed else CloseFlushWaiting(entry.value)),
           FlushCall(entry), [])
  }

  function Settle(s: MeterState): Turn {
    var unused := Max(0, Remaining(s));
    if unused > 0 then Turn(s.(reserved := s.reserved - unused, close := Releasing(unused)), Some(Release(unused)), [])
    else Turn(s.(close := CloseDone), None, [])
  }

  /* Runs. The actor keeps one tick in flight at a time; a close may begin at any moment of it. */

  predicate Enabled(s: MeterState, e: MeterEvent) {
    match e
    case MarkAudio(_) => true
    case TickStart(_) => s.tick.TickIdle?
    case ReserveReply(_, _) => s.tick.TopUpWaiting?
    case ReserveFailed => s.tick.TopUpWaiting?
    case TickFlush => s.tick.TopUpDone?
    case FlushReply(_) => s.tick.FlushWaiting?
    case TickEnd => s.tick.FlushDone?
    case CloseStart(_) => true
    case CloseFlushReply(_) => s.close.CloseFlushWaiting?
    case CloseSettle => s.close.CloseFlushed?
    case ReleaseReply(_) => s.close.Releasing?
  }

  function React(o: MeterOptions, s: MeterState, e: MeterEvent): Turn
    requires Enabled(s, e)
  {
    match e
    case MarkAudio(at) => Turn(s.(lastAudioAt := at), None, [])
    case TickStart(at) => StartTick(o, s, at)
    case ReserveReply(granted, balance) => TopUpReplied(s, granted, balance)
    case ReserveFailed => Turn(s.(tick := TickIdle), None, [])
    case TickFlush => FlushInTick(s)
    case FlushReply(ok) => Turn(s.(tick := FlushDone(s.tick.now)), None, FlushOutcome(ok))
    case TickEnd => EndTick(o, s)
    case CloseStart(at) => StartClose(s, at)
    case CloseFlushReply(ok) => Turn(s.(close := CloseFlushed), None, FlushOutcome(ok))
    case CloseSettle => Settle(s)
    case ReleaseReply(_) => Turn(s.(close := CloseDone), None, [])
  }
}
