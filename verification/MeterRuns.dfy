/** Whole runs of a meter, its events in any possible order. */
module MeterRuns {
  import opened Text
  import opened Ledger
  import opened Metering

  /** What an observer outside the meter writes down. */
  datatype Books = Books(
    clock: int,
    granted: int, lateGrants: int,
    flushed: int, dropped: int, released: int,
    issued: seq<FlushEntry>, notices: seq<Notice>,
    charges: nat, billedAfterMark: int,
    spentAtClose: int, topUpAtSettle: bool)

  datatype Account = Account(meter: MeterState, books: Books)

  predicate Settled(s: MeterState) {
    s.close.Releasing? || s.close.CloseDone?
  }

  function Granted(e: MeterEvent): int {
    if e.ReserveReply? then Max(0, e.granted) else 0
  }

  /** The credits of the flush a reply answers. */
  function Answered(s: MeterState, e: MeterEvent, ok: bool): int
    requires Enabled(s, e)
  {
    match e
    case FlushReply(ok') => if ok' == ok then s.tick.entry.credits else 0
    case CloseFlushReply(ok') => if ok' == ok then s.close.lastEntry.credits else 0
    case _ => 0
  }

  function Issued(call: Option<GatewayCall>): seq<FlushEntry> {
    if call.Some? && call.value.Flush? then [call.value.entry] else []
  }

  function Handed(call: Option<GatewayCall>): int {
    if call.Some? && call.value.Release? then call.value.amount else 0
  }

  function EventTime(e: MeterEvent, clock: int): int {
    match e
    case MarkAudio(at) => at
    case TickStart(at) => at
    case CloseStart(at) => at
    case _ => clock
  }

  predicate Charges(o: MeterOptions, s: MeterState, e: MeterEvent) {
    e.TickStart? && Charging(s, e.at) && Wanted(o, e.at - s.lastTickAt) > 0
  }

  /** The part of a charged stretch that lies after the last audio mark. */
  function BilledAfterMark(o: MeterOptions, a: Account, e: MeterEvent): int {
    if e.MarkAudio? then 0
    else a.books.billedAfterMark
         + if Charges(o, a.meter, e) then Min(e.at - a.meter.lastTickAt, e.at - a.meter.lastAudioAt) else 0
  }

  function Note(o: MeterOptions, a: Account, e: MeterEvent, turn: Turn): Books
    requires Enabled(a.meter, e)
  {
    var b, s := a.books, a.meter;
    Books(
      EventTime(e, b.clock),
      b.granted + Granted(e), b.lateGrants + if Settled(s) then Granted(e) else 0,
      b.flushed + Answered(s, e, true), b.dropped + Answered(s, e, false), b.released + Handed(turn.call),
      b.issued + Issued(turn.call), b.notices + turn.notices,
      b.charges + if Charges(o, s, e) then 1 else 0, BilledAfterMark(o, a, e),
      if s.closed then b.spentAtClose else s.spent, if e.CloseSettle? then s.tick.TopUpWaiting? else b.topUpAtSettle)
  }

  function Begin(o: MeterOptions): Account {
    Account(Opening(o), Books(o.startedAt, 0, 0, 0, 0, 0, [], [], 0, 0, 0, false))
  }

  /** An event may happen in its stage, and the clock never runs backwards. */
  predicate Allowed(a: Account, e: MeterEvent) {
    Enabled(a.meter, e) && EventTime(e, a.books.clock) >= a.books.clock
  }

  function Next(o: MeterOptions, a: Account, e: MeterEvent): Account {
    if Allowed(a, e) then
      var turn := React(o, a.meter, e);
      Account(turn.state, Note(o, a, e, turn))
    else a
  }

  function After(o: MeterOptions, events: seq<MeterEvent>): Account {
    if events == [] then Begin(o) else Next(o, After(o, events[..|events| - 1]), events[|events| - 1])
  }

  predicate Legal(o: MeterOptions, events: seq<MeterEvent>) {
    forall i | 0 <= i < |events| :: Allowed(After(o, events[..i]), events[i])
  }

  /* Invariants */

  function InFlight(s: MeterState): int {
    (if s.tick.FlushWaiting? then s.tick.entry.credits else 0)
    + if s.close.CloseFlushWaiting? then s.close.lastEntry.credits else 0
  }

  /** Every credit spent was flushed, was dropped by a failed flush, is on its way, or is pending. */
  predicate Conserved(a: Account) {
    && a.meter.spent == a.books.flushed + a.books.dropped + InFlight(a.meter) + a.meter.pendingCredits
    && 0 <= a.meter.pendingCredits && 0 <= a.meter.spent <= a.meter.reserved
    && (a.meter.closed ==> a.meter.pendingCredits == 0 && a.meter.spent == a.books.spentAtClose)
  }

  /** Every credit reserved was spent, was released, or was granted after the settlement. */
  predicate Reserved(o: MeterOptions, a: Account) {
    && o.reserved + a.books.granted == a.meter.reserved + a.books.released
    && 0 <= a.books.lateGrants
    && (if Settled(a.meter) then Remaining(a.meter) == a.books.lateGrants else a.books.lateGrants == 0)
    && (Settled(a.meter) && !a.books.topUpAtSettle ==> a.books.lateGrants == 0 && !a.meter.tick.TopUpWaiting?)
    && (Settled(a.meter) && a.meter.tick.TopUpWaiting? ==> a.books.lateGrants == 0)
  }

  function HandedSeconds(issued: seq<FlushEntry>): int {
    if issued == [] then 0 else HandedSeconds(issued[..|issued| - 1]) + issued[|issued| - 1].billableSeconds
  }

  predicate Numbered(issued: seq<FlushEntry>) {
    forall i | 0 <= i < |issued| :: issued[i].sequence == i + 1 && issued[i].credits >= 0
  }

  predicate FlushesAgree(a: Account) {
    && Numbered(a.books.issued) && |a.books.issued| == a.meter.flushSequence
    && HandedSeconds(a.books.issued) == a.meter.flushedSeconds <= TotalSeconds(a.meter)
    && (a.meter.closed ==> a.meter.flushedSeconds == TotalSeconds(a.meter))
  }

  function Exact(o: MeterOptions, s: MeterState): real {
    Rate(o) as real * s.billableMs / 1000.0
  }

  /** The credits spent are within half a unit per charge of the exact price of the time billed. */
  predicate DriftWithin(o: MeterOptions, a: Account) {
    -(a.books.charges as real) <= 2.0 * (a.meter.spent as real - Exact(o, a.meter)) <= a.books.charges as real
  }

  predicate ClockAgrees(a: Account) {
    && a.meter.lastTickAt <= a.books.clock && a.meter.lastAudioAt <= a.books.clock
    && 0 <= a.books.billedAfterMark < SILENCE_PAUSE_MS
    && a.books.billedAfterMark <= Max(0, a.meter.lastTickAt - a.meter.lastAudioAt)
  }

  function One(b: bool): nat {
    if b then 1 else 0
  }

  predicate Warned(a: Account) {
    && multiset(a.books.notices)[CreditsCritical] == One(a.meter.warnedCritical)
    && multiset(a.books.notices)[Exhausted] == One(a.meter.exhausted)
    && (a.meter.graceStartedAt.Some? || a.meter.exhausted ==> a.meter.warnedCritical)
  }

  predicate StagesAgree(s: MeterState) {
    s.closed <==> s.close != NotClosing
  }

  predicate Sound(o: MeterOptions, a: Account) {
    && StagesAgree(a.meter) && Conserved(a) && Reserved(o, a) && FlushesAgree(a) && DriftWithin(o, a)
    && ClockAgrees(a) && Warned(a)
  }

  /* What one turn may do to a meter, one aspect at a time */

  predicate MoneyMoves(s: MeterState, e: MeterEvent, turn: Turn)
    requires Enabled(s, e)
  {
    var t := turn.state;
    var charged := t.spent - s.spent;
    && 0 <= charged
    && (charged > 0 ==> e.TickStart? && !s.closed && t.spent <= s.reserved)
    && 0 <= t.pendingCredits
    && t.pendingCredits + InFlight(t) + Answered(s, e, true) + Answered(s, e, false)
       == s.pendingCredits + InFlight(s) + charged
    && (t.closed ==> t.pendingCredits == 0)
    && Handed(turn.call) == (if e.CloseSettle? then Max(0, Remaining(s)) else 0)
    && t.reserved == s.reserved + Granted(e) - Handed(turn.call)
  }

  predicate StagesMove(s: MeterState, e: MeterEvent, t: MeterState) {
    && StagesAgree(t)
    && t.closed == (s.closed || e.CloseStart?)
    && Settled(t) == (Settled(s) || e.CloseSettle?)
    && (e.CloseSettle? ==> s.close.CloseFlushed?)
    && (t.tick.TopUpWaiting? ==> (s.tick.TopUpWaiting? && !e.ReserveReply?) || (e.TickStart? && !s.closed))
    && (e.ReserveReply? ==> s.tick.TopUpWaiting?)
  }

  predicate FlushMoves(s: MeterState, turn: Turn) {
    var t := turn.state;
    && t.billableMs >= s.billableMs
    && TotalSeconds(s) <= TotalSeconds(t)
    && t.flushedSeconds <= TotalSeconds(t)
    && (s.closed ==> t.billableMs == s.billableMs)
    && (t.closed ==> t.flushedSeconds == TotalSeconds(t))
    && if Issued(turn.call) == [] then t.flushSequence == s.flushSequence && t.flushedSeconds == s.flushedSeconds
       else
         var entry := Issued(turn.call)[0];
         && t.flushSequence == s.flushSequence + 1 == entry.sequence && entry.credits == s.pendingCredits
         && entry.billableSeconds == t.flushedSeconds - s.flushedSeconds
  }

  predicate WarningMoves(s: MeterState, turn: Turn) {
    var t, told := turn.state, multiset(turn.notices);
    && One(t.warnedCritical) == One(s.warnedCritical) + told[CreditsCritical]
    && One(t.exhausted) == One(s.exhausted) + told[Exhausted]
    && (t.graceStartedAt.Some? ==> t.warnedCritical)
    && (t.exhausted ==> s.exhausted || s.graceStartedAt.Some?)
  }

  /* Every turn moves a meter so */

  lemma BilledIsPositive(charged: int, wanted: int, elapsedMs: int)
    requires 0 <= charged && wanted > 0 && elapsedMs >= 0
    ensures BilledMs(charged, wanted, elapsedMs) >= 0.0
  {
    assert charged as real / wanted as real >= 0.0;
  }

  lemma ChargeMeaning(o: MeterOptions, s: MeterState, elapsedMs: int, now: int)
    requires elapsedMs >= 0
    ensures var t := Charge(o, s, elapsedMs, now).state;
            && t.spent - s.spent == t.pendingCredits - s.pendingCredits >= 0
            && (t.spent <= s.reserved || t.spent == s.spent)
            && t.billableMs >= s.billableMs
  {
    var wanted := Wanted(o, elapsedMs);
    if wanted > 0 {
      BilledIsPositive(Min(wanted, Max(0, Remaining(s))), wanted, elapsedMs);
    }
  }

  lemma StartTickMeaning(o: MeterOptions, s: MeterState, now: int)
    ensures var t := StartTick(o, s, now).state;
            && t.spent - s.spent == t.pendingCredits - s.pendingCredits >= 0
            && (t.spent <= s.reserved || t.spent == s.spent)
            && t.reserved == s.reserved
            && t.billableMs >= s.billableMs
            && (s.closed ==> t == s)
            && t.flushedSeconds == s.flushedSeconds && t.flushSequence == s.flushSequence
            && t.closed == s.closed && t.close == s.close
            && (s.tick.TickIdle? ==> !t.tick.FlushWaiting?)
  {
    if Charging(s, now) {
      ChargeMeaning(o, s.(lastTickAt := now), now - s.lastTickAt, now);
    }
  }

  predicate OfTick(e: MeterEvent) {
    e.TickStart? || e.ReserveReply? || e.ReserveFailed? || e.TickEnd? || e.MarkAudio?
  }

  predicate OfFlush(e: MeterEvent) {
    e.TickFlush? || e.FlushReply? || e.CloseFlushReply?
  }

  predicate MoneyOk(s: MeterState) {
    0 <= s.pendingCredits && 0 <= s.spent <= s.reserved && (s.closed ==> s.pendingCredits == 0)
  }

  lemma TickMovesMoney(o: MeterOptions, s: MeterState, e: MeterEvent)
    requires Enabled(s, e) && MoneyOk(s) && OfTick(e)
    ensures MoneyMoves(s, e, React(o, s, e))
  {
    match e {
      case TickStart(at) => StartMovesMoney(o, s, at);
      case ReserveReply(granted, balance) => TopUpMovesMoney(s, granted, balance);
      case TickEnd => EndMovesMoney(o, s);
      case _ =>
    }
  }

  lemma TopUpMovesMoney(s: MeterState, granted: int, balance: int)
    requires Enabled(s, ReserveReply(granted, balance)) && MoneyOk(s)
    ensures MoneyMoves(s, ReserveReply(granted, balance), TopUpReplied(s, granted, balance))
  {
  }

  lemma EndMovesMoney(o: MeterOptions, s: MeterState)
    requires Enabled(s, TickEnd) && MoneyOk(s)
    ensures MoneyMoves(s, TickEnd, EndTick(o, s))
  {
  }

  lemma StartMovesMoney(o: MeterOptions, s: MeterState, at: int)
    requires Enabled(s, TickStart(at)) && MoneyOk(s)
    ensures MoneyMoves(s, TickStart(at), StartTick(o, s, at))
  {
    StartTickMeaning(o, s, at);
    assert StartTick(o, s, at).call.Some? ==> StartTick(o, s, at).call.value.Reserve?;
  }

  lemma FlushMovesMoney(o: MeterOptions, s: MeterState, e: MeterEvent)
    requires Enabled(s, e) && MoneyOk(s) && OfFlush(e)
    ensures MoneyMoves(s, e, React(o, s, e))
  {
  }

  lemma CloseMovesMoney(o: MeterOptions, s: MeterState, e: MeterEvent)
    requires Enabled(s, e) && MoneyOk(s) && StagesAgree(s) && !OfTick(e) && !OfFlush(e)
    ensures MoneyMoves(s, e, React(o, s, e))
  {
  }

  lemma TurnMovesStages(o: MeterOptions, s: MeterState, e: MeterEvent)
    requires Enabled(s, e) && StagesAgree(s)
    ensures StagesMove(s, e, React(o, s, e).state)
  {
    if e.TickStart? {
      StartTickMeaning(o, s, e.at);
    }
  }

  lemma SecondsGrow(s: MeterState, t: MeterState)
    requires s.billableMs <= t.billableMs
    ensures TotalSeconds(s) <= TotalSeconds(t)
  {
  }

  predicate SecondsOk(s: MeterState) {
    s.flushedSeconds <= TotalSeconds(s) && (s.closed ==> s.flushedSeconds == TotalSeconds(s))
  }

  lemma TickMovesFlushes(o: MeterOptions, s: MeterState, e: MeterEvent)
    requires Enabled(s, e) && SecondsOk(s) && OfTick(e)
    ensures FlushMoves(s, React(o, s, e))
  {
    if e.TickStart? {
      StartTickMeaning(o, s, e.at);
      SecondsGrow(s, StartTick(o, s, e.at).state);
    }
  }

  lemma OthersMoveFlushes(o: MeterOptions, s: MeterState, e: MeterEvent)
    requires Enabled(s, e) && SecondsOk(s) && !OfTick(e)
    ensures FlushMoves(s, React(o, s, e))
  {
  }

  lemma StartTickWarns(o: MeterOptions, s: MeterState, now: int)
    requires s.graceStartedAt.Some? ==> s.warnedCritical
    ensures WarningMoves(s, StartTick(o, s, now))
  {
  }

  lemma EndTickWarns(o: MeterOptions, s: MeterState)
    requires s.tick.FlushDone? && (s.graceStartedAt.Some? ==> s.warnedCritical)
    ensures WarningMoves(s, EndTick(o, s))
  {
  }

  lemma TopUpWarns(s: MeterState, granted: int, balanceRemaining: int)
    requires s.tick.TopUpWaiting? && (s.graceStartedAt.Some? ==> s.warnedCritical)
    ensures WarningMoves(s, TopUpReplied(s, granted, balanceRemaining))
  {
  }

  lemma OthersWarn(o: MeterOptions, s: MeterState, e: MeterEvent)
    requires Enabled(s, e) && (s.graceStartedAt.Some? ==> s.warnedCritical)
    requires !e.TickStart? && !e.TickEnd? && !e.ReserveReply?
    ensures WarningMoves(s, React(o, s, e))
  {
    var turn := React(o, s, e);
    assert turn.notices == [] || turn.notices == [FlushFailed];
  }

  lemma TurnMovesWarnings(o: MeterOptions, s: MeterState, e: MeterEvent)
    requires Enabled(s, e) && (s.graceStartedAt.Some? ==> s.warnedCritical)
    ensures WarningMoves(s, React(o, s, e))
  {
    if e.TickStart? {
      StartTickWarns(o, s, e.at);
    } else if e.TickEnd? {
      EndTickWarns(o, s);
    } else if e.ReserveReply? {
      TopUpWarns(s, e.granted, e.balanceRemaining);
    } else {
      OthersWarn(o, s, e);
    }
  }

  /* Rounding and silence */

  /** Rounding a price by at most a half leaves any share of it off by at most a half. */
  lemma ShareOfPrice(share: real, wanted: real, rate: real, elapsed: real)
    requires 0.0 <= share <= 1.0 && -1.0 <= 2.0 * (wanted - elapsed * rate / 1000.0) <= 1.0
    ensures -1.0 <= 2.0 * (share * wanted - rate * (share * elapsed) / 1000.0) <= 1.0
  {
    var ideal := elapsed * rate / 1000.0;
    var off := 2.0 * (wanted - ideal);
    ShareScales(share, off);
    assert rate * (share * elapsed) == share * (elapsed * rate);
    assert share * off == 2.0 * (share * wanted - share * ideal);
  }

  lemma ProductIsPositive(a: real, b: real)
    requires a >= 0.0 && b >= 0.0
    ensures a * b >= 0.0
  {
  }

  lemma ShareScales(share: real, x: real)
    requires 0.0 <= share <= 1.0 && -1.0 <= x <= 1.0
    ensures -1.0 <= share * x <= 1.0
  {
    ProductIsPositive(share, 1.0 - x);
    ProductIsPositive(share, 1.0 + x);
    assert share * (1.0 - x) == share - share * x && share * (1.0 + x) == share + share * x;
  }

  lemma WantedIsRounded(o: MeterOptions, elapsedMs: int)
    ensures -1.0 <= 2.0 * (Wanted(o, elapsedMs) as real - elapsedMs as real * Rate(o) as real / 1000.0) <= 1.0
  {
    var n := elapsedMs * Rate(o);
    assert n as real == elapsedMs as real * Rate(o) as real;
    assert -1000 <= 2 * (RoundDiv(n, 1000) * 1000 - n) <= 1000;
  }

  lemma ShareTimes(charged: int, wanted: int)
    requires 0 <= charged <= wanted && wanted > 0
    ensures 0.0 <= charged as real / wanted as real <= 1.0
    ensures charged as real / wanted as real * wanted as real == charged as real
  {
  }

  lemma DriftOfCharge(rate: int, wanted: int, elapsedMs: int, charged: int)
    requires 0 <= charged <= wanted && wanted > 0
    requires -1.0 <= 2.0 * (wanted as real - elapsedMs as real * rate as real / 1000.0) <= 1.0
    ensures -1.0 <= 2.0 * (charged as real - rate as real * BilledMs(charged, wanted, elapsedMs) / 1000.0) <= 1.0
  {
    ShareTimes(charged, wanted);
    ShareOfPrice(charged as real / wanted as real, wanted as real, rate as real, elapsedMs as real);
  }

  /** One charge is off by at most half a ten-thousandth, however much of it the reservation could cover. */
  lemma ChargeDrift(o: MeterOptions, elapsedMs: int, charged: int)
    requires 0 <= charged <= Wanted(o, elapsedMs) && Wanted(o, elapsedMs) > 0
    ensures var exact := Rate(o) as real * BilledMs(charged, Wanted(o, elapsedMs), elapsedMs) / 1000.0;
            -1.0 <= 2.0 * (charged as real - exact) <= 1.0
  {
    WantedIsRounded(o, elapsedMs);
    DriftOfCharge(Rate(o), Wanted(o, elapsedMs), elapsedMs, charged);
  }

  lemma StartTickBills(o: MeterOptions, s: MeterState, now: int)
    ensures var elapsed := now - s.lastTickAt;
            var t := StartTick(o, s, now).state;
            var charged := Min(Wanted(o, elapsed), Max(0, Remaining(s)));
            if Charges(o, s, TickStart(now)) then
              && t.spent == s.spent + charged
              && t.billableMs == s.billableMs + BilledMs(charged, Wanted(o, elapsed), elapsed)
            else t.spent == s.spent && t.billableMs == s.billableMs
  {
  }

  lemma ExactGrows(o: MeterOptions, s: MeterState, t: MeterState, ms: real)
    requires t.billableMs == s.billableMs + ms
    ensures Exact(o, t) - Exact(o, s) == Rate(o) as real * ms / 1000.0
  {
    var rate := Rate(o) as real;
    assert rate * t.billableMs == rate * s.billableMs + rate * ms;
  }

  /** How far one turn moves the credits spent away from the time billed. */
  predicate Drifts(o: MeterOptions, s: MeterState, e: MeterEvent, t: MeterState) {
    var n := One(Charges(o, s, e)) as real;
    && (n == 0.0 ==> t.spent == s.spent && t.billableMs == s.billableMs)
    && -n <= 2.0 * ((t.spent - s.spent) as real - (Exact(o, t) - Exact(o, s))) <= n
  }

  lemma ChargeDrifts(o: MeterOptions, s: MeterState, now: int, t: MeterState, charged: int)
    requires Charges(o, s, TickStart(now))
    requires 0 <= charged <= Wanted(o, now - s.lastTickAt)
    requires t.spent == s.spent + charged
    requires t.billableMs == s.billableMs + BilledMs(charged, Wanted(o, now - s.lastTickAt), now - s.lastTickAt)
    ensures Drifts(o, s, TickStart(now), t)
  {
    var elapsed := now - s.lastTickAt;
    ChargeDrift(o, elapsed, charged);
    ExactGrows(o, s, t, BilledMs(charged, Wanted(o, elapsed), elapsed));
  }

  lemma StartTickDrifts(o: MeterOptions, s: MeterState, now: int)
    ensures Drifts(o, s, TickStart(now), StartTick(o, s, now).state)
  {
    StartTickBills(o, s, now);
    if Charges(o, s, TickStart(now)) {
      ChargeDrifts(o, s, now, StartTick(o, s, now).state, Min(Wanted(o, now - s.lastTickAt), Max(0, Remaining(s))));
    }
  }

  lemma NoDrift(o: MeterOptions, s: MeterState, e: MeterEvent, t: MeterState)
    requires !Charges(o, s, e) && t.spent == s.spent && t.billableMs == s.billableMs
    ensures Drifts(o, s, e, t)
  {
    var exact := Exact(o, s);
    assert Exact(o, t) == exact;
    assert (t.spent - s.spent) as real == 0.0;
  }

  predicate BillsNothing(s: MeterState, t: MeterState) {
    t.spent == s.spent && t.billableMs == s.billableMs
  }

  lemma TickBillsNothing(o: MeterOptions, s: MeterState, e: MeterEvent)
    requires Enabled(s, e) && !e.TickStart? && OfTick(e)
    ensures BillsNothing(s, React(o, s, e).state)
  {
  }

  lemma OthersBillNothing(o: MeterOptions, s: MeterState, e: MeterEvent)
    requires Enabled(s, e) && !OfTick(e)
    ensures BillsNothing(s, React(o, s, e).state)
  {
  }

  lemma TurnDrifts(o: MeterOptions, s: MeterState, e: MeterEvent)
    requires Enabled(s, e)
    ensures Drifts(o, s, e, React(o, s, e).state)
  {
    if e.TickStart? {
      StartTickDrifts(o, s, e.at);
    } else {
      if OfTick(e) {
        TickBillsNothing(o, s, e);
      } else {
        OthersBillNothing(o, s, e);
      }
      NoDrift(o, s, e, React(o, s, e).state);
    }
  }

  lemma StartTickMovesClock(o: MeterOptions, s: MeterState, now: int)
    ensures var t := StartTick(o, s, now).state;
            t.lastAudioAt == s.lastAudioAt && t.lastTickAt == if s.closed then s.lastTickAt else now
  {
  }

  lemma OthersMoveClock(o: MeterOptions, s: MeterState, e: MeterEvent)
    requires Enabled(s, e) && !e.TickStart?
    ensures var t := React(o, s, e).state;
            t.lastAudioAt == (if e.MarkAudio? then e.at else s.lastAudioAt) && t.lastTickAt == s.lastTickAt
  {
    if e.TickEnd? {
      EndTickMovesClock(o, s);
    }
  }

  lemma EndTickMovesClock(o: MeterOptions, s: MeterState)
    requires s.tick.FlushDone?
    ensures var t := EndTick(o, s).state;
            && t.lastAudioAt == s.lastAudioAt && t.lastTickAt == s.lastTickAt
            && t.graceStartedAt == s.graceStartedAt && t.tick.TickIdle?
  {
  }

  lemma TurnMovesClock(o: MeterOptions, s: MeterState, e: MeterEvent)
    requires Enabled(s, e)
    ensures var t := React(o, s, e).state;
            && t.lastAudioAt == (if e.MarkAudio? then e.at else s.lastAudioAt)
            && t.lastTickAt == (if e.TickStart? && !s.closed then e.at else s.lastTickAt)
  {
    if e.TickStart? {
      StartTickMovesClock(o, s, e.at);
    } else {
      OthersMoveClock(o, s, e);
    }
  }

  /* Each invariant follows from how the turn moved the meter */

  function Book(o: MeterOptions, a: Account, e: MeterEvent, turn: Turn): Account
    requires Enabled(a.meter, e)
  {
    Account(turn.state, Note(o, a, e, turn))
  }

  lemma ConservedNext(o: MeterOptions, a: Account, e: MeterEvent, turn: Turn)
    requires Allowed(a, e) && Conserved(a) && MoneyMoves(a.meter, e, turn) && StagesMove(a.meter, e, turn.state)
    requires Reserved(o, a)
    ensures Conserved(Book(o, a, e, turn))
  {
  }

  lemma ReservedNext(o: MeterOptions, a: Account, e: MeterEvent, turn: Turn)
    requires Allowed(a, e) && Conserved(a) && Reserved(o, a) && StagesAgree(a.meter)
    requires MoneyMoves(a.meter, e, turn) && StagesMove(a.meter, e, turn.state)
    ensures Reserved(o, Book(o, a, e, turn))
  {
  }

  lemma FlushesNext(o: MeterOptions, a: Account, e: MeterEvent, turn: Turn)
    requires Allowed(a, e) && Conserved(a) && FlushesAgree(a) && FlushMoves(a.meter, turn)
    ensures FlushesAgree(Book(o, a, e, turn))
  {
    var added := Issued(turn.call);
    assert a.books.issued + [] == a.books.issued;
    if added != [] {
      assert added == [added[0]];
      assert (a.books.issued + added)[..|a.books.issued|] == a.books.issued;
    }
  }

  lemma DriftNext(o: MeterOptions, a: Account, e: MeterEvent, turn: Turn)
    requires Enabled(a.meter, e) && DriftWithin(o, a) && Drifts(o, a.meter, e, turn.state)
    ensures DriftWithin(o, Book(o, a, e, turn))
  {
  }

  lemma ClockNext(o: MeterOptions, a: Account, e: MeterEvent, turn: Turn)
    requires Allowed(a, e) && ClockAgrees(a)
    requires turn.state.lastAudioAt == if e.MarkAudio? then e.at else a.meter.lastAudioAt
    requires turn.state.lastTickAt == if e.TickStart? && !a.meter.closed then e.at else a.meter.lastTickAt
    ensures ClockAgrees(Book(o, a, e, turn))
  {
  }

  lemma WarnedNext(o: MeterOptions, a: Account, e: MeterEvent, turn: Turn)
    requires Enabled(a.meter, e) && Warned(a) && WarningMoves(a.meter, turn)
    ensures Warned(Book(o, a, e, turn))
  {
  }

  lemma TurnMovesMoney(o: MeterOptions, s: MeterState, e: MeterEvent)
    requires Enabled(s, e) && MoneyOk(s) && StagesAgree(s)
    ensures MoneyMoves(s, e, React(o, s, e))
  {
    if OfTick(e) {
      TickMovesMoney(o, s, e);
    } else if OfFlush(e) {
      FlushMovesMoney(o, s, e);
    } else {
      CloseMovesMoney(o, s, e);
    }
  }

  lemma TurnMovesFlushes(o: MeterOptions, s: MeterState, e: MeterEvent)
    requires Enabled(s, e) && SecondsOk(s)
    ensures FlushMoves(s, React(o, s, e))
  {
    if OfTick(e) {
      TickMovesFlushes(o, s, e);
    } else {
      OthersMoveFlushes(o, s, e);
    }
  }

  lemma SoundNext(o: MeterOptions, a: Account, e: MeterEvent)
    requires Sound(o, a) && Allowed(a, e)
    ensures Sound(o, Next(o, a, e))
  {
    var turn := React(o, a.meter, e);
    TurnMovesMoney(o, a.meter, e);
    TurnMovesStages(o, a.meter, e);
    TurnMovesFlushes(o, a.meter, e);
    TurnMovesWarnings(o, a.meter, e);
    TurnMovesClock(o, a.meter, e);
    TurnDrifts(o, a.meter, e);
    ConservedNext(o, a, e, turn);
    ReservedNext(o, a, e, turn);
    FlushesNext(o, a, e, turn);
    DriftNext(o, a, e, turn);
    ClockNext(o, a, e, turn);
    WarnedNext(o, a, e, turn);
  }

  lemma {:induction false} RunSound(o: MeterOptions, events: seq<MeterEvent>)
    requires o.reserved >= 0
    ensures Sound(o, After(o, events))
    decreases |events|
  {
    if events != [] {
      var a, e := After(o, events[..|events| - 1]), events[|events| - 1];
      RunSound(o, events[..|events| - 1]);
      if Allowed(a, e) {
        SoundNext(o, a, e);
      }
    }
  }

  /* What holds of every run */

  /** Credits are never lost or invented, never spent beyond what is reserved, and never spent once a close has begun;
      flushes are numbered one by one. */
  lemma MeterConservation(o: MeterOptions, events: seq<MeterEvent>)
    requires o.reserved >= 0
    ensures var a := After(o, events);
            && a.meter.spent == a.books.flushed + a.books.dropped + InFlight(a.meter) + a.meter.pendingCredits
            && 0 <= a.meter.pendingCredits && 0 <= a.meter.spent <= a.meter.reserved
            && (a.meter.closed ==> a.meter.spent == a.books.spentAtClose)
            && (forall i | 0 <= i < |a.books.issued| :: a.books.issued[i].sequence == i + 1)
  {
    RunSound(o, events);
  }

  /** Credits follow the billed time to within half a unit per charge, the seconds handed over are those billed, and no
      charge reaches further than the pause after the last audio mark. */
  lemma BillingFollowsTime(o: MeterOptions, events: seq<MeterEvent>)
    requires o.reserved >= 0
    ensures var a := After(o, events);
            && DriftWithin(o, a)
            && HandedSeconds(a.books.issued) <= TotalSeconds(a.meter)
            && (a.meter.closed ==> HandedSeconds(a.books.issued) == TotalSeconds(a.meter))
            && 0 <= a.books.billedAfterMark < SILENCE_PAUSE_MS
  {
    RunSound(o, events);
  }

  /** Once settled, everything reserved was spent or released, but for what a top-up granted too late. */
  lemma Settlement(o: MeterOptions, events: seq<MeterEvent>)
    requires o.reserved >= 0 && Settled(After(o, events).meter)
    ensures var a := After(o, events);
            && o.reserved + a.books.granted == a.meter.spent + a.books.released + a.books.lateGrants
            && Remaining(a.meter) == a.books.lateGrants >= 0
            && (!a.books.topUpAtSettle ==> a.books.lateGrants == 0)
  {
    RunSound(o, events);
  }

  /** What later events leave as it is once the reservation is settled. */
  predicate StaysSettled(a: Account, b: Account) {
    && Settled(b.meter) && b.meter.closed && b.books.topUpAtSettle == a.books.topUpAtSettle
    && (!a.meter.tick.TopUpWaiting? ==> b.books.lateGrants == a.books.lateGrants && !b.meter.tick.TopUpWaiting?)
  }

  lemma SettledStep(o: MeterOptions, a: Account, e: MeterEvent, turn: Turn)
    requires Allowed(a, e) && Settled(a.meter) && a.meter.closed && StagesMove(a.meter, e, turn.state)
    ensures StaysSettled(a, Book(o, a, e, turn))
  {
  }

  lemma NextStaysSettled(o: MeterOptions, a: Account, e: MeterEvent)
    requires Sound(o, a) && Settled(a.meter) && a.meter.closed
    ensures StaysSettled(a, Next(o, a, e))
  {
    if Allowed(a, e) {
      TurnMovesStages(o, a.meter, e);
      SettledStep(o, a, e, React(o, a.meter, e));
    }
  }

  lemma {:induction false} SettledStays(o: MeterOptions, events: seq<MeterEvent>, more: seq<MeterEvent>)
    requires o.reserved >= 0 && Settled(After(o, events).meter) && After(o, events).meter.closed
    ensures StaysSettled(After(o, events), After(o, events + more))
    decreases |more|
  {
    if more == [] {
      assert events + more == events;
    } else {
      var front, e := more[..|more| - 1], more[|more| - 1];
      SettledStays(o, events, front);
      assert events + more == events + front + [e];
      AfterOneMore(o, events + front, e);
      var b := After(o, events + front);
      RunSound(o, events + front);
      NextStaysSettled(o, b, e);
      StaysOn(After(o, events), b, Next(o, b, e));
    }
  }

  lemma StaysOn(a: Account, b: Account, c: Account)
    requires StaysSettled(a, b) && StaysSettled(b, c)
    ensures StaysSettled(a, c)
  {
  }

  lemma SettleMeaning(o: MeterOptions, a: Account)
    requires Allowed(a, CloseSettle) && Sound(o, a)
    ensures var b := Next(o, a, CloseSettle);
            && Settled(b.meter) && b.meter.closed && b.meter.tick == a.meter.tick
            && b.books.lateGrants == 0 && b.books.topUpAtSettle == a.meter.tick.TopUpWaiting?
  {
  }

  lemma LateGrantStays(o: MeterOptions, a: Account, granted: int)
    requires Settled(a.meter) && a.meter.tick.TopUpWaiting? && granted > 0
    ensures Remaining(Next(o, a, ReserveReply(granted, 0)).meter) == Remaining(a.meter) + granted
  {
  }

  lemma AfterOneMore(o: MeterOptions, events: seq<MeterEvent>, e: MeterEvent)
    ensures After(o, events + [e]) == Next(o, After(o, events), e)
  {
    assert (events + [e])[..|events|] == events;
  }

  /** The exact condition for a settlement to be complete, whatever happens later: no top-up is in flight when it is
      made. */
  lemma SettlementIsCompleteIff(o: MeterOptions, events: seq<MeterEvent>)
    requires o.reserved >= 0 && Allowed(After(o, events), CloseSettle)
    ensures (forall more :: Remaining(After(o, events + [CloseSettle] + more).meter) == 0)
            <==> !After(o, events).meter.tick.TopUpWaiting?
  {
    var settled := events + [CloseSettle];
    AfterOneMore(o, events, CloseSettle);
    RunSound(o, events);
    SettleMeaning(o, After(o, events));
    Settlement(o, settled);
    if After(o, events).meter.tick.TopUpWaiting? {
      AfterOneMore(o, settled, ReserveReply(1, 0));
      LateGrantStays(o, After(o, settled), 1);
    } else {
      forall more ensures Remaining(After(o, settled + more).meter) == 0 {
        SettledStays(o, settled, more);
        Settlement(o, settled + more);
      }
    }
  }

  /** A session that is closed while its first top-up is in flight, which is then granted. */
  function ClosedTooSoon(o: MeterOptions, granted: int): seq<MeterEvent> {
    [TickStart(o.startedAt)] + [CloseStart(o.startedAt)] + [CloseSettle] + [ReserveReply(granted, 0)]
  }

  /** Such settlements do happen: a session that begins with too little asks for a top-up at once, and keeps all of a
      grant that comes after the close. */
  lemma LateGrantIsKept(o: MeterOptions, granted: int)
    requires o.reserved >= 0 && NeedsTopUp(o, Opening(o)) && granted > 0
    ensures Legal(o, ClosedTooSoon(o, granted)) && Settled(After(o, ClosedTooSoon(o, granted)).meter)
    ensures Remaining(After(o, ClosedTooSoon(o, granted)).meter) == granted
  {
    var begun, asked, closing, settled :=
      [], [TickStart(o.startedAt)], [TickStart(o.startedAt)] + [CloseStart(o.startedAt)],
      [TickStart(o.startedAt)] + [CloseStart(o.startedAt)] + [CloseSettle];
    AfterOneMore(o, begun, TickStart(o.startedAt));
    AfterOneMore(o, asked, CloseStart(o.startedAt));
    AfterOneMore(o, closing, CloseSettle);
    AfterOneMore(o, settled, ReserveReply(granted, 0));
  }

  /* The cut-off */

  predicate FallsShort(o: MeterOptions, s: MeterState, e: MeterEvent) {
    Charges(o, s, e) && Remaining(s) < Wanted(o, e.at - s.lastTickAt)
  }

  /** When the meter is refused credits: a charge the reservation cannot cover, or a top-up that grants nothing. */
  function RefusedAt(o: MeterOptions, a: Account, e: MeterEvent): Option<int> {
    if !Allowed(a, e) then None
    else if FallsShort(o, a.meter, e) then Some(e.at)
    else if e.ReserveReply? && e.granted <= 0 then Some(a.meter.tick.now)
    else None
  }

  /** Grace runs on from the last state or starts with a refusal, a refusal leaves it running, and only a grant ends
      it. */
  predicate GraceMoves(s: MeterState, e: MeterEvent, refused: Option<int>, t: MeterState) {
    var g := s.graceStartedAt;
    t.graceStartedAt == if Granted(e) > 0 then None else if g.Some? then g else refused
  }

  lemma StartTickGrace(o: MeterOptions, s: MeterState, now: int)
    ensures var t := StartTick(o, s, now).state;
            && GraceMoves(s, TickStart(now), if FallsShort(o, s, TickStart(now)) then Some(now) else None, t)
            && (if s.closed then t == s else t.lastTickAt == now && !t.tick.TickIdle? && t.tick.now == now)
  {
  }

  lemma OthersGrace(o: MeterOptions, s: MeterState, e: MeterEvent)
    requires Enabled(s, e) && !e.TickStart?
    ensures var t := React(o, s, e).state;
            && GraceMoves(s, e, if e.ReserveReply? && e.granted <= 0 then Some(s.tick.now) else None, t)
            && t.lastTickAt == s.lastTickAt
            && (t.tick.TickIdle? || (!s.tick.TickIdle? && t.tick.now == s.tick.now))
  {
    if e.TickEnd? {
      EndTickMovesClock(o, s);
    } else if e.ReserveReply? {
      TopUpMovesGrace(s, e.granted, e.balanceRemaining);
    }
  }

  lemma TopUpMovesGrace(s: MeterState, granted: int, balance: int)
    requires s.tick.TopUpWaiting?
    ensures var t := TopUpReplied(s, granted, balance).state;
            && GraceMoves(s, ReserveReply(granted, balance), if granted <= 0 then Some(s.tick.now) else None, t)
            && t.lastTickAt == s.lastTickAt && t.tick == TopUpDone(s.tick.now)
  {
  }

  lemma TurnMovesGrace(o: MeterOptions, a: Account, e: MeterEvent)
    requires Allowed(a, e)
    ensures GraceMoves(a.meter, e, RefusedAt(o, a, e), React(o, a.meter, e).state)
  {
    if e.TickStart? {
      StartTickGrace(o, a.meter, e.at);
    } else {
      OthersGrace(o, a.meter, e);
    }
  }

  /** Grace never starts later than the tick that is running. */
  predicate Dunned(a: Account) {
    var s := a.meter;
    && (s.graceStartedAt.Some? ==> s.graceStartedAt.value <= s.lastTickAt)
    && (!s.tick.TickIdle? ==> s.tick.now == s.lastTickAt)
    && s.lastTickAt <= a.books.clock
  }

  lemma DunnedNext(o: MeterOptions, a: Account, e: MeterEvent)
    requires Allowed(a, e) && Dunned(a)
    ensures Dunned(Next(o, a, e))
  {
    if e.TickStart? {
      StartTickGrace(o, a.meter, e.at);
    } else {
      OthersGrace(o, a.meter, e);
    }
  }

  lemma {:induction false} RunDunned(o: MeterOptions, events: seq<MeterEvent>)
    ensures Dunned(After(o, events))
    decreases |events|
  {
    if events != [] {
      var a, e := After(o, events[..|events| - 1]), events[|events| - 1];
      RunDunned(o, events[..|events| - 1]);
      if Allowed(a, e) {
        DunnedNext(o, a, e);
      }
    }
  }

  /** At step `j` credits were refused, and none have been granted since. */
  predicate RefusedSince(o: MeterOptions, events: seq<MeterEvent>, j: nat, at: int)
    requires j < |events|
  {
    && RefusedAt(o, After(o, events[..j]), events[j]) == Some(at)
    && After(o, events[..j + 1]).books.granted == After(o, events).books.granted
  }

  lemma {:induction false} GraceOrigin(o: MeterOptions, events: seq<MeterEvent>) returns (j: nat)
    requires After(o, events).meter.graceStartedAt.Some?
    ensures j < |events| && RefusedSince(o, events, j, After(o, events).meter.graceStartedAt.value)
    decreases |events|
  {
    var n := |events| - 1;
    var front := events[..n];
    var a := After(o, front);
    if Allowed(a, events[n]) {
      TurnMovesGrace(o, a, events[n]);
    }
    if a.meter.graceStartedAt.Some? {
      j := GraceOrigin(o, front);
      assert events[..j] == front[..j] && events[..j + 1] == front[..j + 1];
    } else {
      j := n;
      assert events[..n + 1] == events;
    }
  }

  lemma {:induction false} GrantsGrow(o: MeterOptions, events: seq<MeterEvent>, k: nat)
    requires k <= |events|
    ensures After(o, events[..k]).books.granted <= After(o, events).books.granted
    decreases |events|
  {
    if k == |events| {
      assert events[..k] == events;
    } else {
      var front := events[..|events| - 1];
      assert front[..k] == events[..k];
      GrantsGrow(o, front, k);
    }
  }

  lemma {:induction false} GraceKeepsRunning(o: MeterOptions, events: seq<MeterEvent>, j: nat, at: int)
    requires j < |events| && RefusedSince(o, events, j, at)
    ensures After(o, events).meter.graceStartedAt.Some? && After(o, events).meter.graceStartedAt.value <= at
    decreases |events|
  {
    var n := |events| - 1;
    var front := events[..n];
    var a := After(o, front);
    assert events[..n + 1] == events;
    assert forall k: nat | k <= n :: front[..k] == events[..k];
    if Allowed(a, events[n]) {
      TurnMovesGrace(o, a, events[n]);
    }
    RunDunned(o, front);
    if j < n {
      GrantsGrow(o, front, j + 1);
      GraceKeepsRunning(o, front, j, at);
    }
  }

  lemma EndTickTells(o: MeterOptions, s: MeterState, e: MeterEvent)
    requires Enabled(s, e)
    ensures Exhausted in React(o, s, e).notices <==> e.TickEnd? && GraceIsOver(s, s.tick.now)
    ensures e.TickEnd? && GraceIsOver(s, s.tick.now) ==> React(o, s, e).state.exhausted
  {
  }

  /** The cut-off comes once, after exactly one critical notice, and at least a minute after credits were refused with
      none granted since. */
  lemma CutOff(o: MeterOptions, events: seq<MeterEvent>, e: MeterEvent) returns (j: nat, refusedAt: int)
    requires o.reserved >= 0
    requires Allowed(After(o, events), e) && Exhausted in React(o, After(o, events).meter, e).notices
    ensures var a := After(o, events);
            && multiset(a.books.notices)[Exhausted] == 0 && multiset(a.books.notices)[CreditsCritical] == 1
            && j < |events| && RefusedSince(o, events, j, refusedAt)
            && e.TickEnd? && a.meter.tick.now - refusedAt >= ZERO_BALANCE_GRACE_SECONDS * 1000
  {
    var a := After(o, events);
    RunSound(o, events);
    EndTickTells(o, a.meter, e);
    refusedAt := a.meter.graceStartedAt.value;
    j := GraceOrigin(o, events);
  }

  /** And it comes no later than the end of the first tick a minute after such a refusal. */
  lemma CutOffIsNotLate(o: MeterOptions, events: seq<MeterEvent>, j: nat, refusedAt: int)
    requires j < |events| && RefusedSince(o, events, j, refusedAt) && Allowed(After(o, events), TickEnd)
    requires After(o, events).meter.tick.now - refusedAt >= ZERO_BALANCE_GRACE_SECONDS * 1000
    ensures After(o, events + [TickEnd]).meter.exhausted
  {
    var s := After(o, events).meter;
    GraceKeepsRunning(o, events, j, refusedAt);
    AfterOneMore(o, events, TickEnd);
    EndTickTells(o, s, TickEnd);
    if s.exhausted {
      ExhaustedStays(o, s, TickEnd);
    }
  }

  lemma ExhaustedStays(o: MeterOptions, s: MeterState, e: MeterEvent)
    requires Enabled(s, e) && s.exhausted
    ensures React(o, s, e).state.exhausted
  {
  }

  /** Over a whole run each notice of the end is given at most once. */
  lemma NoticesAreGivenOnce(o: MeterOptions, events: seq<MeterEvent>)
    requires o.reserved >= 0
    ensures var told := multiset(After(o, events).books.notices);
            told[Exhausted] <= told[CreditsCritical] <= 1
  {
    RunSound(o, events);
  }
}
