/** Any number of sessions billing at once: their meters, their gateway calls, one ledger, one balance table, one hold
    per user. Gateway calls take effect in any order; what a call read may be out of date, and it may fail half way; a
    hold may lapse, at a moment that `Timeline` judges. */
module Billing {
  import opened Text
  import opened Ledger
  import opened LedgerTable
  import opened Metering
  import opened MeterRuns
  import opened Bank

  /** Fine: all done and answered. Unheard: all done, but reported as failed. Written: a flush failed after its
      transaction. Untouched: failed before anything happened. */
  datatype Outcome = Fine | Unheard | Written | Untouched

  /** `held` is what the session did to its user's hold; the rest explains it. */
  datatype Session = Session(
    id: string, userId: string, options: MeterOptions, account: Account,
    held: int, lostGrants: int, unlowered: int, lostReleases: int, lapsed: int)

  datatype System = System(bank: Bank, sessions: seq<Session>)

  datatype BillingEvent =
    | MeterTurn(i: nat, e: MeterEvent)
    | ReserveServed(i: nat, available: int, outcome: Outcome)
    | FlushServed(i: nat, closing: bool, seen: Columns, outcome: Outcome)
    | ReleaseServed(i: nat, outcome: Outcome)
    | HoldLapses(i: nat, at: int)

  datatype Served = Served(bank: Bank, session: Session)

  function Advance(s: Session, e: MeterEvent): Session {
    s.(account := Next(s.options, s.account, e))
  }

  predicate TookEffect(outcome: Outcome) {
    outcome.Fine? || outcome.Unheard?
  }

  function If(b: bool, amount: int): int {
    if b then amount else 0
  }

  /** A reservation that granted so much left the meter at `b`. */
  function GrantServed(bank: Bank, s: Session, b: Account, granted: int, outcome: Outcome): Served {
    var taken := If(TookEffect(outcome), granted);
    Served(if taken > 0 then AddToHold(bank, s.userId, taken) else bank,
           s.(account := b, held := s.held + taken, lostGrants := s.lostGrants + If(outcome.Unheard?, granted)))
  }

  function GrantFor(want: int, available: int): (granted: int)
    ensures granted >= 0
  {
    Max(0, Min(want, available))
  }

  function ReserveAnswer(granted: int, available: int, outcome: Outcome): MeterEvent {
    if outcome.Fine? then ReserveReply(granted, Max(0, available - granted)) else ReserveFailed
  }

  function ServeReserve(bank: Bank, s: Session, available: int, outcome: Outcome): Served
    requires s.account.meter.tick.TopUpWaiting?
  {
    var granted := GrantFor(s.account.meter.tick.want, available);
    GrantServed(bank, s, Next(s.options, s.account, ReserveAnswer(granted, available, outcome)), granted, outcome)
  }

  predicate Waiting(s: MeterState, closing: bool) {
    if closing then s.close.CloseFlushWaiting? else s.tick.FlushWaiting?
  }

  function Entry(s: MeterState, closing: bool): FlushEntry
    requires Waiting(s, closing)
  {
    if closing then s.close.lastEntry else s.tick.entry
  }

  function Reply(closing: bool, ok: bool): MeterEvent {
    if closing then CloseFlushReply(ok) else FlushReply(ok)
  }

  function FlushBank(bank: Bank, s: Session, entry: FlushEntry, seen: Columns, outcome: Outcome): Bank {
    var written := if outcome.Untouched? then bank else WriteFlush(bank, s.userId, s.id, entry, seen);
    if TookEffect(outcome) then AddToHold(written, s.userId, -Plan(Buckets(seen), entry.credits).covered) else written
  }

  function BankAfter(bank: Bank, s: Session, entry: FlushEntry, seen: Columns, outcome: Outcome): Bank {
    if entry.credits <= 0 then bank else FlushBank(bank, s, entry, seen, outcome)
  }

  function ServeFlush(bank: Bank, s: Session, closing: bool, seen: Columns, outcome: Outcome): Served
    requires Waiting(s.account.meter, closing)
  {
    var entry := Entry(s.account.meter, closing);
    var session :=
      if entry.credits <= 0 then Advance(s, Reply(closing, true))
      else
        var lowered := If(TookEffect(outcome), Plan(Buckets(seen), entry.credits).covered);
        Advance(s, Reply(closing, outcome.Fine?)).(held := s.held - lowered,
                                                   unlowered := s.unlowered + entry.credits - lowered);
    Served(BankAfter(bank, s, entry, seen, outcome), session)
  }

  function ServeRelease(bank: Bank, s: Session, outcome: Outcome): Served
    requires s.account.meter.close.Releasing?
  {
    var amount := s.account.meter.close.amount;
    var lowered := If(TookEffect(outcome), Max(0, amount));
    Served(if lowered > 0 then AddToHold(bank, s.userId, -lowered) else bank,
           Advance(s, ReleaseReply(outcome.Fine?)).(held := s.held - lowered,
                                                    lostReleases := s.lostReleases + amount - lowered))
  }

  /** The hold of the session's user has not been written for too long and is gone. */
  function LapseHold(bank: Bank, s: Session): Served {
    var hold := Hold(bank, s.userId);
    Served(bank.(holds := bank.holds - {s.userId}), s.(held := s.held - hold, lapsed := s.lapsed + hold))
  }

  predicate FromGateway(e: MeterEvent) {
    e.ReserveReply? || e.ReserveFailed? || e.FlushReply? || e.CloseFlushReply? || e.ReleaseReply?
  }

  predicate Possible(sys: System, ev: BillingEvent) {
    && ev.i < |sys.sessions|
    && var s := sys.sessions[ev.i];
       match ev
       case MeterTurn(_, e) => Allowed(s.account, e) && !FromGateway(e)
       case ReserveServed(_, _, _) => s.account.meter.tick.TopUpWaiting?
       case FlushServed(_, closing, seen, _) => Waiting(s.account.meter, closing) && Seeable(sys.bank, s.userId, seen)
       case ReleaseServed(_, _) => s.account.meter.close.Releasing?
       case HoldLapses(_, _) => true
  }

  function Serve(sys: System, ev: BillingEvent): Served
    requires Possible(sys, ev)
  {
    var s := sys.sessions[ev.i];
    match ev
    case MeterTurn(_, e) => Served(sys.bank, Advance(s, e))
    case ReserveServed(_, available, outcome) => ServeReserve(sys.bank, s, available, outcome)
    case FlushServed(_, closing, seen, outcome) => ServeFlush(sys.bank, s, closing, seen, outcome)
    case ReleaseServed(_, outcome) => ServeRelease(sys.bank, s, outcome)
    case HoldLapses(_, _) => LapseHold(sys.bank, s)
  }

  function Move(sys: System, ev: BillingEvent): System {
    if Possible(sys, ev) then
      var served := Serve(sys, ev);
      System(served.bank, sys.sessions[ev.i := served.session])
    else sys
  }

  function Run(start: System, events: seq<BillingEvent>): System {
    if events == [] then start else Move(Run(start, events[..|events| - 1]), events[|events| - 1])
  }

  predicate Fresh(s: Session) {
    && s.options.reserved >= 0
    && s == Session(s.id, s.userId, s.options, Begin(s.options), 0, 0, 0, 0, 0)
  }

  /* One session */

  function InRelease(s: MeterState): int {
    if s.close.Releasing? then s.close.amount else 0
  }

  predicate HoldAgrees(s: Session) {
    var b := s.account.books;
    s.held == b.granted + s.lostGrants - (b.flushed + b.dropped - s.unlowered)
              - (b.released - s.lostReleases - InRelease(s.account.meter)) - s.lapsed
  }

  predicate Sequenced(m: MeterState) {
    && (m.tick.FlushWaiting? ==> m.tick.entry.sequence <= m.flushSequence && m.tick.entry.credits >= 0)
    && (m.close.CloseFlushWaiting? ==> m.close.lastEntry.sequence <= m.flushSequence && m.close.lastEntry.credits >= 0)
    && (m.tick.FlushWaiting? && m.close.CloseFlushWaiting? ==> m.tick.entry.sequence != m.close.lastEntry.sequence)
  }

  /** A flush that has been handed over and answered. */
  predicate Past(m: MeterState, n: nat) {
    && n <= m.flushSequence
    && (m.tick.FlushWaiting? ==> m.tick.entry.sequence != n)
    && (m.close.CloseFlushWaiting? ==> m.close.lastEntry.sequence != n)
  }

  ghost predicate KeysPast(rows: seq<Row>, s: Session) {
    forall n: nat, bucket :: HasKey(rows, FlushKey(s.id, n, bucket)) ==> Past(s.account.meter, n)
  }

  ghost predicate SessionOk(rows: seq<Row>, s: Session) {
    && s.options.reserved >= 0 && Sound(s.options, s.account) && Sequenced(s.account.meter)
    && HoldAgrees(s) && KeysPast(rows, s)
  }

  /** What a turn does to the figures the hold depends on. */
  predicate Figures(a: Account, b: Account, granted: int, answered: int, settled: int) {
    && b.books.granted == a.books.granted + granted
    && b.books.flushed + b.books.dropped == a.books.flushed + a.books.dropped + answered
    && b.books.released - InRelease(b.meter) == a.books.released - InRelease(a.meter) + settled
  }

  /** Sequences only grow, and what was answered stays answered. */
  ghost predicate SequencesMove(a: MeterState, b: MeterState) {
    Sequenced(b) && forall n | Past(a, n) :: Past(b, n)
  }

  lemma InternalFigures(o: MeterOptions, a: Account, e: MeterEvent)
    requires Allowed(a, e) && !FromGateway(e) && StagesAgree(a.meter)
    ensures Figures(a, Next(o, a, e), 0, 0, 0)
  {
    if e.TickStart? {
      StartTickMeaning(o, a.meter, e.at);
    }
  }

  lemma InternalSequences(o: MeterOptions, m: MeterState, e: MeterEvent)
    requires Enabled(m, e) && !FromGateway(e) && Sequenced(m) && m.pendingCredits >= 0
    ensures SequencesMove(m, React(o, m, e).state)
  {
    if e.TickStart? {
      StartTickMeaning(o, m, e.at);
    } else if e.TickFlush? {
      TickFlushSequences(m);
    }
  }

  lemma TickFlushSequences(m: MeterState)
    requires m.tick.TopUpDone? && Sequenced(m) && m.pendingCredits >= 0
    ensures SequencesMove(m, FlushInTick(m).state)
  {
  }

  lemma FlushReplyFigures(o: MeterOptions, a: Account, closing: bool, ok: bool)
    requires Waiting(a.meter, closing) && Sequenced(a.meter)
    ensures var entry := Entry(a.meter, closing);
            var b := Next(o, a, Reply(closing, ok));
            && Allowed(a, Reply(closing, ok))
            && Figures(a, b, 0, entry.credits, 0)
            && SequencesMove(a.meter, b.meter) && Past(b.meter, entry.sequence)
  {
  }

  lemma ReserveFigures(o: MeterOptions, a: Account, reply: MeterEvent)
    requires a.meter.tick.TopUpWaiting? && Sequenced(a.meter) && (reply.ReserveReply? || reply.ReserveFailed?)
    ensures var b := Next(o, a, reply);
            && Allowed(a, reply)
            && Figures(a, b, Granted(reply), 0, 0)
            && SequencesMove(a.meter, b.meter)
  {
  }

  lemma ReleaseFigures(o: MeterOptions, a: Account, ok: bool)
    requires a.meter.close.Releasing? && Sequenced(a.meter)
    ensures var b := Next(o, a, ReleaseReply(ok));
            && Allowed(a, ReleaseReply(ok))
            && Figures(a, b, 0, 0, a.meter.close.amount)
            && SequencesMove(a.meter, b.meter)
  {
  }

  /* One event */

  /** The hold follows the session, and no balance moves away from its ledger. */
  ghost predicate BankMoves(bank: Bank, s: Session, served: Served) {
    && (forall user :: Hold(served.bank, user) == Hold(bank, user) + If(user == s.userId, served.session.held - s.held))
    && (forall user, bucket :: SameDrift(served.bank, bank, user, bucket))
    && (forall user :: TotalDrift(served.bank, user) == TotalDrift(bank, user))
    && (forall user | user in bank.columns :: user in served.bank.columns)
  }

  /** New keys are those of flushes the session has had answered. */
  ghost predicate KeysMove(bank: Bank, s: Session, served: Served) {
    && (forall n: nat, bucket | HasKey(served.bank.rows, FlushKey(s.id, n, bucket)) ::
          HasKey(bank.rows, FlushKey(s.id, n, bucket)) || Past(served.session.account.meter, n))
    && (forall sid, n: nat, bucket | sid != s.id && HasKey(served.bank.rows, FlushKey(sid, n, bucket)) ::
          HasKey(bank.rows, FlushKey(sid, n, bucket)))
  }

  ghost predicate Serves(bank: Bank, s: Session, served: Served) {
    var t := served.session;
    && t.id == s.id && t.userId == s.userId && t.options == s.options
    && Sound(t.options, t.account) && HoldAgrees(t)
    && SequencesMove(s.account.meter, t.account.meter)
    && BankMoves(bank, s, served) && KeysMove(bank, s, served)
  }

  lemma InternalServes(bank: Bank, s: Session, b: Account)
    requires HoldAgrees(s) && Figures(s.account, b, 0, 0, 0) && Sound(s.options, b)
    requires SequencesMove(s.account.meter, b.meter)
    ensures Serves(bank, s, Served(bank, s.(account := b)))
  {
  }

  lemma TurnServes(bank: Bank, s: Session, e: MeterEvent)
    requires SessionOk(bank.rows, s) && Allowed(s.account, e) && !FromGateway(e)
    ensures Serves(bank, s, Served(bank, Advance(s, e)))
  {
    var b := Next(s.options, s.account, e);
    SoundNext(s.options, s.account, e);
    InternalFigures(s.options, s.account, e);
    InternalSequences(s.options, s.account.meter, e);
    InternalServes(bank, s, b);
  }

  /** The hold is all that changes. */
  lemma HoldServes(bank: Bank, s: Session, t: Session, changed: Bank)
    requires changed == bank || changed == AddToHold(bank, s.userId, t.held - s.held)
    requires changed == bank ==> t.held == s.held
    ensures BankMoves(bank, s, Served(changed, t)) && KeysMove(bank, s, Served(changed, t))
  {
  }

  lemma HoldFollows(s: Session, t: Session, granted: int, answered: int, settled: int)
    requires HoldAgrees(s) && Figures(s.account, t.account, granted, answered, settled)
    requires t.held - s.held == granted + (t.lostGrants - s.lostGrants) - (answered - (t.unlowered - s.unlowered))
                                - (settled - (t.lostReleases - s.lostReleases)) - (t.lapsed - s.lapsed)
    ensures HoldAgrees(t)
  {
  }

  lemma ReserveServed(bank: Bank, s: Session, b: Account, granted: int, outcome: Outcome)
    requires HoldAgrees(s) && Figures(s.account, b, If(outcome.Fine?, granted), 0, 0) && Sound(s.options, b)
    requires SequencesMove(s.account.meter, b.meter) && granted >= 0
    ensures Serves(bank, s, GrantServed(bank, s, b, granted, outcome))
  {
    var served := GrantServed(bank, s, b, granted, outcome);
    HoldFollows(s, served.session, If(outcome.Fine?, granted), 0, 0);
    HoldServes(bank, s, served.session, served.bank);
  }

  lemma ReserveAccount(o: MeterOptions, a: Account, reply: MeterEvent)
    requires a.meter.tick.TopUpWaiting? && Sequenced(a.meter) && (reply.ReserveReply? || reply.ReserveFailed?)
             && Sound(o, a)
    ensures var b := Next(o, a, reply);
            Figures(a, b, Granted(reply), 0, 0) && SequencesMove(a.meter, b.meter) && Sound(o, b)
  {
    ReserveFigures(o, a, reply);
    SoundNext(o, a, reply);
  }

  lemma ReserveServes(bank: Bank, s: Session, available: int, outcome: Outcome)
    requires Sound(s.options, s.account) && Sequenced(s.account.meter) && HoldAgrees(s)
    requires s.account.meter.tick.TopUpWaiting?
    ensures Serves(bank, s, ServeReserve(bank, s, available, outcome))
  {
    var granted := GrantFor(s.account.meter.tick.want, available);
    var answer := ReserveAnswer(granted, available, outcome);
    assert Granted(answer) == If(outcome.Fine?, granted);
    ReserveAccount(s.options, s.account, answer);
    ReserveServed(bank, s, Next(s.options, s.account, answer), granted, outcome);
  }

  lemma ReleaseServes(bank: Bank, s: Session, outcome: Outcome)
    requires SessionOk(bank.rows, s) && s.account.meter.close.Releasing?
    ensures Serves(bank, s, ServeRelease(bank, s, outcome))
  {
    var served := ServeRelease(bank, s, outcome);
    ReleaseFigures(s.options, s.account, outcome.Fine?);
    SoundNext(s.options, s.account, ReleaseReply(outcome.Fine?));
    HoldServes(bank, s, served.session, served.bank);
  }

  lemma LapseServes(bank: Bank, s: Session)
    requires SessionOk(bank.rows, s)
    ensures Serves(bank, s, LapseHold(bank, s))
  {
  }

  /* A flush */

  lemma FlushKeys(bank: Bank, userId: string, sid: string, entry: FlushEntry, seen: Columns, key: string)
    requires HasKey(WriteFlush(bank, userId, sid, entry, seen).rows, key)
    ensures HasKey(bank.rows, key) || exists b :: key == FlushKey(sid, entry.sequence, b)
  {
    var parts := Plan(Buckets(seen), entry.credits).perBucket;
    PlanIsTidy(Buckets(seen), entry.credits);
    InsertPartsKeys(bank.rows, userId, sid, entry.sequence, parts, key);
    if !HasKey(bank.rows, key) {
      var i :| 0 <= i < |parts| && FlushKey(sid, entry.sequence, parts[i].bucket) == key;
    }
  }

  lemma FlushKeysMove(bank: Bank, s: Session, entry: FlushEntry, seen: Columns, t: Session)
    requires Past(t.account.meter, entry.sequence)
    ensures KeysMove(bank, s, Served(WriteFlush(bank, s.userId, s.id, entry, seen), t))
  {
    var rows := WriteFlush(bank, s.userId, s.id, entry, seen).rows;
    forall sid, n: nat, bucket | HasKey(rows, FlushKey(sid, n, bucket))
      ensures HasKey(bank.rows, FlushKey(sid, n, bucket)) || (sid == s.id && n == entry.sequence)
    {
      FlushKeys(bank, s.userId, s.id, entry, seen, FlushKey(sid, n, bucket));
      if !HasKey(bank.rows, FlushKey(sid, n, bucket)) {
        var b :| FlushKey(sid, n, bucket) == FlushKey(s.id, entry.sequence, b);
        FlushKeyInjective(sid, n, bucket, s.id, entry.sequence, b);
      }
    }
  }

  /** A session's flush in flight was not written before, so its transaction keeps every balance with its ledger. */
  lemma FlushKeepsBalances(bank: Bank, s: Session, closing: bool, seen: Columns)
    requires SessionOk(bank.rows, s) && Waiting(s.account.meter, closing) && Seeable(bank, s.userId, seen)
    ensures var after := WriteFlush(bank, s.userId, s.id, Entry(s.account.meter, closing), seen);
            && (forall user, bucket :: SameDrift(after, bank, user, bucket))
            && (forall user :: TotalDrift(after, user) == TotalDrift(bank, user))
  {
    var entry := Entry(s.account.meter, closing);
    var after := WriteFlush(bank, s.userId, s.id, entry, seen);
    forall user, bucket ensures SameDrift(after, bank, user, bucket) {
      WriteMovesDrift(bank, s.userId, s.id, entry, seen, user, bucket);
      assert !Past(s.account.meter, entry.sequence);
    }
    forall user ensures TotalDrift(after, user) == TotalDrift(bank, user) {
      WriteKeepsTotal(bank, s.userId, s.id, entry, seen, user);
    }
  }

  lemma FlushSession(bank: Bank, s: Session, closing: bool, seen: Columns, outcome: Outcome)
    requires SessionOk(bank.rows, s) && Waiting(s.account.meter, closing)
    ensures var t := ServeFlush(bank, s, closing, seen, outcome).session;
            && Sound(t.options, t.account) && HoldAgrees(t) && SequencesMove(s.account.meter, t.account.meter)
            && Past(t.account.meter, Entry(s.account.meter, closing).sequence)
  {
    var entry := Entry(s.account.meter, closing);
    var ok := entry.credits <= 0 || outcome.Fine?;
    FlushReplyFigures(s.options, s.account, closing, ok);
    SoundNext(s.options, s.account, Reply(closing, ok));
    HoldFollows(s, ServeFlush(bank, s, closing, seen, outcome).session, 0, entry.credits, 0);
  }

  lemma FlushServes(bank: Bank, s: Session, closing: bool, seen: Columns, outcome: Outcome)
    requires SessionOk(bank.rows, s) && Waiting(s.account.meter, closing) && Seeable(bank, s.userId, seen)
    ensures Serves(bank, s, ServeFlush(bank, s, closing, seen, outcome))
  {
    var served := ServeFlush(bank, s, closing, seen, outcome);
    FlushSession(bank, s, closing, seen, outcome);
    FlushBankMoves(bank, s, closing, seen, outcome, served.session);
  }

  lemma WrittenServes(bank: Bank, written: Bank, s: Session, t: Session, changed: Bank)
    requires written.holds == bank.holds && KeysMove(bank, s, Served(written, t))
    requires forall user, bucket :: SameDrift(written, bank, user, bucket)
    requires forall user :: TotalDrift(written, user) == TotalDrift(bank, user)
    requires forall user | user in bank.columns :: user in written.columns
    requires (changed == written && t.held == s.held) || changed == AddToHold(written, s.userId, t.held - s.held)
    ensures BankMoves(bank, s, Served(changed, t)) && KeysMove(bank, s, Served(changed, t))
  {
    forall user, bucket ensures SameDrift(changed, bank, user, bucket) {
      assert SameDrift(written, bank, user, bucket);
    }
  }

  lemma FlushBankMoves(bank: Bank, s: Session, closing: bool, seen: Columns, outcome: Outcome, t: Session)
    requires SessionOk(bank.rows, s) && Waiting(s.account.meter, closing) && Seeable(bank, s.userId, seen)
    requires Past(t.account.meter, Entry(s.account.meter, closing).sequence)
    requires var entry := Entry(s.account.meter, closing);
             t.held == s.held - If(entry.credits > 0 && TookEffect(outcome), Plan(Buckets(seen), entry.credits).covered)
    ensures var served := Served(BankAfter(bank, s, Entry(s.account.meter, closing), seen, outcome), t);
            BankMoves(bank, s, served) && KeysMove(bank, s, served)
  {
    var entry := Entry(s.account.meter, closing);
    var changed := BankAfter(bank, s, entry, seen, outcome);
    if entry.credits <= 0 || outcome.Untouched? {
      HoldServes(bank, s, t, bank);
    } else {
      FlushKeepsBalances(bank, s, closing, seen);
      FlushKeysMove(bank, s, entry, seen, t);
      WrittenServes(bank, WriteFlush(bank, s.userId, s.id, entry, seen), s, t, changed);
    }
  }

  /* Every event */

  lemma EventServes(sys: System, ev: BillingEvent)
    requires Possible(sys, ev) && SessionOk(sys.bank.rows, sys.sessions[ev.i])
    ensures Serves(sys.bank, sys.sessions[ev.i], Serve(sys, ev))
  {
    var s := sys.sessions[ev.i];
    match ev
    case MeterTurn(_, e) => TurnServes(sys.bank, s, e);
    case ReserveServed(_, available, outcome) => ReserveServes(sys.bank, s, available, outcome);
    case FlushServed(_, closing, seen, outcome) => FlushServes(sys.bank, s, closing, seen, outcome);
    case ReleaseServed(_, outcome) => ReleaseServes(sys.bank, s, outcome);
    case HoldLapses(_, _) => LapseServes(sys.bank, s);
  }

  ghost predicate SystemOk(sys: System) {
    && (forall i | 0 <= i < |sys.sessions| :: SessionOk(sys.bank.rows, sys.sessions[i]))
    && (forall i, j | 0 <= i < j < |sys.sessions| :: sys.sessions[i].id != sys.sessions[j].id)
  }

  lemma MoveKeepsSystem(sys: System, ev: BillingEvent)
    requires SystemOk(sys)
    ensures SystemOk(Move(sys, ev))
  {
    if Possible(sys, ev) {
      EventServes(sys, ev);
      ServedKeepsSystem(sys, ev.i, Serve(sys, ev));
    }
  }

  lemma ServedKeepsSystem(sys: System, i: nat, served: Served)
    requires SystemOk(sys) && i < |sys.sessions| && Serves(sys.bank, sys.sessions[i], served)
    ensures SystemOk(System(served.bank, sys.sessions[i := served.session]))
  {
    OwnKeys(sys.bank, sys.sessions[i], served);
    forall j | 0 <= j < |sys.sessions| && j != i ensures SessionOk(served.bank.rows, sys.sessions[j]) {
      OthersKeys(sys.bank, sys.sessions[i], served, sys.sessions[j]);
    }
  }

  lemma OwnKeys(bank: Bank, s: Session, served: Served)
    requires SessionOk(bank.rows, s) && Serves(bank, s, served)
    ensures SessionOk(served.bank.rows, served.session)
  {
  }

  lemma OthersKeys(bank: Bank, s: Session, served: Served, other: Session)
    requires SessionOk(bank.rows, other) && Serves(bank, s, served) && other.id != s.id
    ensures SessionOk(served.bank.rows, other)
  {
  }
}
