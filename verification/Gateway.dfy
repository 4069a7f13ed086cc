/** The ledger gateway of one session, step by step over the shared tables. Balances and hold are read before they are
    written, so they come in as parameters: what was seen may be out of date. */
module GatewayObject {
  import opened Text
  import opened Ledger
  import opened LedgerTable
  import opened Metering
  import B = Bank

  class LedgerGateway {
    const userId: string
    const sessionId: string
    var rows: seq<Row>
    var columns: map<string, B.Columns>
    var holds: map<string, int>
    /** When each hold lapses unless it is written before. */
    var holdExpiresAt: map<string, int>

    ghost function State(): B.Bank
      reads this
    {
      B.Bank(rows, columns, holds)
    }

    function Renewed(expiries: map<string, int>, written: bool, now: int): map<string, int> {
      if written then expiries[userId := now + B.HOLD_TTL_MS] else expiries
    }

    predicate Expired(expiries: map<string, int>, now: int) {
      userId in expiries && expiries[userId] <= now
    }

    /** A hold past its time is no longer there. */
    function Live(bank: B.Bank, expiries: map<string, int>, now: int): B.Bank {
      if Expired(expiries, now) then bank.(holds := bank.holds - {userId}) else bank
    }

    constructor (userId: string, sessionId: string, bank: B.Bank)
      ensures State() == bank && this.userId == userId && this.sessionId == sessionId
    {
      this.userId, this.sessionId := userId, sessionId;
      rows, columns, holds, holdExpiresAt := bank.rows, bank.columns, bank.holds, map[];
    }

    method DropExpired(now: int)
      modifies this`holds
      ensures State() == Live(old(State()), holdExpiresAt, now)
    {
      if userId in holdExpiresAt && holdExpiresAt[userId] <= now {
        holds := holds - {userId};
      }
    }

    /** What a reservation reads before it grants: nothing once the hold has lapsed. */
    method ReadHold(now: int) returns (hold: int)
      modifies this`holds
      ensures State() == Live(old(State()), holdExpiresAt, now)
      ensures hold == if Expired(holdExpiresAt, now) then 0 else B.Hold(old(State()), userId)
    {
      DropExpired(now);
      hold := if userId in holds then holds[userId] else 0;
    }

    /** Every write gives the hold another quarter of an hour; one that has lapsed begins at zero. */
    method IncrementHold(amount: int, now: int)
      modifies this`holds, this`holdExpiresAt
      ensures State() == B.AddToHold(Live(old(State()), old(holdExpiresAt), now), userId, amount)
      ensures holdExpiresAt == Renewed(old(holdExpiresAt), true, now)
    {
      var hold := ReadHold(now);
      holdExpiresAt := holdExpiresAt[userId := now + B.HOLD_TTL_MS];
      holds := holds[userId := hold + amount];
    }

    /** `seen` and `holdSeen` are what was read of the balance and of the hold. */
    method Reserve(amount: int, seen: B.Columns, holdSeen: int, now: int) returns (granted: int, balanceRemaining: int)
      modifies this`holds, this`holdExpiresAt
      ensures granted == Max(0, Min(amount, TotalAvailable(B.Buckets(seen)) - holdSeen))
      ensures granted + balanceRemaining == Max(0, TotalAvailable(B.Buckets(seen)) - holdSeen)
      ensures State() == if granted > 0 then B.AddToHold(Live(old(State()), old(holdExpiresAt), now), userId, granted)
                         else old(State())
      ensures holdExpiresAt == Renewed(old(holdExpiresAt), granted > 0, now)
    {
      var balances := B.Buckets(seen);
      var positive := 0;
      for i := 0 to |balances|
        invariant positive == B.PositiveSum(balances[..i])
      {
        assert balances[..i + 1][..i] == balances[..i];
        positive := positive + Max(0, balances[i].balance);
      }
      assert balances[..|balances|] == balances;
      B.PositiveSumIsAvailable(seen);
      var available := positive - holdSeen;
      granted := Max(0, Min(amount, available));
      if granted > 0 {
        IncrementHold(granted, now);
      }
      balanceRemaining := Max(0, available - granted);
    }

    method InsertUsage(sequence: nat, parts: seq<Part>)
      modifies this`rows
      ensures rows == B.InsertParts(old(rows), userId, sessionId, sequence, parts)
    {
      for i := 0 to |parts|
        invariant rows == B.InsertParts(old(rows), userId, sessionId, sequence, parts[..i])
      {
        assert parts[..i + 1][..i] == parts[..i];
        var part := parts[i];
        if part.amount > 0 {
          Insert(Row(B.FlushKey(sessionId, sequence, part.bucket), userId, part.bucket, -part.amount));
        }
      }
      assert parts[..|parts|] == parts;
    }

    method LowerBalance(plan: SpendPlan)
      modifies this`columns
      ensures columns == if userId in old(columns) then old(columns)[userId := B.Spend(old(columns)[userId], plan)]
                         else old(columns)
    {
      if userId in columns {
        var c := columns[userId];
        columns := columns[userId := B.Columns(c.trial - AmountOf(plan.perBucket, Trial),
                                               c.subscription - AmountOf(plan.perBucket, Subscription),
                                               c.topup - AmountOf(plan.perBucket, Topup), c.total - plan.covered)];
      }
    }

    /** The rows of the plan one by one and the balance row, then the hold. */
    method Flush(entry: FlushEntry, seen: B.Columns, now: int)
      modifies this
      ensures holdExpiresAt == Renewed(old(holdExpiresAt), entry.credits > 0, now)
      ensures State() == if entry.credits <= 0 then old(State())
                         else
                           var written := B.WriteFlush(old(State()), userId, sessionId, entry, seen);
                           B.AddToHold(Live(written, old(holdExpiresAt), now), userId,
                                       -Plan(B.Buckets(seen), entry.credits).covered)
    {
      if entry.credits <= 0 {
        return;
      }
      var plan := PlanSpend(B.Buckets(seen), entry.credits);
      InsertUsage(entry.sequence, plan.perBucket);
      LowerBalance(plan);
      IncrementHold(-plan.covered, now);
    }

    method Insert(row: Row)
      modifies this`rows
      ensures rows == InsertOnce(old(rows), row)
    {
      for i := 0 to |rows|
        invariant forall j | 0 <= j < i :: rows[j].key != row.key
      {
        if rows[i].key == row.key {
          return;
        }
      }
      rows := rows + [row];
    }

    method Release(amount: int, now: int)
      modifies this`holds, this`holdExpiresAt
      ensures holdExpiresAt == Renewed(old(holdExpiresAt), amount > 0, now)
      ensures State() == if amount > 0 then B.AddToHold(Live(old(State()), old(holdExpiresAt), now), userId, -amount)
                         else old(State())
    {
      if amount <= 0 {
        return;
      }
      IncrementHold(-amount, now);
    }
  }
}
