/** What a flush writes: ledger rows and the materialised balance in one transaction, then the hold. */
module Bank {
  import opened Text
  import opened Ledger
  import opened LedgerTable
  import opened Metering

  /** A hold that is not written for this long lapses. */
  const HOLD_TTL_MS: int := 900_000

  datatype Columns = Columns(trial: int, subscription: int, topup: int, total: int)

  datatype Bank = Bank(rows: seq<Row>, columns: map<string, Columns>, holds: map<string, int>)

  function BucketName(bucket: Bucket): (name: string)
    ensures ':' !in name
  {
    match bucket
    case Trial => "trial"
    case Subscription => "subscription"
    case Topup => "topup"
  }

  function FlushKey(sessionId: string, sequence: nat, bucket: Bucket): string {
    "sess:" + sessionId + ":" + Decimal(sequence) + ":" + BucketName(bucket)
  }

  /** A key names its session, flush and bucket, whatever the session id contains. */
  lemma FlushKeyInjective(sid: string, n: nat, b: Bucket, sid': string, n': nat, b': Bucket)
    requires FlushKey(sid, n, b) == FlushKey(sid', n', b')
    ensures sid == sid' && n == n' && b == b'
  {
    var front, front' := "sess:" + sid + ":" + Decimal(n), "sess:" + sid' + ":" + Decimal(n');
    SplitAtLast(front, BucketName(b), front', BucketName(b'), ':');
    assert ':' !in Decimal(n) && ':' !in Decimal(n');
    SplitAtLast("sess:" + sid, Decimal(n), "sess:" + sid', Decimal(n'), ':');
    DecimalInjective(n, n');
    assert sid == ("sess:" + sid)[5..] && sid' == ("sess:" + sid')[5..];
  }

  function Read(bank: Bank, userId: string): Columns {
    if userId in bank.columns then bank.columns[userId] else Columns(0, 0, 0, 0)
  }

  function Buckets(c: Columns): seq<BucketBalance> {
    [BucketBalance(Trial, c.trial), BucketBalance(Subscription, c.subscription), BucketBalance(Topup, c.topup)]
  }

  function PositiveSum(balances: seq<BucketBalance>): int {
    if balances == [] then 0 else PositiveSum(balances[..|balances| - 1]) + Max(0, balances[|balances| - 1].balance)
  }

  lemma BalanceInBuckets(c: Columns, bucket: Bucket)
    ensures BalanceIn(Buckets(c), bucket) == Column(c, bucket)
  {
    var rest := [BucketBalance(Subscription, c.subscription), BucketBalance(Topup, c.topup)];
    assert Buckets(c)[1..] == rest && rest[1..] == [BucketBalance(Topup, c.topup)];
    assert BalanceIn(rest, bucket) == if bucket.Subscription? then c.subscription else BalanceIn(rest[1..], bucket);
  }

  lemma PositiveSumIsAvailable(c: Columns)
    ensures PositiveSum(Buckets(c)) == TotalAvailable(Buckets(c))
  {
    var two := [BucketBalance(Trial, c.trial), BucketBalance(Subscription, c.subscription)];
    assert Buckets(c)[..2] == two && two[..1] == [BucketBalance(Trial, c.trial)];
    assert two[..1][..0] == [] && PositiveSum(two[..1]) == Max(0, c.trial);
    assert PositiveSum(two) == PositiveSum(two[..1]) + Max(0, c.subscription);
    BalanceInBuckets(c, Trial);
    BalanceInBuckets(c, Subscription);
    BalanceInBuckets(c, Topup);
  }

  function Column(c: Columns, bucket: Bucket): int {
    match bucket
    case Trial => c.trial
    case Subscription => c.subscription
    case Topup => c.topup
  }

  function UsageRow(userId: string, sessionId: string, sequence: nat, part: Part): Row {
    Row(FlushKey(sessionId, sequence, part.bucket), userId, part.bucket, -part.amount)
  }

  /** The inserts of a flush, part by part. */
  function InsertParts(rows: seq<Row>, userId: string, sessionId: string, sequence: nat, parts: seq<Part>): seq<Row> {
    if parts == [] then rows
    else
      var before := InsertParts(rows, userId, sessionId, sequence, parts[..|parts| - 1]);
      var last := parts[|parts| - 1];
      if last.amount <= 0 then before else InsertOnce(before, UsageRow(userId, sessionId, sequence, last))
  }

  function Spend(c: Columns, plan: SpendPlan): Columns {
    Columns(c.trial - AmountOf(plan.perBucket, Trial), c.subscription - AmountOf(plan.perBucket, Subscription),
            c.topup - AmountOf(plan.perBucket, Topup), c.total - plan.covered)
  }

  /** The transaction of a flush. `seen` is the balance it was planned on, which may be out of date by now. */
  function WriteFlush(bank: Bank, userId: string, sessionId: string, entry: FlushEntry, seen: Columns): Bank {
    var plan := Plan(Buckets(seen), entry.credits);
    bank.(rows := InsertParts(bank.rows, userId, sessionId, entry.sequence, plan.perBucket),
          columns := if userId in bank.columns then bank.columns[userId := Spend(bank.columns[userId], plan)]
            else bank.columns)
  }

  function Hold(bank: Bank, userId: string): int {
    if userId in bank.holds then bank.holds[userId] else 0
  }

  function AddToHold(bank: Bank, userId: string, amount: int): Bank {
    bank.(holds := bank.holds[userId := Hold(bank, userId) + amount])
  }

  /* The ledger and the balance */

  /** How far a balance column is from the sum of its ledger entries. */
  function Drift(bank: Bank, userId: string, bucket: Bucket): int {
    Column(Read(bank, userId), bucket) - BalanceOf(bank.rows, userId, bucket)
  }

  function TotalDrift(bank: Bank, userId: string): int {
    var c := Read(bank, userId);
    c.total - (c.trial + c.subscription + c.topup)
  }

  predicate DistinctBuckets(parts: seq<Part>) {
    forall i, j | 0 <= i < j < |parts| :: parts[i].bucket != parts[j].bucket
  }

  predicate AllPositive(parts: seq<Part>) {
    forall i | 0 <= i < |parts| :: parts[i].amount > 0
  }

  lemma PlanIsTidy(balances: seq<BucketBalance>, amount: int)
    ensures DistinctBuckets(Plan(balances, amount).perBucket) && AllPositive(Plan(balances, amount).perBucket)
  {
    PlanParts(balances, amount);
  }

  function Written(rows: seq<Row>, sessionId: string, sequence: nat, parts: seq<Part>, bucket: Bucket): int {
    if HasKey(rows, FlushKey(sessionId, sequence, bucket)) then 0 else AmountOf(parts, bucket)
  }

  lemma {:induction false} AmountOfLast(parts: seq<Part>, bucket: Bucket)
    requires parts != [] && DistinctBuckets(parts)
    ensures var front, last := parts[..|parts| - 1], parts[|parts| - 1];
            AmountOf(parts, bucket) == if last.bucket == bucket then last.amount else AmountOf(front, bucket)
    ensures parts[|parts| - 1].bucket == bucket ==> AmountOf(parts[..|parts| - 1], bucket) == 0
    decreases |parts|
  {
    if |parts| > 1 {
      var rest := parts[1..];
      AmountOfLast(rest, bucket);
      assert parts[..|parts| - 1][1..] == rest[..|rest| - 1];
    }
  }

  lemma {:induction false} InsertPartsKeys(rows: seq<Row>, userId: string, sid: string, n: nat, parts: seq<Part>,
                                           key: string)
    requires AllPositive(parts)
    ensures HasKey(InsertParts(rows, userId, sid, n, parts), key)
            <==> HasKey(rows, key) || exists i :: 0 <= i < |parts| && FlushKey(sid, n, parts[i].bucket) == key
    decreases |parts|
  {
    if parts != [] {
      var front, last := parts[..|parts| - 1], parts[|parts| - 1];
      var before := InsertParts(rows, userId, sid, n, front);
      InsertPartsKeys(rows, userId, sid, n, front, key);
      HasKeyOneMore(before, UsageRow(userId, sid, n, last), key);
      assert forall i | 0 <= i < |front| :: front[i] == parts[i];
    }
  }

  lemma {:induction false} InsertPartsBalance(rows: seq<Row>, userId: string, sid: string, n: nat, parts: seq<Part>,
                                              user: string, bucket: Bucket)
    requires AllPositive(parts) && DistinctBuckets(parts)
    ensures BalanceOf(InsertParts(rows, userId, sid, n, parts), user, bucket)
            == BalanceOf(rows, user, bucket) - if user == userId then Written(rows, sid, n, parts, bucket) else 0
    decreases |parts|
  {
    if parts != [] {
      var front, last := parts[..|parts| - 1], parts[|parts| - 1];
      var before := InsertParts(rows, userId, sid, n, front);
      var row := UsageRow(userId, sid, n, last);
      InsertPartsBalance(rows, userId, sid, n, front, user, bucket);
      AmountOfLast(parts, bucket);
      LastKeyIsNew(rows, userId, sid, n, parts);
      BalanceOfOneMore(before, row, user, bucket);
    }
  }

  /** Parts of one flush have different keys, so only an earlier flush can have written the key of the last one. */
  lemma LastKeyIsNew(rows: seq<Row>, userId: string, sid: string, n: nat, parts: seq<Part>)
    requires parts != [] && AllPositive(parts) && DistinctBuckets(parts)
    ensures var front, key := parts[..|parts| - 1], FlushKey(sid, n, parts[|parts| - 1].bucket);
            HasKey(InsertParts(rows, userId, sid, n, front), key) <==> HasKey(rows, key)
  {
    var front, last := parts[..|parts| - 1], parts[|parts| - 1];
    InsertPartsKeys(rows, userId, sid, n, front, FlushKey(sid, n, last.bucket));
    forall i | 0 <= i < |front| ensures FlushKey(sid, n, front[i].bucket) != FlushKey(sid, n, last.bucket) {
      assert parts[i].bucket != last.bucket;
      if FlushKey(sid, n, front[i].bucket) == FlushKey(sid, n, last.bucket) {
        FlushKeyInjective(sid, n, front[i].bucket, sid, n, last.bucket);
      }
    }
  }

  /** A balance read was zero while the user had no row. */
  predicate Seeable(bank: Bank, userId: string, seen: Columns) {
    userId in bank.columns || seen == Columns(0, 0, 0, 0)
  }

  lemma NothingToSpend(amount: int, bucket: Bucket)
    ensures AmountOf(Plan(Buckets(Columns(0, 0, 0, 0)), amount).perBucket, bucket) == 0
    ensures Plan(Buckets(Columns(0, 0, 0, 0)), amount).covered == 0
  {
    PlanMeaning(Buckets(Columns(0, 0, 0, 0)), amount);
  }

  /** A flush moves a balance away from its ledger by exactly what the ledger had on record already. */
  lemma WriteMovesDrift(bank: Bank, userId: string, sid: string, entry: FlushEntry, seen: Columns, user: string,
                        bucket: Bucket)
    requires Seeable(bank, userId, seen)
    ensures var after := WriteFlush(bank, userId, sid, entry, seen);
            var amount := AmountOf(Plan(Buckets(seen), entry.credits).perBucket, bucket);
            Drift(after, user, bucket)
            == Drift(bank, user, bucket)
               - if user == userId && HasKey(bank.rows, FlushKey(sid, entry.sequence, bucket)) then amount else 0
  {
    var parts := Plan(Buckets(seen), entry.credits).perBucket;
    PlanIsTidy(Buckets(seen), entry.credits);
    InsertPartsBalance(bank.rows, userId, sid, entry.sequence, parts, user, bucket);
    if userId !in bank.columns {
      NothingToSpend(entry.credits, bucket);
    }
  }

  lemma WriteKeepsTotal(bank: Bank, userId: string, sid: string, entry: FlushEntry, seen: Columns, user: string)
    ensures TotalDrift(WriteFlush(bank, userId, sid, entry, seen), user) == TotalDrift(bank, user)
  {
    PlanMeaning(Buckets(seen), entry.credits);
  }

  lemma {:induction false} AmountOfPart(parts: seq<Part>, i: nat)
    requires i < |parts| && DistinctBuckets(parts)
    ensures AmountOf(parts, parts[i].bucket) == parts[i].amount
  {
    if i > 0 {
      assert parts[1..][i - 1] == parts[i];
      AmountOfPart(parts[1..], i - 1);
    }
  }

  lemma {:induction false} PartForAmount(parts: seq<Part>, bucket: Bucket) returns (i: nat)
    requires AmountOf(parts, bucket) != 0
    ensures i < |parts| && parts[i].bucket == bucket
  {
    if parts[0].bucket == bucket {
      i := 0;
    } else {
      var k := PartForAmount(parts[1..], bucket);
      i := k + 1;
    }
  }

  /** None of the keys a plan would write is in the ledger. */
  predicate AllNew(rows: seq<Row>, sid: string, n: nat, parts: seq<Part>) {
    forall i | 0 <= i < |parts| :: !HasKey(rows, FlushKey(sid, n, parts[i].bucket))
  }

  predicate SameDrift(a: Bank, b: Bank, user: string, bucket: Bucket) {
    Drift(a, user, bucket) == Drift(b, user, bucket)
  }

  /** The exact condition for a flush to keep balance and ledger together: none of its keys is in the ledger yet. A
      retry of a flush that was written would lower the balance a second time. */
  lemma WriteKeepsBalancesIff(bank: Bank, userId: string, sid: string, entry: FlushEntry, seen: Columns)
    requires Seeable(bank, userId, seen)
    ensures var after := WriteFlush(bank, userId, sid, entry, seen);
            (forall bucket :: SameDrift(after, bank, userId, bucket))
            <==> AllNew(bank.rows, sid, entry.sequence, Plan(Buckets(seen), entry.credits).perBucket)
  {
    var after := WriteFlush(bank, userId, sid, entry, seen);
    var parts := Plan(Buckets(seen), entry.credits).perBucket;
    PlanIsTidy(Buckets(seen), entry.credits);
    forall bucket ensures var amount := AmountOf(parts, bucket);
                          SameDrift(after, bank, userId, bucket)
                          <==> (amount == 0 || !HasKey(bank.rows, FlushKey(sid, entry.sequence, bucket)))
    {
      WriteMovesDrift(bank, userId, sid, entry, seen, userId, bucket);
    }
    forall i | 0 <= i < |parts| ensures AmountOf(parts, parts[i].bucket) > 0 {
      AmountOfPart(parts, i);
    }
    if AllNew(bank.rows, sid, entry.sequence, parts) {
      forall bucket ensures SameDrift(after, bank, userId, bucket) {
        if AmountOf(parts, bucket) != 0 {
          var i := PartForAmount(parts, bucket);
        }
      }
    }
  }

  lemma KeyIsWritten(bank: Bank, userId: string, sid: string, entry: FlushEntry, seen: Columns, bucket: Bucket)
    requires AmountOf(Plan(Buckets(seen), entry.credits).perBucket, bucket) > 0
    ensures HasKey(WriteFlush(bank, userId, sid, entry, seen).rows, FlushKey(sid, entry.sequence, bucket))
  {
    var parts := Plan(Buckets(seen), entry.credits).perBucket;
    PlanIsTidy(Buckets(seen), entry.credits);
    var i := PartForAmount(parts, bucket);
    InsertPartsKeys(bank.rows, userId, sid, entry.sequence, parts, FlushKey(sid, entry.sequence, bucket));
    assert FlushKey(sid, entry.sequence, parts[i].bucket) == FlushKey(sid, entry.sequence, bucket);
  }

  /** A flush is written, and written again by a retry that is planned on what the first write left. In a bucket that
      paid the first time, the ledger stays as it is and the balance falls once more by what the second plan takes. */
  lemma WrittenTwice(bank: Bank, userId: string, sid: string, entry: FlushEntry, bucket: Bucket)
    requires userId in bank.columns
    requires AmountOf(Plan(Buckets(Read(bank, userId)), entry.credits).perBucket, bucket) > 0
    ensures var once := WriteFlush(bank, userId, sid, entry, Read(bank, userId));
            var twice := WriteFlush(once, userId, sid, entry, Read(once, userId));
            var again := AmountOf(Plan(Buckets(Read(once, userId)), entry.credits).perBucket, bucket);
            && BalanceOf(twice.rows, userId, bucket) == BalanceOf(once.rows, userId, bucket)
            && Column(Read(twice, userId), bucket) == Column(Read(once, userId), bucket) - again
            && Drift(twice, userId, bucket) == Drift(once, userId, bucket) - again
  {
    var once := WriteFlush(bank, userId, sid, entry, Read(bank, userId));
    KeyIsWritten(bank, userId, sid, entry, Read(bank, userId), bucket);
    WriteMovesDrift(once, userId, sid, entry, Read(once, userId), userId, bucket);
  }

  lemma TrialPaysAll(c: Columns, amount: int)
    requires 0 <= amount <= c.trial
    ensures AmountOf(Plan(Buckets(c), amount).perBucket, Trial) == amount
  {
    BalanceInBuckets(c, Trial);
    PlanMeaning(Buckets(c), amount);
  }

  /** So with credits for two in the first bucket, the user pays twice for what the ledger has once. */
  lemma PaidTwice(bank: Bank, userId: string, sid: string, entry: FlushEntry)
    requires userId in bank.columns && entry.credits > 0 && Read(bank, userId).trial >= 2 * entry.credits
    requires !HasKey(bank.rows, FlushKey(sid, entry.sequence, Trial))
    ensures var once := WriteFlush(bank, userId, sid, entry, Read(bank, userId));
            var twice := WriteFlush(once, userId, sid, entry, Read(once, userId));
            && Read(twice, userId).trial == Read(bank, userId).trial - 2 * entry.credits
            && BalanceOf(twice.rows, userId, Trial) == BalanceOf(bank.rows, userId, Trial) - entry.credits
  {
    var once := WriteFlush(bank, userId, sid, entry, Read(bank, userId));
    TrialPaysAll(Read(bank, userId), entry.credits);
    WriteMovesDrift(bank, userId, sid, entry, Read(bank, userId), userId, Trial);
    WrittenTwice(bank, userId, sid, entry, Trial);
    TrialPaysAll(Read(once, userId), entry.credits);
  }
}
