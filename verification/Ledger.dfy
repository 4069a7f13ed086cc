/** Credits in ten-thousandths: prices and the spend plan. */
module Ledger {
  import opened Text

  /* Prices */

  const RATE_CAPTIONS_PER_MIN: int := 10_000
  const RATE_TRANSLATION_PER_LANG_PER_MIN: int := 5_000
  const RATE_VOICE_PER_MIN: int := 30_000

  datatype BurnConfig = BurnConfig(targetLanguages: int, voiceEnabled: bool)

  /** `Math.round` of a quotient: the nearest integer, halves upwards. */
  function RoundDiv(n: int, d: int): (r: int)
    requires d > 0
    ensures -d <= 2 * (n - r * d) < d || 2 * (n - r * d) == -d
    ensures 2 * (r * d - n) <= d && 2 * (n - r * d) < d
  {
    (2 * n + d) / (2 * d)
  }

  function BurnRatePerMinute(cfg: BurnConfig): int {
    RATE_CAPTIONS_PER_MIN + Max(0, cfg.targetLanguages) * RATE_TRANSLATION_PER_LANG_PER_MIN
    + if cfg.voiceEnabled then RATE_VOICE_PER_MIN else 0
  }

  function BurnRatePerSecond(cfg: BurnConfig): int {
    RoundDiv(BurnRatePerMinute(cfg), 60)
  }

  /** The rate the meter runs at is positive and within half a unit per second of the advertised one. */
  lemma SecondsMatchMinutes(cfg: BurnConfig)
    ensures BurnRatePerSecond(cfg) > 0
    ensures -30 <= BurnRatePerMinute(cfg) - 60 * BurnRatePerSecond(cfg) <= 30
  {
    assert Max(0, cfg.targetLanguages) * RATE_TRANSLATION_PER_LANG_PER_MIN >= 0;
  }

  /* The spend plan */

  datatype Bucket = Trial | Subscription | Topup

  datatype BucketBalance = BucketBalance(bucket: Bucket, balance: int)

  datatype Part = Part(bucket: Bucket, amount: int)

  datatype SpendPlan = SpendPlan(covered: int, shortfall: int, perBucket: seq<Part>)

  /** Buckets are used up in this order. */
  const SPEND_ORDER: seq<Bucket> := [Trial, Subscription, Topup]

  function BalanceIn(balances: seq<BucketBalance>, bucket: Bucket): int {
    if balances == [] then 0
    else if balances[0].bucket == bucket then balances[0].balance
    else BalanceIn(balances[1..], bucket)
  }

  function Available(balances: seq<BucketBalance>, bucket: Bucket): int {
    Max(0, BalanceIn(balances, bucket))
  }

  function Share(available: int, remaining: int): int {
    Max(0, Min(available, remaining))
  }

  /** What the first `k` buckets of the spend order cover. */
  function Covered(balances: seq<BucketBalance>, amount: int, k: nat): int
    requires k <= |SPEND_ORDER|
  {
    if k == 0 then 0
    else
      var before := Covered(balances, amount, k - 1);
      before + Share(BalanceIn(balances, SPEND_ORDER[k - 1]), amount - before)
  }

  function PartOf(bucket: Bucket, amount: int): seq<Part> {
    if amount > 0 then [Part(bucket, amount)] else []
  }

  function PartsUpTo(balances: seq<BucketBalance>, amount: int, k: nat): seq<Part>
    requires k <= |SPEND_ORDER|
  {
    if k == 0 then []
    else
      var share := Share(BalanceIn(balances, SPEND_ORDER[k - 1]), amount - Covered(balances, amount, k - 1));
      PartsUpTo(balances, amount, k - 1) + PartOf(SPEND_ORDER[k - 1], share)
  }

  function Plan(balances: seq<BucketBalance>, amount: int): SpendPlan {
    var covered := Covered(balances, amount, |SPEND_ORDER|);
    SpendPlan(covered, amount - covered, PartsUpTo(balances, amount, |SPEND_ORDER|))
  }

  method PlanSpend(balances: seq<BucketBalance>, amount: int) returns (plan: SpendPlan)
    ensures plan == Plan(balances, amount)
  {
    var remaining := amount;
    var perBucket: seq<Part> := [];
    var k := 0;
    while k < |SPEND_ORDER|
      invariant k <= |SPEND_ORDER|
      invariant perBucket == PartsUpTo(balances, amount, k) && remaining == amount - Covered(balances, amount, k)
    {
      if remaining <= 0 {
        NothingMore(balances, amount, k);
        break;
      }
      var available := FindBalance(balances, SPEND_ORDER[k]);
      if available > 0 {
        var take := Min(available, remaining);
        perBucket := perBucket + [Part(SPEND_ORDER[k], take)];
        remaining := remaining - take;
      }
      k := k + 1;
    }
    plan := SpendPlan(amount - remaining, remaining, perBucket);
  }

  method FindBalance(balances: seq<BucketBalance>, bucket: Bucket) returns (balance: int)
    ensures balance == BalanceIn(balances, bucket)
  {
    for i := 0 to |balances|
      invariant BalanceIn(balances[i..], bucket) == BalanceIn(balances, bucket)
    {
      if balances[i].bucket == bucket {
        return balances[i].balance;
      }
      assert balances[i..][1..] == balances[i + 1..];
    }
    return 0;
  }

  lemma {:induction false} NothingMore(balances: seq<BucketBalance>, amount: int, k: nat)
    requires k <= |SPEND_ORDER| && amount - Covered(balances, amount, k) <= 0
    ensures PartsUpTo(balances, amount, |SPEND_ORDER|) == PartsUpTo(balances, amount, k)
    ensures Covered(balances, amount, |SPEND_ORDER|) == Covered(balances, amount, k)
    decreases |SPEND_ORDER| - k
  {
    if k < |SPEND_ORDER| {
      assert Covered(balances, amount, k + 1) == Covered(balances, amount, k);
      assert PartsUpTo(balances, amount, k + 1) == PartsUpTo(balances, amount, k);
      NothingMore(balances, amount, k + 1);
    }
  }

  /** The amount a plan takes from a bucket: that of its first part for it. */
  function AmountOf(parts: seq<Part>, bucket: Bucket): int {
    if parts == [] then 0
    else if parts[0].bucket == bucket then parts[0].amount
    else AmountOf(parts[1..], bucket)
  }

  function TotalAvailable(balances: seq<BucketBalance>): int {
    Available(balances, Trial) + Available(balances, Subscription) + Available(balances, Topup)
  }

  /** A leading part is found first, and a part for nothing is not there at all. */
  lemma AmountOfCons(first: Bucket, amount: int, rest: seq<Part>, bucket: Bucket)
    requires amount >= 0
    ensures AmountOf(PartOf(first, amount) + rest, bucket)
            == if amount > 0 && first == bucket then amount else AmountOf(rest, bucket)
  {
    if amount > 0 {
      assert (PartOf(first, amount) + rest)[1..] == rest;
    } else {
      assert PartOf(first, amount) + rest == rest;
    }
  }

  lemma AmountOfParts(t: int, s: int, u: int, bucket: Bucket)
    requires t >= 0 && s >= 0 && u >= 0
    ensures AmountOf(PartOf(Trial, t) + PartOf(Subscription, s) + PartOf(Topup, u), bucket)
            == match bucket case Trial => t case Subscription => s case Topup => u
  {
    var last := PartOf(Topup, u) + [];
    assert last == PartOf(Topup, u);
    AmountOfCons(Topup, u, [], bucket);
    AmountOfCons(Subscription, s, last, bucket);
    AmountOfCons(Trial, t, PartOf(Subscription, s) + last, bucket);
    assert PartOf(Trial, t) + PartOf(Subscription, s) + PartOf(Topup, u)
        == PartOf(Trial, t) + (PartOf(Subscription, s) + last);
  }

  lemma PlanParts(balances: seq<BucketBalance>, amount: int)
    ensures var t := Share(BalanceIn(balances, Trial), amount);
            var s := Share(BalanceIn(balances, Subscription), amount - t);
            var u := Share(BalanceIn(balances, Topup), amount - t - s);
            && Plan(balances, amount).covered == t + s + u
            && Plan(balances, amount).perBucket == PartOf(Trial, t) + PartOf(Subscription, s) + PartOf(Topup, u)
  {
    var t := Share(BalanceIn(balances, Trial), amount);
    assert Covered(balances, amount, 0) == 0 && PartsUpTo(balances, amount, 0) == [];
    assert Covered(balances, amount, 1) == t && PartsUpTo(balances, amount, 1) == PartOf(Trial, t);
    var s := Share(BalanceIn(balances, Subscription), amount - t);
    assert Covered(balances, amount, 2) == t + s;
    assert PartsUpTo(balances, amount, 2) == PartOf(Trial, t) + PartOf(Subscription, s);
  }

  /** Taking from three balances in turn, as far as each goes. */
  lemma SharesInTurn(x: int, y: int, z: int, amount: int)
    ensures var t := Share(x, amount);
            var s := Share(y, amount - t);
            var u := Share(z, amount - t - s);
            && t + s + u == Max(0, Min(amount, Max(0, x) + Max(0, y) + Max(0, z)))
            && 0 <= t <= Max(0, x) && 0 <= s <= Max(0, y) && 0 <= u <= Max(0, z)
            && (s > 0 ==> t == Max(0, x))
            && (u > 0 ==> t == Max(0, x) && s == Max(0, y))
  {
  }

  /** A plan covers as much of the amount as there is, never more than a bucket has, and touches a later bucket only
      when every earlier one is used up. */
  lemma PlanMeaning(balances: seq<BucketBalance>, amount: int)
    ensures var plan := Plan(balances, amount);
            && plan.covered == Max(0, Min(amount, TotalAvailable(balances)))
            && plan.covered + plan.shortfall == amount
            && plan.covered == AmountOf(plan.perBucket, Trial) + AmountOf(plan.perBucket, Subscription)
                               + AmountOf(plan.perBucket, Topup)
            && (forall b :: 0 <= AmountOf(plan.perBucket, b) <= Available(balances, b))
            && (AmountOf(plan.perBucket, Subscription) > 0 ==>
                AmountOf(plan.perBucket, Trial) == Available(balances, Trial))
            && (AmountOf(plan.perBucket, Topup) > 0 ==>
                  && AmountOf(plan.perBucket, Trial) == Available(balances, Trial)
                  && AmountOf(plan.perBucket, Subscription) == Available(balances, Subscription))
  {
    PlanParts(balances, amount);
    var t := Share(BalanceIn(balances, Trial), amount);
    var s := Share(BalanceIn(balances, Subscription), amount - t);
    var u := Share(BalanceIn(balances, Topup), amount - t - s);
    SharesInTurn(BalanceIn(balances, Trial), BalanceIn(balances, Subscription), BalanceIn(balances, Topup), amount);
    AmountOfParts(t, s, u, Trial);
    AmountOfParts(t, s, u, Subscription);
    AmountOfParts(t, s, u, Topup);
  }

  /* Balances from entries */

  datatype LedgerEntry = LedgerEntry(delta: int, bucket: Bucket, expiresAt: Option<int>)

  datatype BucketState = BucketState(balance: int, expiresAt: Option<int>)

  /** A grant past its expiry; spending is never undone by one. */
  predicate Expired(e: LedgerEntry, now: int) {
    e.delta > 0 && e.expiresAt.Some? && e.expiresAt.value <= now
  }

  function TotalOf(entries: seq<LedgerEntry>): int {
    if entries == [] then 0 else TotalOf(entries[..|entries| - 1]) + entries[|entries| - 1].delta
  }

  predicate LiveIn(e: LedgerEntry, bucket: Bucket, now: int) {
    e.bucket == bucket && !Expired(e, now)
  }

  function LiveSum(entries: seq<LedgerEntry>, bucket: Bucket, now: int): int {
    if entries == [] then 0
    else
      var last := entries[|entries| - 1];
      LiveSum(entries[..|entries| - 1], bucket, now) + if LiveIn(last, bucket, now) then last.delta else 0
  }

  function ExpiredSum(entries: seq<LedgerEntry>, now: int): int {
    if entries == [] then 0
    else
      var last := entries[|entries| - 1];
      ExpiredSum(entries[..|entries| - 1], now) + if Expired(last, now) then last.delta else 0
  }

  function Earlier(a: Option<int>, b: int): Option<int> {
    if a.None? then Some(b) else Some(Min(a.value, b))
  }

  /** The soonest expiry among the grants of a bucket still valid. */
  function SoonestExpiry(entries: seq<LedgerEntry>, bucket: Bucket, now: int): Option<int> {
    if entries == [] then None
    else
      var front, last := SoonestExpiry(entries[..|entries| - 1], bucket, now), entries[|entries| - 1];
      if last.bucket == bucket && last.delta > 0 && last.expiresAt.Some? && !Expired(last, now)
      then Earlier(front, last.expiresAt.value) else front
  }

  predicate HasLive(entries: seq<LedgerEntry>, bucket: Bucket, now: int) {
    exists i :: 0 <= i < |entries| && LiveIn(entries[i], bucket, now)
  }

  /** The buckets with a live entry, in the order of their first one. */
  function FirstSeen(entries: seq<LedgerEntry>, now: int): seq<Bucket> {
    if entries == [] then []
    else
      var before, last := FirstSeen(entries[..|entries| - 1], now), entries[|entries| - 1];
      if LiveIn(last, last.bucket, now) && last.bucket !in before then before + [last.bucket] else before
  }

  function StateOf(acc: map<Bucket, BucketState>, bucket: Bucket): BucketState {
    if bucket in acc then acc[bucket] else BucketState(0, None)
  }

  /** A bucket is listed when it has a live entry, with the sum of those and the soonest expiry. */
  predicate Tallied(entries: seq<LedgerEntry>, now: int, acc: map<Bucket, BucketState>, bucket: Bucket) {
    && (bucket in acc <==> HasLive(entries, bucket, now))
    && StateOf(acc, bucket) == BucketState(LiveSum(entries, bucket, now), SoonestExpiry(entries, bucket, now))
  }

  /** What one live entry does to its bucket. */
  function Booked(current: BucketState, e: LedgerEntry): BucketState {
    BucketState(current.balance + e.delta,
                if e.delta > 0 && e.expiresAt.Some? then Earlier(current.expiresAt, e.expiresAt.value)
                  else current.expiresAt)
  }

  lemma TalliedNext(entries: seq<LedgerEntry>, e: LedgerEntry, now: int, acc: map<Bucket, BucketState>, bucket: Bucket)
    requires Tallied(entries, now, acc, bucket)
    ensures Tallied(entries + [e], now,
                    if Expired(e, now) then acc else acc[e.bucket := Booked(StateOf(acc, e.bucket), e)], bucket)
  {
    assert (entries + [e])[..|entries|] == entries;
    HasLiveOneMore(entries, e, bucket, now);
  }

  /** A map lists its entries in the order in which their keys came first. */
  method BucketBalances(entries: seq<LedgerEntry>, now: int) returns (acc: map<Bucket, BucketState>, order: seq<Bucket>)
    ensures order == FirstSeen(entries, now) && forall b :: b in order <==> b in acc
    ensures forall b :: Tallied(entries, now, acc, b)
  {
    acc, order := map[], [];
    for i := 0 to |entries|
      invariant order == FirstSeen(entries[..i], now) && forall b :: b in order <==> b in acc
      invariant forall b :: Tallied(entries[..i], now, acc, b)
    {
      var e := entries[i];
      assert entries[..i + 1][..i] == entries[..i];
      ghost var next := if Expired(e, now) then acc else acc[e.bucket := Booked(StateOf(acc, e.bucket), e)];
      ghost var seen := entries[..i + 1];
      assert seen == entries[..i] + [e];
      forall b ensures Tallied(seen, now, next, b) {
        TalliedNext(entries[..i], e, now, acc, b);
      }
      if e.delta > 0 && e.expiresAt.Some? && e.expiresAt.value <= now {
        continue;
      }
      var current := if e.bucket in acc then acc[e.bucket] else BucketState(0, None);
      current := current.(balance := current.balance + e.delta);
      if e.delta > 0 && e.expiresAt.Some? {
        current := current.(expiresAt := Earlier(current.expiresAt, e.expiresAt.value));
      }
      order := if e.bucket in acc then order else order + [e.bucket];
      acc := acc[e.bucket := current];
    }
    assert entries[..|entries|] == entries;
  }

  lemma HasLiveOneMore(entries: seq<LedgerEntry>, e: LedgerEntry, bucket: Bucket, now: int)
    ensures HasLive(entries + [e], bucket, now) <==> HasLive(entries, bucket, now) || LiveIn(e, bucket, now)
  {
    if HasLive(entries, bucket, now) {
      var i :| 0 <= i < |entries| && LiveIn(entries[i], bucket, now);
      assert (entries + [e])[i] == entries[i];
    }
    if LiveIn(e, bucket, now) {
      assert (entries + [e])[|entries|] == e;
    }
  }

  /** Every credit ever booked is in the balance of its bucket or was in a grant that expired. */
  lemma {:induction false} BucketsAndExpiredAreAll(entries: seq<LedgerEntry>, now: int)
    ensures TotalOf(entries)
            == LiveSum(entries, Trial, now) + LiveSum(entries, Subscription, now) + LiveSum(entries, Topup, now)
               + ExpiredSum(entries, now)
    decreases |entries|
  {
    if entries != [] {
      BucketsAndExpiredAreAll(entries[..|entries| - 1], now);
    }
  }
}
