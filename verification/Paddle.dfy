/** Paddle events, the credits they grant, and what is left of redelivered and reordered webhooks. */
module Paddle {
  import opened Text
  import opened Ledger
  import opened LedgerTable
  import B = Bank

  const DAY_MS: int := 86_400_000
  const TOPUP_VALIDITY_DAYS: int := 365

  datatype Kind = SubscriptionPrice | TopupPrice

  datatype CatalogEntry = CatalogEntry(priceId: string, kind: Kind, planCode: Option<string>, credits: int)

  datatype Item = Item(priceId: string, quantity: int)

  datatype PaddleEvent = PaddleEvent(
    eventId: string, eventType: string, userId: string, items: seq<Item>,
    subscriptionId: Option<string>, status: Option<string>, currentPeriodEnd: Option<int>, refundCredits: Option<int>)

  datatype Reason = TopupPurchase | SubscriptionGrant | RefundCustomer

  datatype LedgerIntent = LedgerIntent(
    delta: int, reason: Reason, bucket: Bucket, idempotencyKey: string, expiresAt: Option<int>)

  datatype PlanStatus = Active | PastDue | Canceled

  datatype PlanChange = PlanChange(
    planCode: string, status: PlanStatus, subscriptionId: Option<string>, currentPeriodEnd: Option<int>)

  datatype PaddleOutcome = PaddleOutcome(ledger: seq<LedgerIntent>, planChange: Option<PlanChange>, note: string)

  /* The catalog */

  function Find(catalog: seq<CatalogEntry>, priceId: string): Option<CatalogEntry> {
    if catalog == [] then None
    else if catalog[0].priceId == priceId then Some(catalog[0])
    else Find(catalog[1..], priceId)
  }

  method FindCatalogEntry(catalog: seq<CatalogEntry>, priceId: string) returns (entry: Option<CatalogEntry>)
    ensures entry == Find(catalog, priceId)
  {
    for i := 0 to |catalog|
      invariant Find(catalog[i..], priceId) == Find(catalog, priceId)
    {
      if catalog[i].priceId == priceId {
        return Some(catalog[i]);
      }
      assert catalog[i..][1..] == catalog[i + 1..];
    }
    return None;
  }

  function PlanOf(catalog: seq<CatalogEntry>, item: Item): Option<string> {
    var entry := Find(catalog, item.priceId);
    if entry.Some? && entry.value.kind.SubscriptionPrice? then entry.value.planCode else None
  }

  function FirstPlan(catalog: seq<CatalogEntry>, items: seq<Item>): Option<string> {
    if items == [] then None
    else
      var plan := PlanOf(catalog, items[0]);
      if plan.Some? then plan else FirstPlan(catalog, items[1..])
  }

  method ResolvePlanCode(event: PaddleEvent, catalog: seq<CatalogEntry>) returns (plan: Option<string>)
    ensures plan == FirstPlan(catalog, event.items)
  {
    for i := 0 to |event.items|
      invariant FirstPlan(catalog, event.items[i..]) == FirstPlan(catalog, event.items)
    {
      var entry := FindCatalogEntry(catalog, event.items[i].priceId);
      if entry.Some? && entry.value.kind.SubscriptionPrice? && entry.value.planCode.Some? {
        return entry.value.planCode;
      }
      assert event.items[i..][1..] == event.items[i + 1..];
    }
    return None;
  }

  /* A completed transaction */

  function GrantKey(eventId: string, index: nat): string {
    eventId + ":" + Decimal(index)
  }

  function RefundKey(eventId: string): string {
    eventId + ":" + "refund"
  }

  function Grant(event: PaddleEvent, entry: CatalogEntry, index: nat, quantity: int, now: int): LedgerIntent {
    var credits := entry.credits * Max(1, quantity);
    match entry.kind
    case TopupPrice =>
      LedgerIntent(credits, TopupPurchase, Topup, GrantKey(event.eventId, index),
                   Some(now + TOPUP_VALIDITY_DAYS * DAY_MS))
    case SubscriptionPrice =>
      LedgerIntent(credits, SubscriptionGrant, Subscription, GrantKey(event.eventId, index), event.currentPeriodEnd)
  }

  /** The grant of one item, if the catalog knows it. */
  function GrantOf(event: PaddleEvent, catalog: seq<CatalogEntry>, now: int, i: nat): seq<LedgerIntent>
    requires i < |event.items|
  {
    var entry := Find(catalog, event.items[i].priceId);
    if entry.None? then [] else [Grant(event, entry.value, i, event.items[i].quantity, now)]
  }

  /** The grants of the first `n` items. */
  function Grants(event: PaddleEvent, catalog: seq<CatalogEntry>, now: int, n: nat): seq<LedgerIntent>
    requires n <= |event.items|
  {
    if n == 0 then [] else Grants(event, catalog, now, n - 1) + GrantOf(event, catalog, now, n - 1)
  }

  function Change(event: PaddleEvent, planCode: string, status: PlanStatus): Option<PlanChange> {
    Some(PlanChange(planCode, status, event.subscriptionId, event.currentPeriodEnd))
  }

  function StatusOf(event: PaddleEvent): PlanStatus {
    if event.status == Some("past_due") then PastDue else Active
  }

  /** The plan of the last item that carries one. */
  function LastPlan(event: PaddleEvent, catalog: seq<CatalogEntry>, n: nat): Option<PlanChange>
    requires n <= |event.items|
  {
    if n == 0 then None
    else
      var plan := PlanOf(catalog, event.items[n - 1]);
      if plan.Some? then Change(event, plan.value, Active) else LastPlan(event, catalog, n - 1)
  }

  method CompletedTransaction(event: PaddleEvent, catalog: seq<CatalogEntry>, now: int) returns (outcome: PaddleOutcome)
    ensures outcome == PaddleOutcome(Grants(event, catalog, now, |event.items|),
                                     LastPlan(event, catalog, |event.items|), "")
  {
    var ledger: seq<LedgerIntent> := [];
    var planChange: Option<PlanChange> := None;
    for index := 0 to |event.items|
      invariant ledger == Grants(event, catalog, now, index) && planChange == LastPlan(event, catalog, index)
    {
      var item := event.items[index];
      var entry := FindCatalogEntry(catalog, item.priceId);
      if entry.None? {
        continue;
      }
      var credits := entry.value.credits * Max(1, item.quantity);
      if entry.value.kind.TopupPrice? {
        ledger := ledger + [LedgerIntent(credits, TopupPurchase, Topup, GrantKey(event.eventId, index),
                                         Some(now + TOPUP_VALIDITY_DAYS * DAY_MS))];
        continue;
      }
      ledger := ledger + [LedgerIntent(credits, SubscriptionGrant, Subscription, GrantKey(event.eventId, index),
                                       event.currentPeriodEnd)];
      if entry.value.planCode.Some? {
        planChange := Change(event, entry.value.planCode.value, Active);
      }
    }
    outcome := PaddleOutcome(ledger, planChange, "");
  }

  function Refund(event: PaddleEvent): seq<LedgerIntent> {
    var credits := if event.refundCredits.Some? then event.refundCredits.value else 0;
    if credits <= 0 then [] else [LedgerIntent(-credits, RefundCustomer, Topup, RefundKey(event.eventId), None)]
  }

  function Or(plan: Option<string>, otherwise: string): string {
    if plan.Some? then plan.value else otherwise
  }

  function IntentsForEvent(event: PaddleEvent, catalog: seq<CatalogEntry>, now: int): PaddleOutcome {
    var plan := FirstPlan(catalog, event.items);
    if event.eventType == "transaction.completed" then
      PaddleOutcome(Grants(event, catalog, now, |event.items|), LastPlan(event, catalog, |event.items|), "")
    else if event.eventType == "subscription.activated" || event.eventType == "subscription.updated" then
      if plan.None? then PaddleOutcome([], None, "subscription item not in catalog")
      else PaddleOutcome([], Change(event, plan.value, StatusOf(event)), "")
    else if event.eventType == "subscription.canceled" then
      PaddleOutcome([], Change(event, "trial", Canceled), "subscription canceled; top-up credits retained")
    else if event.eventType == "transaction.payment_failed" then
      PaddleOutcome([], Change(event, Or(plan, "trial"), PastDue), "payment failed; grace period starts")
    else if event.eventType == "adjustment.created" then
      if Refund(event) == [] then PaddleOutcome([], None, "adjustment without credits")
      else PaddleOutcome(Refund(event), None, "")
    else PaddleOutcome([], None, "unhandled event type: " + event.eventType)
  }

  method HandleEvent(event: PaddleEvent, catalog: seq<CatalogEntry>, now: int) returns (outcome: PaddleOutcome)
    ensures outcome == IntentsForEvent(event, catalog, now)
  {
    match event.eventType {
      case "transaction.completed" =>
        outcome := CompletedTransaction(event, catalog, now);
      case "subscription.activated" | "subscription.updated" =>
        var plan := ResolvePlanCode(event, catalog);
        if plan.None? {
          return PaddleOutcome([], None, "subscription item not in catalog");
        }
        outcome := PaddleOutcome([], Change(event, plan.value, StatusOf(event)), "");
      case "subscription.canceled" =>
        outcome := PaddleOutcome([], Change(event, "trial", Canceled),
                                 "subscription canceled; top-up credits retained");
      case "transaction.payment_failed" =>
        var plan := ResolvePlanCode(event, catalog);
        outcome := PaddleOutcome([], Change(event, Or(plan, "trial"), PastDue), "payment failed; grace period starts");
      case "adjustment.created" =>
        var refund := Refund(event);
        outcome := PaddleOutcome(refund, None, if refund == [] then "adjustment without credits" else "");
      case _ =>
        outcome := PaddleOutcome([], None, "unhandled event type: " + event.eventType);
    }
  }

  /* Keys */

  /** Where the intents of an event come from, and the only part of them that depends on when it is handled. */
  lemma {:induction false} GrantsAre(event: PaddleEvent, catalog: seq<CatalogEntry>, now: int, n: nat, k: nat)
    requires n <= |event.items| && k < |Grants(event, catalog, now, n)|
    ensures exists i :: 0 <= i < n && Find(catalog, event.items[i].priceId).Some?
                        && Grants(event, catalog, now, n)[k]
                           == Grant(event, Find(catalog, event.items[i].priceId).value, i, event.items[i].quantity, now)
  {
    var before := Grants(event, catalog, now, n - 1);
    if k < |before| {
      GrantsAre(event, catalog, now, n - 1, k);
    }
  }

  function RowOf(userId: string, intent: LedgerIntent): Row {
    Row(intent.idempotencyKey, userId, intent.bucket, intent.delta)
  }

  /** The ledger row of a grant, which does not depend on when the event is handled. */
  function GrantRow(event: PaddleEvent, entry: CatalogEntry, i: nat, quantity: int): Row {
    RowOf(event.userId, Grant(event, entry, i, quantity, 0))
  }

  predicate GrantedAt(event: PaddleEvent, catalog: seq<CatalogEntry>, row: Row, i: nat)
    requires i < |event.items|
  {
    var entry := Find(catalog, event.items[i].priceId);
    && entry.Some?
    && row == GrantRow(event, entry.value, i, event.items[i].quantity)
  }

  function RowsOf(userId: string, intents: seq<LedgerIntent>): (rows: seq<Row>)
    ensures |rows| == |intents|
    ensures forall k | 0 <= k < |intents| :: rows[k] == RowOf(userId, intents[k])
  {
    seq(|intents|, k requires 0 <= k < |intents| => RowOf(userId, intents[k]))
  }

  function EventRows(event: PaddleEvent, catalog: seq<CatalogEntry>, now: int): seq<Row> {
    RowsOf(event.userId, IntentsForEvent(event, catalog, now).ledger)
  }

  /** A row of an event is its refund or the grant for one of its items, and says the same whenever it is handled. */
  predicate IsRowOf(event: PaddleEvent, catalog: seq<CatalogEntry>, row: Row) {
    || (event.eventType == "transaction.completed"
        && exists i :: 0 <= i < |event.items| && GrantedAt(event, catalog, row, i))
    || (event.eventType == "adjustment.created" && Refund(event) != [] && row == RowOf(event.userId, Refund(event)[0]))
  }

  lemma EventRowIs(event: PaddleEvent, catalog: seq<CatalogEntry>, now: int, k: nat)
    requires k < |EventRows(event, catalog, now)|
    ensures IsRowOf(event, catalog, EventRows(event, catalog, now)[k])
  {
    var intents := IntentsForEvent(event, catalog, now).ledger;
    if event.eventType == "transaction.completed" {
      GrantsAre(event, catalog, now, |event.items|, k);
      var i :| 0 <= i < |event.items| && Find(catalog, event.items[i].priceId).Some?
               && intents[k] == Grant(event, Find(catalog, event.items[i].priceId).value, i, event.items[i].quantity,
                                      now);
      assert GrantedAt(event, catalog, EventRows(event, catalog, now)[k], i);
    }
  }

  lemma SuffixesDiffer(n: nat)
    ensures ':' !in Decimal(n) && ':' !in "refund" && Decimal(n) != "refund"
  {
    assert forall c | c in Decimal(n) :: IsDigit(c);
    assert 'r' in "refund" && !IsDigit('r');
  }

  /** Keys of grants and refunds name their event and item even when event ids contain colons. */
  lemma KeysAreInjective(a: string, i: nat, b: string, j: nat)
    ensures GrantKey(a, i) == GrantKey(b, j) ==> a == b && i == j
    ensures RefundKey(a) == RefundKey(b) ==> a == b
    ensures GrantKey(a, i) != RefundKey(b)
  {
    SuffixesDiffer(i);
    SuffixesDiffer(j);
    if GrantKey(a, i) == GrantKey(b, j) {
      SplitAtLast(a, Decimal(i), b, Decimal(j), ':');
      DecimalInjective(i, j);
    }
    if RefundKey(a) == RefundKey(b) {
      SplitAtLast(a, "refund", b, "refund", ':');
    }
    if GrantKey(a, i) == RefundKey(b) {
      SplitAtLast(a, Decimal(i), b, "refund", ':');
    }
  }

  /** They never meet the keys of session flushes, in the one index both go through. */
  lemma NoFlushKey(eventId: string, i: nat, sid: string, n: nat, bucket: Bucket)
    ensures GrantKey(eventId, i) != B.FlushKey(sid, n, bucket)
    ensures RefundKey(eventId) != B.FlushKey(sid, n, bucket)
  {
    var front := "sess:" + sid + ":" + Decimal(n);
    SuffixesDiffer(i);
    assert B.BucketName(bucket)[0] == 't' || B.BucketName(bucket)[0] == 's';
    assert IsDigit(Decimal(i)[0]);
    if GrantKey(eventId, i) == B.FlushKey(sid, n, bucket) {
      SplitAtLast(eventId, Decimal(i), front, B.BucketName(bucket), ':');
    }
    if RefundKey(eventId) == B.FlushKey(sid, n, bucket) {
      SplitAtLast(eventId, "refund", front, B.BucketName(bucket), ':');
    }
  }

  /** An event id fixes its content, so a key fixes its row. */
  lemma KeyFixesRow(e: PaddleEvent, f: PaddleEvent, catalog: seq<CatalogEntry>, r: Row, s: Row)
    requires e.eventId == f.eventId ==> e == f
    requires IsRowOf(e, catalog, r) && IsRowOf(f, catalog, s) && r.key == s.key
    ensures r == s && e == f
  {
    if e.eventType == "transaction.completed" {
      var i :| 0 <= i < |e.items| && GrantedAt(e, catalog, r, i);
      if f.eventType == "transaction.completed" {
        var j :| 0 <= j < |f.items| && GrantedAt(f, catalog, s, j);
        KeysAreInjective(e.eventId, i, f.eventId, j);
      } else {
        KeysAreInjective(e.eventId, i, f.eventId, 0);
      }
    } else if f.eventType == "transaction.completed" {
      var j :| 0 <= j < |f.items| && GrantedAt(f, catalog, s, j);
      KeysAreInjective(f.eventId, j, e.eventId, 0);
    } else {
      KeysAreInjective(e.eventId, 0, f.eventId, 0);
    }
  }

  /* Deliveries */

  datatype Delivery = Delivery(event: PaddleEvent, now: int)

  datatype SubscriptionRow = SubscriptionRow(
    userId: string, planCode: string, status: PlanStatus, currentPeriodEnd: Option<int>, canceledAt: Option<int>)

  /** The plan of every user, and the subscriptions under their Paddle ids. */
  datatype PlanTable = PlanTable(plans: map<string, string>, subscriptions: map<string, SubscriptionRow>)

  /** An absent date and the epoch itself are the same to the store. */
  function DateOf(at: Option<int>): Option<int> {
    if at == Some(0) then None else at
  }

  /** An existing subscription keeps its user and takes everything else. */
  function SubscriptionAfter(subscriptions: map<string, SubscriptionRow>, id: string, userId: string,
                             change: PlanChange, now: int)
    : SubscriptionRow
  {
    SubscriptionRow(if id in subscriptions then subscriptions[id].userId else userId, change.planCode, change.status,
                    DateOf(change.currentPeriodEnd), if change.status.Canceled? then Some(now) else None)
  }

  /** Only users that exist have a plan to change. */
  function ApplyChange(t: PlanTable, userId: string, change: Option<PlanChange>, now: int): PlanTable {
    if change.None? then t
    else
      var c := change.value;
      PlanTable(
        if userId in t.plans then t.plans[userId := c.planCode] else t.plans,
        if c.subscriptionId.None? || c.subscriptionId.value == "" then t.subscriptions
        else t.subscriptions[c.subscriptionId.value :=
                             SubscriptionAfter(t.subscriptions, c.subscriptionId.value, userId, c, now)])
  }

  datatype AuditEntry = AuditEntry(target: string, applied: nat, skipped: nat, planCode: Option<string>, note: string)

  function PlanCodeOf(outcome: PaddleOutcome): Option<string> {
    if outcome.planChange.Some? then Some(outcome.planChange.value.planCode) else None
  }

  class PaddleStore {
    var rows: seq<Row>
    var plans: map<string, string>
    var subscriptions: map<string, SubscriptionRow>
    var audit: seq<AuditEntry>

    ghost function Plans(): PlanTable
      reads this
    {
      PlanTable(plans, subscriptions)
    }

    constructor (rows: seq<Row>, table: PlanTable)
      ensures this.rows == rows && Plans() == table && audit == []
    {
      this.rows, plans, subscriptions, audit := rows, table.plans, table.subscriptions, [];
    }

    method Insert(row: Row) returns (inserted: bool)
      modifies this`rows
      ensures rows == InsertOnce(old(rows), row) && inserted == !HasKey(old(rows), row.key)
    {
      for i := 0 to |rows|
        invariant forall j | 0 <= j < i :: rows[j].key != row.key
      {
        if rows[i].key == row.key {
          return false;
        }
      }
      rows := rows + [row];
      return true;
    }

    method InsertIntents(userId: string, intents: seq<LedgerIntent>) returns (applied: nat, skipped: nat)
      modifies this`rows
      ensures rows == InsertAll(old(rows), RowsOf(userId, intents))
      ensures applied + skipped == |intents| && |rows| == |old(rows)| + applied
    {
      applied, skipped := 0, 0;
      for k := 0 to |intents|
        invariant rows == InsertAll(old(rows), RowsOf(userId, intents[..k]))
        invariant applied + skipped == k && |rows| == |old(rows)| + applied
      {
        assert intents[..k + 1][..k] == intents[..k];
        assert RowsOf(userId, intents[..k + 1])[..k] == RowsOf(userId, intents[..k]);
        var inserted := Insert(RowOf(userId, intents[k]));
        if inserted {
          applied := applied + 1;
        } else {
          skipped := skipped + 1;
        }
      }
      assert intents[..|intents|] == intents;
    }

    method ChangePlan(userId: string, change: PlanChange, now: int)
      modifies this`plans, this`subscriptions
      ensures Plans() == ApplyChange(old(Plans()), userId, Some(change), now)
    {
      if userId in plans {
        plans := plans[userId := change.planCode];
      }
      if change.subscriptionId.Some? && change.subscriptionId.value != "" {
        var id := change.subscriptionId.value;
        var owner := if id in subscriptions then subscriptions[id].userId else userId;
        var canceledAt := if change.status.Canceled? then Some(now) else None;
        subscriptions := subscriptions[id := SubscriptionRow(owner, change.planCode, change.status,
                                                             DateOf(change.currentPeriodEnd), canceledAt)];
      }
    }

    /** Every intent is either applied, adding one row, or skipped because its key is there already; the plan change is
        made whether or not any was applied. */
    method ApplyOutcome(userId: string, outcome: PaddleOutcome, eventId: string, now: int)
      returns (applied: nat, skipped: nat)
      modifies this
      ensures rows == InsertAll(old(rows), RowsOf(userId, outcome.ledger))
      ensures applied + skipped == |outcome.ledger| && |rows| == |old(rows)| + applied
      ensures Plans() == ApplyChange(old(Plans()), userId, outcome.planChange, now)
      ensures audit == old(audit) + [AuditEntry(eventId, applied, skipped, PlanCodeOf(outcome), outcome.note)]
    {
      applied, skipped := InsertIntents(userId, outcome.ledger);
      if outcome.planChange.Some? {
        ChangePlan(userId, outcome.planChange.value, now);
      }
      var planCode := if outcome.planChange.Some? then Some(outcome.planChange.value.planCode) else None;
      audit := audit + [AuditEntry(eventId, applied, skipped, planCode, outcome.note)];
    }
  }

  /** The ledger after a sequence of webhook deliveries. */
  function Deliver(rows: seq<Row>, catalog: seq<CatalogEntry>, deliveries: seq<Delivery>): seq<Row> {
    if deliveries == [] then rows
    else
      var last := deliveries[|deliveries| - 1];
      InsertAll(Deliver(rows, catalog, deliveries[..|deliveries| - 1]), EventRows(last.event, catalog, last.now))
  }

  function AllRows(catalog: seq<CatalogEntry>, deliveries: seq<Delivery>): seq<Row> {
    if deliveries == [] then []
    else
      var last := deliveries[|deliveries| - 1];
      AllRows(catalog, deliveries[..|deliveries| - 1]) + EventRows(last.event, catalog, last.now)
  }

  lemma {:induction false} DeliverInserts(rows: seq<Row>, catalog: seq<CatalogEntry>, deliveries: seq<Delivery>)
    ensures Deliver(rows, catalog, deliveries) == InsertAll(rows, AllRows(catalog, deliveries))
    decreases |deliveries|
  {
    if deliveries != [] {
      var front, last := deliveries[..|deliveries| - 1], deliveries[|deliveries| - 1];
      DeliverInserts(rows, catalog, front);
      InsertAllConcat(rows, AllRows(catalog, front), EventRows(last.event, catalog, last.now));
    }
  }

  function GrantRowOf(event: PaddleEvent, catalog: seq<CatalogEntry>, i: nat): seq<Row>
    requires i < |event.items|
  {
    var entry := Find(catalog, event.items[i].priceId);
    if entry.None? then [] else [GrantRow(event, entry.value, i, event.items[i].quantity)]
  }

  function GrantRows(event: PaddleEvent, catalog: seq<CatalogEntry>, n: nat): seq<Row>
    requires n <= |event.items|
  {
    if n == 0 then [] else GrantRows(event, catalog, n - 1) + GrantRowOf(event, catalog, n - 1)
  }

  lemma RowOfGrant(event: PaddleEvent, entry: CatalogEntry, i: nat, quantity: int, now: int)
    ensures RowOf(event.userId, Grant(event, entry, i, quantity, now)) == GrantRow(event, entry, i, quantity)
  {
  }

  lemma RowsOfNext(event: PaddleEvent, catalog: seq<CatalogEntry>, now: int, before: seq<LedgerIntent>, i: nat)
    requires i < |event.items|
    ensures RowsOf(event.userId, before + GrantOf(event, catalog, now, i))
         == RowsOf(event.userId, before) + GrantRowOf(event, catalog, i)
  {
    var entry := Find(catalog, event.items[i].priceId);
    if entry.Some? {
      RowOfGrant(event, entry.value, i, event.items[i].quantity, now);
    }
  }

  lemma {:induction false} RowsOfGrants(event: PaddleEvent, catalog: seq<CatalogEntry>, now: int, n: nat)
    requires n <= |event.items|
    ensures RowsOf(event.userId, Grants(event, catalog, now, n)) == GrantRows(event, catalog, n)
  {
    if n > 0 {
      var before := Grants(event, catalog, now, n - 1);
      RowsOfGrants(event, catalog, now, n - 1);
      RowsOfNext(event, catalog, now, before, n - 1);
      assert Grants(event, catalog, now, n) == before + GrantOf(event, catalog, now, n - 1);
    }
  }

  lemma EventRowsTimeless(event: PaddleEvent, catalog: seq<CatalogEntry>, now: int)
    ensures EventRows(event, catalog, now) == EventRows(event, catalog, 0)
  {
    RowsOfGrants(event, catalog, now, |event.items|);
    RowsOfGrants(event, catalog, 0, |event.items|);
  }

  predicate Delivered(deliveries: seq<Delivery>, event: PaddleEvent) {
    exists i :: 0 <= i < |deliveries| && deliveries[i].event == event
  }

  predicate Writer(catalog: seq<CatalogEntry>, d: Delivery, row: Row) {
    row in EventRows(d.event, catalog, 0)
  }

  lemma {:induction false} WrittenBy(catalog: seq<CatalogEntry>, deliveries: seq<Delivery>, row: Row) returns (d: nat)
    requires row in AllRows(catalog, deliveries)
    ensures d < |deliveries| && Writer(catalog, deliveries[d], row)
    decreases |deliveries|
  {
    var front, last := deliveries[..|deliveries| - 1], deliveries[|deliveries| - 1];
    EventRowsTimeless(last.event, catalog, last.now);
    if row in EventRows(last.event, catalog, last.now) {
      d := |front|;
    } else {
      d := WrittenBy(catalog, front, row);
    }
  }

  lemma {:induction false} WritersRows(catalog: seq<CatalogEntry>, deliveries: seq<Delivery>, d: nat, row: Row)
    requires d < |deliveries| && Writer(catalog, deliveries[d], row)
    ensures row in AllRows(catalog, deliveries)
    decreases |deliveries|
  {
    var front, last := deliveries[..|deliveries| - 1], deliveries[|deliveries| - 1];
    if d == |front| {
      EventRowsTimeless(last.event, catalog, last.now);
    } else {
      WritersRows(catalog, front, d, row);
    }
  }

  /** An event id fixes its content. */
  predicate IdsFixContent(deliveries: seq<Delivery>) {
    forall i, j | 0 <= i < |deliveries| && 0 <= j < |deliveries|
                  && deliveries[i].event.eventId == deliveries[j].event.eventId ::
      deliveries[i].event == deliveries[j].event
  }

  lemma RowsAreConsistent(catalog: seq<CatalogEntry>, deliveries: seq<Delivery>)
    requires IdsFixContent(deliveries)
    ensures LedgerTable.KeyFixesRow(AllRows(catalog, deliveries), AllRows(catalog, deliveries))
  {
    var rows := AllRows(catalog, deliveries);
    forall k, l | 0 <= k < |rows| && 0 <= l < |rows| && rows[k].key == rows[l].key ensures rows[k] == rows[l] {
      var d := EventOfRow(catalog, deliveries, rows[k]);
      var e := EventOfRow(catalog, deliveries, rows[l]);
      KeyFixesRow(deliveries[d].event, deliveries[e].event, catalog, rows[k], rows[l]);
    }
  }

  lemma EventOfRow(catalog: seq<CatalogEntry>, deliveries: seq<Delivery>, row: Row) returns (d: nat)
    requires row in AllRows(catalog, deliveries)
    ensures d < |deliveries| && IsRowOf(deliveries[d].event, catalog, row)
  {
    d := WrittenBy(catalog, deliveries, row);
    var rows := EventRows(deliveries[d].event, catalog, 0);
    var k :| 0 <= k < |rows| && rows[k] == row;
    EventRowIs(deliveries[d].event, catalog, 0, k);
  }

  predicate SameEvents(a: seq<Delivery>, b: seq<Delivery>) {
    && (forall i | 0 <= i < |a| :: Delivered(b, a[i].event))
    && (forall i | 0 <= i < |b| :: Delivered(a, b[i].event))
  }

  lemma SameWrites(catalog: seq<CatalogEntry>, a: seq<Delivery>, b: seq<Delivery>, row: Row)
    requires row in AllRows(catalog, a) && forall i | 0 <= i < |a| :: Delivered(b, a[i].event)
    ensures row in AllRows(catalog, b)
  {
    var i := WrittenBy(catalog, a, row);
    var j :| 0 <= j < |b| && b[j].event == a[i].event;
    WritersRows(catalog, b, j, row);
  }

  /** Credits are granted exactly once from at-least-once delivery: two histories that deliver the same events, in any
      order and with any repeats, leave every user the same balance. */
  lemma ExactlyOnce(rows: seq<Row>, catalog: seq<CatalogEntry>, a: seq<Delivery>, b: seq<Delivery>, userId: string,
                    bucket: Bucket)
    requires SameEvents(a, b) && IdsFixContent(a) && IdsFixContent(b)
    ensures BalanceOf(Deliver(rows, catalog, a), userId, bucket) == BalanceOf(Deliver(rows, catalog, b), userId, bucket)
  {
    DeliverInserts(rows, catalog, a);
    DeliverInserts(rows, catalog, b);
    RowsAreConsistent(catalog, a);
    RowsAreConsistent(catalog, b);
    forall r ensures r in AllRows(catalog, a) <==> r in AllRows(catalog, b) {
      if r in AllRows(catalog, a) {
        SameWrites(catalog, a, b, r);
      }
      if r in AllRows(catalog, b) {
        SameWrites(catalog, b, a, r);
      }
    }
    InsertsCommute(rows, AllRows(catalog, a), AllRows(catalog, b), userId, bucket);
  }

  lemma {:induction false} GrantRowsDistinct(event: PaddleEvent, catalog: seq<CatalogEntry>, n: nat)
    requires n <= |event.items|
    ensures LedgerTable.DistinctKeys(GrantRows(event, catalog, n))
    ensures forall k | 0 <= k < |GrantRows(event, catalog, n)| ::
              exists i: nat :: i < n && GrantRows(event, catalog, n)[k].key == GrantKey(event.eventId, i)
  {
    if n > 0 {
      var before := GrantRows(event, catalog, n - 1);
      GrantRowsDistinct(event, catalog, n - 1);
      forall k | 0 <= k < |before| ensures before[k].key != GrantKey(event.eventId, n - 1) {
        var i: nat :| i < n - 1 && before[k].key == GrantKey(event.eventId, i);
        KeysAreInjective(event.eventId, i, event.eventId, n - 1);
      }
    }
  }

  lemma EventKeysDistinct(event: PaddleEvent, catalog: seq<CatalogEntry>, now: int)
    ensures LedgerTable.DistinctKeys(EventRows(event, catalog, now))
  {
    RowsOfGrants(event, catalog, now, |event.items|);
    GrantRowsDistinct(event, catalog, |event.items|);
  }

  /** The first delivery of an event grants all of it, and another one grants nothing more. */
  lemma FirstDeliveryCounts(rows: seq<Row>, catalog: seq<CatalogEntry>, event: PaddleEvent, now: int, later: int)
    requires forall r | r in EventRows(event, catalog, now) :: !HasKey(rows, r.key)
    ensures InsertAll(rows, EventRows(event, catalog, now)) == rows + EventRows(event, catalog, now)
    ensures InsertAll(rows + EventRows(event, catalog, now), EventRows(event, catalog, later))
            == rows + EventRows(event, catalog, now)
  {
    EventKeysDistinct(event, catalog, now);
    EventRowsTimeless(event, catalog, now);
    EventRowsTimeless(event, catalog, later);
    InsertAllTwice(rows, EventRows(event, catalog, now));
  }
}
