/** Credits are granted once; a plan follows whatever was delivered last. */
module PlanChanges {
  import opened Text
  import opened LedgerTable
  import opened Paddle

  /* Which events move what */

  predicate MovesCredits(eventType: string) {
    eventType == "transaction.completed" || eventType == "adjustment.created"
  }

  /** Only completed transactions and refunds write to the ledger, and a refund never moves a plan. A note is left only
      on events that write nothing. */
  lemma WhatEventsMove(event: PaddleEvent, catalog: seq<CatalogEntry>, now: int)
    ensures var outcome := IntentsForEvent(event, catalog, now);
            && (outcome.ledger != [] ==> MovesCredits(event.eventType))
            && (event.eventType == "adjustment.created" ==> outcome.planChange.None?)
            && (outcome.note != "" ==> outcome.ledger == [])
    ensures !MovesCredits(event.eventType) ==> EventRows(event, catalog, now) == []
  {
  }

  /** One of the items bought is for this plan. */
  predicate Bought(event: PaddleEvent, catalog: seq<CatalogEntry>, planCode: string) {
    exists i :: 0 <= i < |event.items| && PlanOf(catalog, event.items[i]) == Some(planCode)
  }

  lemma {:induction false} FirstPlanIsBought(event: PaddleEvent, catalog: seq<CatalogEntry>, from: nat)
    requires from <= |event.items|
    ensures var plan := FirstPlan(catalog, event.items[from..]);
            plan.Some? ==> exists i :: from <= i < |event.items| && PlanOf(catalog, event.items[i]) == plan
    decreases |event.items| - from
  {
    if from < |event.items| {
      assert event.items[from..][1..] == event.items[from + 1..];
      assert event.items[from..][0] == event.items[from];
      FirstPlanIsBought(event, catalog, from + 1);
    }
  }

  lemma {:induction false} LastPlanIsBought(event: PaddleEvent, catalog: seq<CatalogEntry>, n: nat)
    requires n <= |event.items|
    ensures var change := LastPlan(event, catalog, n);
            change.Some? ==>
              && Bought(event, catalog, change.value.planCode)
              && change == Change(event, change.value.planCode, Active)
  {
    if n > 0 {
      LastPlanIsBought(event, catalog, n - 1);
      assert PlanOf(catalog, event.items[n - 1]).Some? ==> 0 <= n - 1 < |event.items|;
    }
  }

  predicate LosesPlan(event: PaddleEvent) {
    event.eventType == "subscription.canceled" || event.eventType == "transaction.payment_failed"
  }

  /** A plan is changed to one that was bought, or back to the trial by a cancellation or a failed payment; only a
      cancellation cancels. */
  lemma PlanWasBought(event: PaddleEvent, catalog: seq<CatalogEntry>, now: int)
    requires IntentsForEvent(event, catalog, now).planChange.Some?
    ensures var change := IntentsForEvent(event, catalog, now).planChange.value;
            && (Bought(event, catalog, change.planCode) || (change.planCode == "trial" && LosesPlan(event)))
            && (change.status.Canceled? <==> event.eventType == "subscription.canceled")
            && change.subscriptionId == event.subscriptionId && change.currentPeriodEnd == event.currentPeriodEnd
  {
    ChangeIsOfEvent(event, catalog, now);
    LastPlanIsBought(event, catalog, |event.items|);
    NamedIsBought(event, catalog);
  }

  /** A change carries the subscription and the period of its event, and cancels only when the event does. */
  lemma ChangeIsOfEvent(event: PaddleEvent, catalog: seq<CatalogEntry>, now: int)
    requires IntentsForEvent(event, catalog, now).planChange.Some?
    ensures var change := IntentsForEvent(event, catalog, now).planChange;
            && change == Change(event, change.value.planCode, change.value.status)
            && (change.value.status.Canceled? <==> event.eventType == "subscription.canceled")
  {
    LastPlanIsBought(event, catalog, |event.items|);
  }

  lemma NamedIsBought(event: PaddleEvent, catalog: seq<CatalogEntry>)
    ensures var plan := FirstPlan(catalog, event.items); plan.Some? ==> Bought(event, catalog, plan.value)
  {
    assert event.items[0..] == event.items;
    FirstPlanIsBought(event, catalog, 0);
  }

  /* Deliveries */

  /** What a delivery makes of the plans; its two clock readings are taken as one. */
  function PlansAfter(t: PlanTable, catalog: seq<CatalogEntry>, d: Delivery): PlanTable {
    ApplyChange(t, d.event.userId, IntentsForEvent(d.event, catalog, d.now).planChange, d.now)
  }

  function DeliverPlans(t: PlanTable, catalog: seq<CatalogEntry>, deliveries: seq<Delivery>): PlanTable {
    if deliveries == [] then t
    else PlansAfter(DeliverPlans(t, catalog, deliveries[..|deliveries| - 1]), catalog, deliveries[|deliveries| - 1])
  }

  /** The plan an event names, whenever it is handled. */
  function NamedPlan(event: PaddleEvent, catalog: seq<CatalogEntry>): Option<string> {
    PlanCodeOf(IntentsForEvent(event, catalog, 0))
  }

  lemma NamedAnyTime(event: PaddleEvent, catalog: seq<CatalogEntry>, now: int)
    ensures IntentsForEvent(event, catalog, now).planChange == IntentsForEvent(event, catalog, 0).planChange
  {
  }

  /** The plan named by the last event of a user to be delivered that names one. */
  function LastNamed(catalog: seq<CatalogEntry>, deliveries: seq<Delivery>, user: string): Option<string> {
    if deliveries == [] then None
    else
      var event := deliveries[|deliveries| - 1].event;
      if event.userId == user && NamedPlan(event, catalog).Some? then NamedPlan(event, catalog)
      else LastNamed(catalog, deliveries[..|deliveries| - 1], user)
  }

  /** Whatever was delivered, in whatever order and how often: a user is on the plan the last delivery named. */
  lemma {:induction false} PlanFollowsLastDelivery(t: PlanTable, catalog: seq<CatalogEntry>, deliveries: seq<Delivery>,
                                                   user: string)
    requires user in t.plans
    ensures var now := DeliverPlans(t, catalog, deliveries);
            user in now.plans && now.plans[user] == Or(LastNamed(catalog, deliveries, user), t.plans[user])
    decreases |deliveries|
  {
    if deliveries != [] {
      var last := deliveries[|deliveries| - 1];
      PlanFollowsLastDelivery(t, catalog, deliveries[..|deliveries| - 1], user);
      NamedAnyTime(last.event, catalog, last.now);
    }
  }

  /** The exact condition for another delivery to leave its user's plan alone: it names no plan, or the one that was
      named last. */
  lemma RedeliveryKeepsPlanIff(t: PlanTable, catalog: seq<CatalogEntry>, deliveries: seq<Delivery>, d: Delivery)
    requires d.event.userId in t.plans
    ensures var user := d.event.userId;
            var before, after := DeliverPlans(t, catalog, deliveries), DeliverPlans(t, catalog, deliveries + [d]);
            && user in before.plans && user in after.plans
            && (after.plans[user] == before.plans[user]
                <==> NamedPlan(d.event, catalog) in
                       {None, Some(Or(LastNamed(catalog, deliveries, user), t.plans[user]))})
  {
    PlanFollowsLastDelivery(t, catalog, deliveries, d.event.userId);
    PlanFollowsLastDelivery(t, catalog, deliveries + [d], d.event.userId);
    assert (deliveries + [d])[..|deliveries|] == deliveries;
  }

  /** So redelivery is harmless to credits and not to plans: an activation delivered again after the cancellation grants
      nothing and brings the paid plan back. */
  lemma RedeliveryRevivesPlan(t: PlanTable, rows: seq<Row>, catalog: seq<CatalogEntry>, activated: Delivery,
                              canceled: Delivery)
    requires activated.event.eventType == "subscription.activated"
    requires canceled.event.eventType == "subscription.canceled"
    requires activated.event.userId == canceled.event.userId && activated.event.userId in t.plans
    requires FirstPlan(catalog, activated.event.items).Some?
    ensures var plan := FirstPlan(catalog, activated.event.items).value;
            var once := [activated] + [canceled];
            var twice := once + [activated];
            var user := activated.event.userId;
            var before, after := DeliverPlans(t, catalog, once), DeliverPlans(t, catalog, twice);
            && user in before.plans && before.plans[user] == "trial" && user in after.plans && after.plans[user] == plan
            && Deliver(rows, catalog, twice) == Deliver(rows, catalog, once) == rows
  {
    var once := [activated] + [canceled];
    PlanFollowsLastDelivery(t, catalog, once, activated.event.userId);
    PlanFollowsLastDelivery(t, catalog, once + [activated], activated.event.userId);
    NothingDelivered(rows, catalog, once + [activated]);
    NothingDelivered(rows, catalog, once);
  }

  lemma {:induction false} NothingDelivered(rows: seq<Row>, catalog: seq<CatalogEntry>, deliveries: seq<Delivery>)
    requires forall d | d in deliveries :: !MovesCredits(d.event.eventType)
    ensures Deliver(rows, catalog, deliveries) == rows
    decreases |deliveries|
  {
    if deliveries != [] {
      var last := deliveries[|deliveries| - 1];
      NothingDelivered(rows, catalog, deliveries[..|deliveries| - 1]);
      WhatEventsMove(last.event, catalog, last.now);
    }
  }
}
