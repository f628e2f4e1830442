/**
  The catalog service: plans are created and deleted by the payment provider's external
  id. Its `getSubscription` is `Schema.FindSubscription`.
 */
module SubscriptionsService {
  import opened BillingPeriods
  import opened Schema
  import opened Transitions
  import opened Store

  /**
    `createSubscription`: insert a plan named after the billing period as sent, with the
    period stored upper-cased. There is no lookup first; an external id already in the
    catalog makes the store reject the insert.
   */
  method CreateSubscription(db: Database, subscriptionId: string, amount: Amount, billingPeriod: string)
    returns (outcome: Outcome)
    requires db.Valid()
    modifies db
    ensures db.Valid()
    ensures db.Snapshot() == CreatePlan(old(db.Snapshot()), subscriptionId, amount, billingPeriod)
    ensures outcome == CreateOutcome(old(db.Snapshot()), subscriptionId, billingPeriod)
  {
    var created := db.CreateSubscription(PlanName(billingPeriod), subscriptionId, amount, ToUpper(billingPeriod));
    if created.None? {
      outcome := if !IsBillingPeriod(ToUpper(billingPeriod)) then Threw(InvalidBillingPeriod) else Threw(DuplicateThirdPartyId);
    } else {
      outcome := Handled;
    }
  }

  /** `deleteSubscription`: remove the plan with that external id; an unknown id is logged and ignored. */
  method DeleteSubscription(db: Database, subscriptionId: string) returns (outcome: Outcome)
    requires db.Valid()
    modifies db
    ensures db.Valid()
    ensures db.Snapshot() == DeletePlan(old(db.Snapshot()), subscriptionId)
    ensures outcome == DeleteOutcome(old(db.Snapshot()), subscriptionId)
  {
    var subscription := FindSubscription(db.subscriptions, subscriptionId);
    if subscription.None? {
      return Dropped(UnknownSubscription);
    }
    ghost var k := LocateSubscription(db.subscriptions, subscriptionId).value;
    RemoveFoundRow(db.subscriptions, k);
    db.DeleteSubscription(subscription.value.id);
    outcome := Handled;
  }
}
