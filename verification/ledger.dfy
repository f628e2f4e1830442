/** The payment ledger service: one entry per user-level transition, appended and never rewritten. */
module PaymentsHistoryService {
  import opened Wrappers
  import opened Calendar
  import opened Schema
  import opened Store

  /**
    `createPaymentHistory`: look the plan up by its external id and, when it exists,
    append an entry in USD dated now that names the plan by its internal id.
   */
  method CreatePaymentHistory(db: Database, user: User, subscriptionId: string, amount: Amount,
                              oldStatus: Option<SubscriptionStatus>, newStatus: SubscriptionStatus, now: Date)
    returns (recorded: bool)
    requires db.Valid()
    modifies db
    ensures db.Valid()
    ensures recorded <==> old(FindSubscription(db.subscriptions, subscriptionId)).Some?
    ensures !recorded ==> db.Snapshot() == old(db.Snapshot())
    ensures recorded ==>
      var plan := old(FindSubscription(db.subscriptions, subscriptionId)).value;
      db.Snapshot() == old(db.Snapshot()).(paymentsHistory := old(db.paymentsHistory) +
        [PaymentHistory(user.id, plan.id, amount, Currency, now, oldStatus, newStatus)])
  {
    var subscription := FindSubscription(db.subscriptions, subscriptionId);
    if subscription.None? {
      return false;
    }
    db.CreatePaymentsHistory(PaymentHistory(user.id, subscription.value.id, amount, Currency, now, oldStatus, newStatus));
    recorded := true;
  }
}
