/**
  The webhook entry point of the split implementation: resolve the customer by e-mail,
  then route the event type to the catalog or the user-subscription service.
 */
module PaymentsService {
  import opened Calendar
  import opened Schema
  import opened Transitions
  import opened Store
  import SubscriptionsService
  import UserSubscriptionsService

  method HandleWebhook(db: Database, event: WebhookEvent, now: Date) returns (outcome: Outcome)
    requires db.Valid()
    modifies db
    ensures db.Valid()
    ensures db.Snapshot() == Step(old(db.Snapshot()), event, now)
    ensures outcome == WebhookOutcome(Split, old(db.Snapshot()), event)
  {
    var data := event.data;
    var user := FindUserByEmail(db.users, data.customerEmail);
    if user.None? {
      return Dropped(UnknownUser);
    }
    match event.kind {
      case SubscriptionCreated =>
        outcome := SubscriptionsService.CreateSubscription(db, data.subscriptionId, data.amount, data.billingPeriod);
      case SubscriptionDeleted =>
        outcome := SubscriptionsService.DeleteSubscription(db, data.subscriptionId);
      case SubscriptionPurchaseSuccessful =>
        outcome := UserSubscriptionsService.PurchaseSubscription(db, user.value, data.subscriptionId, data.paymentMethodId, now);
      case SubscriptionRenewalSuccessful =>
        outcome := UserSubscriptionsService.RenewSubscription(db, user.value, data.subscriptionId, now);
      case SubscriptionRenewalFailed =>
        var updated;
        outcome, updated := UserSubscriptionsService.ExpireSubscription(db, user.value, data.subscriptionId, now);
      case SubscriptionCanceled =>
        outcome := UserSubscriptionsService.CancelSubscription(db, user.value, data.subscriptionId, now);
      case SubscriptionExpired =>
        var updated;
        outcome, updated := UserSubscriptionsService.ExpireSubscription(db, user.value, data.subscriptionId, now);
      case Unrecognized(_) =>
        outcome := Dropped(UnhandledType);
    }
  }
}
