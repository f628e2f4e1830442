/**
  The older single-class implementation of the webhook handler. It makes the same writes
  as the split services, directly on the store, and checks its lookups in a different
  order: the plan is always checked before it is used, and the payment method never is.
 */
module LegacyPaymentsService {
  import opened Wrappers
  import opened Calendar
  import opened BillingPeriods
  import opened Schema
  import opened Transitions
  import opened Store

  method HandleWebhook(db: Database, event: WebhookEvent, now: Date) returns (outcome: Outcome)
    requires db.Valid()
    modifies db
    ensures db.Valid()
    ensures db.Snapshot() == Step(old(db.Snapshot()), event, now)
    ensures outcome == WebhookOutcome(Monolith, old(db.Snapshot()), event)
  {
    var data := event.data;
    var user := FindUserByEmail(db.users, data.customerEmail);
    if user.None? {
      return Dropped(UnknownUser);
    }
    match event.kind {
      case SubscriptionCreated =>
        outcome := CreateSubscription(db, data.subscriptionId, data.amount, data.billingPeriod);
      case SubscriptionPurchaseSuccessful =>
        outcome := PurchaseSubscription(db, user.value, data.subscriptionId, data.paymentMethodId, now);
      case SubscriptionRenewalSuccessful =>
        outcome := RenewSubscription(db, user.value, data.subscriptionId, now);
      case SubscriptionRenewalFailed =>
        outcome := ExpireSubscription(db, user.value, data.subscriptionId, now);
      case SubscriptionCanceled =>
        outcome := CancelSubscription(db, user.value, data.subscriptionId, now);
      case SubscriptionExpired =>
        outcome := ExpireSubscription(db, user.value, data.subscriptionId, now);
      case SubscriptionDeleted =>
        outcome := DeleteSubscription(db, data.subscriptionId);
      case Unrecognized(_) =>
        outcome := Dropped(UnhandledType);
    }
  }

  method CreateSubscription(db: Database, subscriptionId: string, amount: Amount, billingPeriod: string)
    returns (outcome: Outcome)
    requires db.Valid()
    modifies db
    ensures db.Valid()
    ensures db.Snapshot() == CreatePlan(old(db.Snapshot()), subscriptionId, amount, billingPeriod)
    ensures outcome == CreateOutcome(old(db.Snapshot()), subscriptionId, billingPeriod)
  {
    var created := db.CreateSubscription(PlanName(billingPeriod), subscriptionId, amount, ToUpper(billingPeriod));
    if created.None? {
      outcome := if !IsBillingPeriod(ToUpper(billingPeriod)) then Threw(InvalidBillingPeriod) else Threw(DuplicateThirdPartyId);
    } else {
      outcome := Handled;
    }
  }

  /**
    `purchaseSubscription`: an unknown plan returns quietly; the payment method is looked
    up afterwards and its id read without a check, so a missing one throws before any write.
   */
  method PurchaseSubscription(db: Database, user: User, subscriptionId: string, paymentMethodId: Option<int>, now: Date)
    returns (outcome: Outcome)
    requires db.Valid()
    modifies db
    ensures db.Valid()
    ensures db.Snapshot() == Purchase(old(db.Snapshot()), user, subscriptionId, paymentMethodId, now)
    ensures outcome == PurchaseOutcome(Monolith, old(db.Snapshot()), subscriptionId, paymentMethodId)
  {
    var subscription := FindSubscription(db.subscriptions, subscriptionId);
    if subscription.None? {
      return Dropped(UnknownSubscription);
    }
    if paymentMethodId.None? {
      return Threw(NoPaymentMethodId);
    }
    var paymentMethod := FindPaymentMethod(db.paymentMethods, paymentMethodId.value);
    var plan := subscription.value;
    var endAt := CalculateEndAt(plan.billingPeriod, None, now);
    if paymentMethod.None? {
      return Threw(NullPaymentMethod);
    }
    var binding := db.CreateUserSubscription(user.id, plan.id, Active, paymentMethod.value.id, endAt);
    db.CreatePaymentsHistory(PaymentHistory(user.id, plan.id, plan.amount, Currency, now, None, Active));
    outcome := Handled;
  }

  /** `renewSubscription`: both lookups are checked; the end moves one billing period past the previous end. */
  method RenewSubscription(db: Database, user: User, subscriptionId: string, now: Date) returns (outcome: Outcome)
    requires db.Valid()
    modifies db
    ensures db.Valid()
    ensures db.Snapshot() == Renew(old(db.Snapshot()), user, subscriptionId, now)
    ensures outcome == LifecycleOutcome(Monolith, old(db.Snapshot()), user, subscriptionId)
  {
    var subscription := FindSubscription(db.subscriptions, subscriptionId);
    if subscription.None? {
      return Dropped(UnknownSubscription);
    }
    var plan := subscription.value;
    var userSubscription := FindUserSubscription(db.userSubscriptions, user.id, plan.id);
    if userSubscription.None? {
      return Dropped(NoUserSubscription);
    }
    var row := userSubscription.value;
    var endAt := CalculateEndAt(plan.billingPeriod, Some(row.endAt), now);
    var patch := UserSubscriptionPatch(None, Some(endAt));
    UpdateFoundRow(db.userSubscriptions, LocateUserSubscription(db.userSubscriptions, user.id, plan.id).value, patch);
    var updated := db.UpdateUserSubscription(row.id, patch);
    db.CreatePaymentsHistory(PaymentHistory(user.id, plan.id, plan.amount, Currency, now, Some(row.status), Active));
    outcome := Handled;
  }

  /** `cancelSubscription`: the binding becomes CANCELED and ends now. */
  method CancelSubscription(db: Database, user: User, subscriptionId: string, now: Date) returns (outcome: Outcome)
    requires db.Valid()
    modifies db
    ensures db.Valid()
    ensures db.Snapshot() == Cancel(old(db.Snapshot()), user, subscriptionId, now)
    ensures outcome == LifecycleOutcome(Monolith, old(db.Snapshot()), user, subscriptionId)
  {
    var subscription := FindSubscription(db.subscriptions, subscriptionId);
    if subscription.None? {
      return Dropped(UnknownSubscription);
    }
    var plan := subscription.value;
    var userSubscription := FindUserSubscription(db.userSubscriptions, user.id, plan.id);
    if userSubscription.None? {
      return Dropped(NoUserSubscription);
    }
    var row := userSubscription.value;
    var patch := UserSubscriptionPatch(Some(Canceled), Some(now));
    UpdateFoundRow(db.userSubscriptions, LocateUserSubscription(db.userSubscriptions, user.id, plan.id).value, patch);
    var updated := db.UpdateUserSubscription(row.id, patch);
    db.CreatePaymentsHistory(PaymentHistory(user.id, plan.id, plan.amount, Currency, now, Some(row.status), Canceled));
    outcome := Handled;
  }

  /** `expireSubscription`: the binding becomes EXPIRED and keeps its end; nothing is returned. */
  method ExpireSubscription(db: Database, user: User, subscriptionId: string, now: Date) returns (outcome: Outcome)
    requires db.Valid()
    modifies db
    ensures db.Valid()
    ensures db.Snapshot() == Expire(old(db.Snapshot()), user, subscriptionId, now)
    ensures outcome == LifecycleOutcome(Monolith, old(db.Snapshot()), user, subscriptionId)
  {
    var subscription := FindSubscription(db.subscriptions, subscriptionId);
    if subscription.None? {
      return Dropped(UnknownSubscription);
    }
    var plan := subscription.value;
    var userSubscription := FindUserSubscription(db.userSubscriptions, user.id, plan.id);
    if userSubscription.None? {
      return Dropped(NoUserSubscription);
    }
    var row := userSubscription.value;
    var patch := UserSubscriptionPatch(Some(Expired), None);
    UpdateFoundRow(db.userSubscriptions, LocateUserSubscription(db.userSubscriptions, user.id, plan.id).value, patch);
    var updated := db.UpdateUserSubscription(row.id, patch);
    db.CreatePaymentsHistory(PaymentHistory(user.id, plan.id, plan.amount, Currency, now, Some(row.status), Expired));
    outcome := Handled;
  }

  /** `deleteSubscription`: remove the plan with that external id; an unknown id is logged and ignored. */
  method DeleteSubscription(db: Database, subscriptionId: string) returns (outcome: Outcome)
    requires db.Valid()
    modifies db
    ensures db.Valid()
    ensures db.Snapshot() == DeletePlan(old(db.Snapshot()), subscriptionId)
    ensures outcome == DeleteOutcome(old(db.Snapshot()), subscriptionId)
  {
    var subscription := FindSubscription(db.subscriptions, subscriptionId);
    if subscription.None? {
      return Dropped(UnknownSubscription);
    }
    RemoveFoundRow(db.subscriptions, LocateSubscription(db.subscriptions, subscriptionId).value);
    db.DeleteSubscription(subscription.value.id);
    outcome := Handled;
  }
}
