/**
  The user-subscription service of the split implementation: purchase, renew, cancel and
  expire a user's binding to a plan, each followed by a ledger entry written through the
  payment ledger service. Its private lookups are `Schema.FindSubscription`,
  `Schema.FindPaymentMethod` and `Schema.FindUserSubscription`; its private create and
  update are the store's `CreateUserSubscription` and `UpdateUserSubscription`.
 */
module UserSubscriptionsService {
  import opened Wrappers
  import opened Calendar
  import opened BillingPeriods
  import opened Schema
  import opened Transitions
  import opened Store
  import PaymentsHistoryService

  /**
    `purchaseSubscription`: both lookups run before either result is checked, so a payload
    without a payment method id throws whatever the plan lookup found.
   */
  method PurchaseSubscription(db: Database, user: User, subscriptionId: string, paymentMethodId: Option<int>, now: Date)
    returns (outcome: Outcome)
    requires db.Valid()
    modifies db
    ensures db.Valid()
    ensures db.Snapshot() == Purchase(old(db.Snapshot()), user, subscriptionId, paymentMethodId, now)
    ensures outcome == PurchaseOutcome(Split, old(db.Snapshot()), subscriptionId, paymentMethodId)
  {
    var subscription := FindSubscription(db.subscriptions, subscriptionId);
    if paymentMethodId.None? {
      return Threw(NoPaymentMethodId);
    }
    var paymentMethod := FindPaymentMethod(db.paymentMethods, paymentMethodId.value);
    if subscription.None? || paymentMethod.None? {
      return if subscription.None? then Dropped(UnknownSubscription) else Dropped(UnknownPaymentMethod);
    }
    var plan := subscription.value;
    var endAt := CalculateEndAt(plan.billingPeriod, None, now);
    var binding := db.CreateUserSubscription(user.id, plan.id, Active, paymentMethod.value.id, endAt);
    var recorded := PaymentsHistoryService.CreatePaymentHistory(db, user, plan.thirdPartyId, plan.amount, None, Active, now);
    outcome := Handled;
  }

  /**
    `renewSubscription`: move the binding's end one billing period past its previous end.
    The plan's id is read before the plan is checked, so an unknown plan throws.
   */
  method RenewSubscription(db: Database, user: User, subscriptionId: string, now: Date) returns (outcome: Outcome)
    requires db.Valid()
    modifies db
    ensures db.Valid()
    ensures db.Snapshot() == Renew(old(db.Snapshot()), user, subscriptionId, now)
    ensures outcome == LifecycleOutcome(Split, old(db.Snapshot()), user, subscriptionId)
  {
    var subscription := FindSubscription(db.subscriptions, subscriptionId);
    if subscription.None? {
      return Threw(NullSubscription);
    }
    var plan := subscription.value;
    var userSubscription := FindUserSubscription(db.userSubscriptions, user.id, plan.id);
    if userSubscription.None? {
      return Dropped(NoUserSubscription);
    }
    var row := userSubscription.value;
    var endAt := CalculateEndAt(plan.billingPeriod, Some(row.endAt), now);
    var patch := UserSubscriptionPatch(None, Some(endAt));
    UpdateFoundRow(db.userSubscriptions, LocateUserSubscription(db.userSubscriptions, user.id, plan.id).value, patch);
    var updated := db.UpdateUserSubscription(row.id, patch);
    var recorded := PaymentsHistoryService.CreatePaymentHistory(db, user, plan.thirdPartyId, plan.amount, Some(row.status), Active, now);
    outcome := Handled;
  }

  /** `cancelSubscription`: the binding becomes CANCELED and ends now. */
  method CancelSubscription(db: Database, user: User, subscriptionId: string, now: Date) returns (outcome: Outcome)
    requires db.Valid()
    modifies db
    ensures db.Valid()
    ensures db.Snapshot() == Cancel(old(db.Snapshot()), user, subscriptionId, now)
    ensures outcome == LifecycleOutcome(Split, old(db.Snapshot()), user, subscriptionId)
  {
    var subscription := FindSubscription(db.subscriptions, subscriptionId);
    if subscription.None? {
      return Threw(NullSubscription);
    }
    var plan := subscription.value;
    var userSubscription := FindUserSubscription(db.userSubscriptions, user.id, plan.id);
    if userSubscription.None? {
      return Dropped(NoUserSubscription);
    }
    var row := userSubscription.value;
    var patch := UserSubscriptionPatch(Some(Canceled), Some(now));
    UpdateFoundRow(db.userSubscriptions, LocateUserSubscription(db.userSubscriptions, user.id, plan.id).value, patch);
    var updated := db.UpdateUserSubscription(row.id, patch);
    var recorded := PaymentsHistoryService.CreatePaymentHistory(db, user, plan.thirdPartyId, plan.amount, Some(row.status), Canceled, now);
    outcome := Handled;
  }

  /** `expireSubscription`: the binding becomes EXPIRED, keeps its end, and is returned as stored. */
  method ExpireSubscription(db: Database, user: User, subscriptionId: string, now: Date)
    returns (outcome: Outcome, updated: Option<UserSubscription>)
    requires db.Valid()
    modifies db
    ensures db.Valid()
    ensures db.Snapshot() == Expire(old(db.Snapshot()), user, subscriptionId, now)
    ensures outcome == LifecycleOutcome(Split, old(db.Snapshot()), user, subscriptionId)
    ensures updated.Some? <==> outcome == Handled
    ensures updated.Some? ==>
      var b := Resolve(old(db.Snapshot()), user, subscriptionId).value.1;
      && updated.value == db.userSubscriptions[b]
      && updated.value.status == Expired
      && updated.value.endAt == old(db.userSubscriptions[b].endAt)
  {
    var subscription := FindSubscription(db.subscriptions, subscriptionId);
    if subscription.None? {
      return Threw(NullSubscription), None;
    }
    var plan := subscription.value;
    var userSubscription := FindUserSubscription(db.userSubscriptions, user.id, plan.id);
    if userSubscription.None? {
      return Dropped(NoUserSubscription), None;
    }
    var row := userSubscription.value;
    var patch := UserSubscriptionPatch(Some(Expired), None);
    UpdateFoundRow(db.userSubscriptions, LocateUserSubscription(db.userSubscriptions, user.id, plan.id).value, patch);
    var stored := db.UpdateUserSubscription(row.id, patch);
    var recorded := PaymentsHistoryService.CreatePaymentHistory(db, user, plan.thirdPartyId, plan.amount, Some(row.status), Expired, now);
    outcome, updated := Handled, Some(stored);
  }
}
