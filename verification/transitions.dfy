/**
  What one webhook delivery does to the store, as pure functions over a `Tables` value.
  Both implementations of the webhook handler (the split services and the older single
  class) write exactly these tables for every event; they differ only in how a failed
  lookup ends, which `WebhookOutcome` gives per implementation.
 */
module Transitions {
  import opened Wrappers
  import opened Calendar
  import opened BillingPeriods
  import opened Schema

  /** The two implementations: the split services and the older single service class. */
  datatype Version = Split | Monolith

  /** Why a delivery returned early without writing. */
  datatype Miss = UnknownUser | UnknownSubscription | UnknownPaymentMethod | NoUserSubscription | UnhandledType

  /** Why a delivery threw; every fault happens before the first write. */
  datatype Fault =
    | NullSubscription        // `subscription.id` read while `subscription` is null
    | NullPaymentMethod       // `paymentMethod.id` read while `paymentMethod` is null
    | NoPaymentMethodId       // unique lookup of a payment method with no id in the payload
    | DuplicateThirdPartyId   // insert rejected by the unique index on `thirdPartyId`
    | InvalidBillingPeriod    // insert rejected: the upper-cased period is not a `BillingPeriod` value

  datatype Outcome = Handled | Dropped(miss: Miss) | Threw(fault: Fault)

  /** A catalog plan's display name keeps the payload's billing period as it was sent. */
  function PlanName(billingPeriod: string): string {
    billingPeriod + " Subscription"
  }

  /** The ledger entry for a user-level transition on `plan`. */
  function Entry(user: User, plan: Subscription, oldStatus: Option<SubscriptionStatus>, newStatus: SubscriptionStatus, now: Date): PaymentHistory {
    PaymentHistory(user.id, plan.id, plan.amount, Currency, now, oldStatus, newStatus)
  }

  /** A plan can be inserted when its upper-cased period is a `BillingPeriod` value and the external id is free. */
  predicate Creatable(t: Tables, thirdPartyId: string, billingPeriod: string) {
    IsBillingPeriod(ToUpper(billingPeriod)) && FindSubscription(t.subscriptions, thirdPartyId).None?
  }

  /** SUBSCRIPTION_CREATED: insert a plan under the external id, unless the store rejects it. */
  function CreatePlan(t: Tables, thirdPartyId: string, amount: Amount, billingPeriod: string): (r: Tables)
    ensures r.users == t.users && r.paymentMethods == t.paymentMethods
    ensures r.userSubscriptions == t.userSubscriptions && r.nextUserSubscriptionId == t.nextUserSubscriptionId
    ensures r.paymentsHistory == t.paymentsHistory
    ensures !Creatable(t, thirdPartyId, billingPeriod) ==> r == t
    ensures Creatable(t, thirdPartyId, billingPeriod) ==>
      var plan := Subscription(t.nextSubscriptionId, PlanName(billingPeriod), thirdPartyId, amount, ToUpper(billingPeriod));
      && r.subscriptions == t.subscriptions + [plan]
      && r.nextSubscriptionId == t.nextSubscriptionId + 1
      && FindSubscription(r.subscriptions, thirdPartyId) == Some(plan)
      && IsBillingPeriod(plan.billingPeriod)
    ensures WellFormed(t) ==> WellFormed(r)
  {
    if !Creatable(t, thirdPartyId, billingPeriod) then t
    else
      var plan := Subscription(t.nextSubscriptionId, PlanName(billingPeriod), thirdPartyId, amount, ToUpper(billingPeriod));
      LocateSubscriptionAppend(t.subscriptions, plan, thirdPartyId);
      t.(subscriptions := t.subscriptions + [plan], nextSubscriptionId := t.nextSubscriptionId + 1)
  }

  /** SUBSCRIPTION_DELETED: remove the plan with the external id, if there is one. */
  function DeletePlan(t: Tables, thirdPartyId: string): (r: Tables)
    ensures r.users == t.users && r.paymentMethods == t.paymentMethods && r.nextSubscriptionId == t.nextSubscriptionId
    ensures r.userSubscriptions == t.userSubscriptions && r.nextUserSubscriptionId == t.nextUserSubscriptionId
    ensures r.paymentsHistory == t.paymentsHistory
    ensures FindSubscription(t.subscriptions, thirdPartyId).None? ==> r == t
    ensures FindSubscription(t.subscriptions, thirdPartyId).Some? ==>
      && |r.subscriptions| == |t.subscriptions| - 1
      && (forall s :: s in r.subscriptions ==> s in t.subscriptions)
      && (forall s :: s in t.subscriptions && s.thirdPartyId != thirdPartyId ==> s in r.subscriptions)
    ensures WellFormed(t) ==> WellFormed(r) && FindSubscription(r.subscriptions, thirdPartyId).None?
  {
    match LocateSubscription(t.subscriptions, thirdPartyId)
    case None => t
    case Some(k) =>
      SliceOut(t.subscriptions, k);
      SliceOutUnique(t.subscriptions, k);
      t.(subscriptions := t.subscriptions[..k] + t.subscriptions[k + 1..])
  }

  /** A purchase goes ahead when the plan exists and the payload names an existing payment method. */
  predicate Purchasable(t: Tables, thirdPartyId: string, paymentMethodId: Option<int>) {
    FindSubscription(t.subscriptions, thirdPartyId).Some? && paymentMethodId.Some? && paymentMethodId.value in t.paymentMethods
  }

  /**
    SUBSCRIPTION_PURCHASE_SUCCESSFUL: bind the user to the plan, ACTIVE until one billing
    period from now, and record the payment as a first purchase.
   */
  function Purchase(t: Tables, user: User, thirdPartyId: string, paymentMethodId: Option<int>, now: Date): (r: Tables)
    ensures r.users == t.users && r.paymentMethods == t.paymentMethods
    ensures r.subscriptions == t.subscriptions && r.nextSubscriptionId == t.nextSubscriptionId
    ensures !Purchasable(t, thirdPartyId, paymentMethodId) ==> r == t
    ensures Purchasable(t, thirdPartyId, paymentMethodId) ==>
      var plan := FindSubscription(t.subscriptions, thirdPartyId).value;
      var binding := UserSubscription(t.nextUserSubscriptionId, user.id, plan.id, Active, paymentMethodId.value,
                                      CalculateEndAt(plan.billingPeriod, None, now));
      && r.userSubscriptions == t.userSubscriptions + [binding]
      && r.nextUserSubscriptionId == t.nextUserSubscriptionId + 1
      && r.paymentsHistory == t.paymentsHistory + [Entry(user, plan, None, Active, now)]
      && FindUserSubscription(r.userSubscriptions, user.id, plan.id).Some?
      && (FindUserSubscription(t.userSubscriptions, user.id, plan.id).None? ==>
            FindUserSubscription(r.userSubscriptions, user.id, plan.id) == Some(binding))
    ensures WellFormed(t) ==> WellFormed(r)
  {
    if !Purchasable(t, thirdPartyId, paymentMethodId) then t
    else
      var plan := FindSubscription(t.subscriptions, thirdPartyId).value;
      var binding := UserSubscription(t.nextUserSubscriptionId, user.id, plan.id, Active, paymentMethodId.value,
                                      CalculateEndAt(plan.billingPeriod, None, now));
      LocateUserSubscriptionAppend(t.userSubscriptions, binding, user.id, plan.id);
      t.(userSubscriptions := t.userSubscriptions + [binding],
         nextUserSubscriptionId := t.nextUserSubscriptionId + 1,
         paymentsHistory := t.paymentsHistory + [Entry(user, plan, None, Active, now)])
  }

  /**
    The two lookups renew, cancel and expire make: the position of the plan with the
    external id, then the position of the user's first binding to that plan.
   */
  function Resolve(t: Tables, user: User, thirdPartyId: string): (r: Option<(nat, nat)>)
    ensures r.Some? ==>
      && r.value.0 < |t.subscriptions| && r.value.1 < |t.userSubscriptions|
      && Some(t.subscriptions[r.value.0]) == FindSubscription(t.subscriptions, thirdPartyId)
      && Some(t.userSubscriptions[r.value.1]) == FindUserSubscription(t.userSubscriptions, user.id, t.subscriptions[r.value.0].id)
    ensures r.None? <==>
      || FindSubscription(t.subscriptions, thirdPartyId).None?
      || FindUserSubscription(t.userSubscriptions, user.id, FindSubscription(t.subscriptions, thirdPartyId).value.id).None?
  {
    match LocateSubscription(t.subscriptions, thirdPartyId)
    case None => None
    case Some(p) =>
      match LocateUserSubscription(t.userSubscriptions, user.id, t.subscriptions[p].id)
      case None => None
      case Some(b) => Some((p, b))
  }

  /** Overwrite binding `b` with `row` and append `entry` to the ledger. */
  function Transition(t: Tables, b: nat, row: UserSubscription, entry: PaymentHistory): (r: Tables)
    requires b < |t.userSubscriptions| && row.id == t.userSubscriptions[b].id
    ensures WellFormed(t) ==> WellFormed(r)
  {
    t.(userSubscriptions := t.userSubscriptions[b := row], paymentsHistory := t.paymentsHistory + [entry])
  }

  /**
    SUBSCRIPTION_RENEWAL_SUCCESSFUL: push the binding's end one billing period past its
    previous end. The stored status is left alone; the ledger says it became ACTIVE.
   */
  function Renew(t: Tables, user: User, thirdPartyId: string, now: Date): (r: Tables)
    ensures r.users == t.users && r.paymentMethods == t.paymentMethods
    ensures r.subscriptions == t.subscriptions && r.nextSubscriptionId == t.nextSubscriptionId
    ensures r.nextUserSubscriptionId == t.nextUserSubscriptionId
    ensures Resolve(t, user, thirdPartyId).None? ==> r == t
    ensures Resolve(t, user, thirdPartyId).Some? ==>
      var plan := t.subscriptions[Resolve(t, user, thirdPartyId).value.0];
      var b := Resolve(t, user, thirdPartyId).value.1;
      var row := t.userSubscriptions[b];
      && r.userSubscriptions == t.userSubscriptions[b := row.(endAt := CalculateEndAt(plan.billingPeriod, Some(row.endAt), now))]
      && r.paymentsHistory == t.paymentsHistory + [Entry(user, plan, Some(row.status), Active, now)]
    ensures WellFormed(t) ==> WellFormed(r)
  {
    match Resolve(t, user, thirdPartyId)
    case None => t
    case Some((p, b)) =>
      var plan := t.subscriptions[p];
      var row := t.userSubscriptions[b];
      Transition(t, b, row.(endAt := CalculateEndAt(plan.billingPeriod, Some(row.endAt), now)),
                 Entry(user, plan, Some(row.status), Active, now))
  }

  /** SUBSCRIPTION_CANCELED: the binding becomes CANCELED and ends now. */
  function Cancel(t: Tables, user: User, thirdPartyId: string, now: Date): (r: Tables)
    ensures r.users == t.users && r.paymentMethods == t.paymentMethods
    ensures r.subscriptions == t.subscriptions && r.nextSubscriptionId == t.nextSubscriptionId
    ensures r.nextUserSubscriptionId == t.nextUserSubscriptionId
    ensures Resolve(t, user, thirdPartyId).None? ==> r == t
    ensures Resolve(t, user, thirdPartyId).Some? ==>
      var plan := t.subscriptions[Resolve(t, user, thirdPartyId).value.0];
      var b := Resolve(t, user, thirdPartyId).value.1;
      var row := t.userSubscriptions[b];
      && r.userSubscriptions == t.userSubscriptions[b := row.(status := Canceled, endAt := now)]
      && r.paymentsHistory == t.paymentsHistory + [Entry(user, plan, Some(row.status), Canceled, now)]
    ensures WellFormed(t) ==> WellFormed(r)
  {
    match Resolve(t, user, thirdPartyId)
    case None => t
    case Some((p, b)) =>
      var plan := t.subscriptions[p];
      var row := t.userSubscriptions[b];
      Transition(t, b, row.(status := Canceled, endAt := now), Entry(user, plan, Some(row.status), Canceled, now))
  }

  /** SUBSCRIPTION_EXPIRED and SUBSCRIPTION_RENEWAL_FAILED: the binding becomes EXPIRED and keeps its end. */
  function Expire(t: Tables, user: User, thirdPartyId: string, now: Date): (r: Tables)
    ensures r.users == t.users && r.paymentMethods == t.paymentMethods
    ensures r.subscriptions == t.subscriptions && r.nextSubscriptionId == t.nextSubscriptionId
    ensures r.nextUserSubscriptionId == t.nextUserSubscriptionId
    ensures Resolve(t, user, thirdPartyId).None? ==> r == t
    ensures Resolve(t, user, thirdPartyId).Some? ==>
      var plan := t.subscriptions[Resolve(t, user, thirdPartyId).value.0];
      var b := Resolve(t, user, thirdPartyId).value.1;
      var row := t.userSubscriptions[b];
      && r.userSubscriptions == t.userSubscriptions[b := row.(status := Expired)]
      && r.paymentsHistory == t.paymentsHistory + [Entry(user, plan, Some(row.status), Expired, now)]
    ensures WellFormed(t) ==> WellFormed(r)
  {
    match Resolve(t, user, thirdPartyId)
    case None => t
    case Some((p, b)) =>
      var plan := t.subscriptions[p];
      var row := t.userSubscriptions[b];
      Transition(t, b, row.(status := Expired), Entry(user, plan, Some(row.status), Expired, now))
  }

  /** The event types that act on a user's binding and so write to the ledger. */
  predicate IsUserLevel(kind: WebhookType) {
    kind.SubscriptionPurchaseSuccessful? || kind.SubscriptionRenewalSuccessful? || kind.SubscriptionRenewalFailed?
    || kind.SubscriptionCanceled? || kind.SubscriptionExpired?
  }

  /**
    What one delivery writes: nothing for an unknown customer e-mail or an unknown event
    type; otherwise the catalog or binding transition the event type names.
   */
  function Step(t: Tables, e: WebhookEvent, now: Date): (r: Tables)
    ensures r.users == t.users && r.paymentMethods == t.paymentMethods
    ensures t.paymentsHistory <= r.paymentsHistory
    ensures FindUserByEmail(t.users, e.data.customerEmail).None? || e.kind.Unrecognized? ==> r == t
    ensures !IsUserLevel(e.kind) ==> r.paymentsHistory == t.paymentsHistory
    ensures WellFormed(t) ==> WellFormed(r)
  {
    match FindUserByEmail(t.users, e.data.customerEmail)
    case None => t
    case Some(user) =>
      match e.kind
      case SubscriptionCreated => CreatePlan(t, e.data.subscriptionId, e.data.amount, e.data.billingPeriod)
      case SubscriptionDeleted => DeletePlan(t, e.data.subscriptionId)
      case SubscriptionPurchaseSuccessful => Purchase(t, user, e.data.subscriptionId, e.data.paymentMethodId, now)
      case SubscriptionRenewalSuccessful => Renew(t, user, e.data.subscriptionId, now)
      case SubscriptionRenewalFailed => Expire(t, user, e.data.subscriptionId, now)
      case SubscriptionCanceled => Cancel(t, user, e.data.subscriptionId, now)
      case SubscriptionExpired => Expire(t, user, e.data.subscriptionId, now)
      case Unrecognized(_) => t
  }

  /**
    How a purchase ends. The split version looks up the plan and the payment method before
    checking either, so a payload without a payment method id throws even for an unknown
    plan; the single class checks the plan first and then reads `paymentMethod.id` unchecked.
   */
  function PurchaseOutcome(v: Version, t: Tables, thirdPartyId: string, paymentMethodId: Option<int>): (o: Outcome)
    ensures o == Handled <==> Purchasable(t, thirdPartyId, paymentMethodId)
    ensures o == Dropped(UnknownSubscription) ==> FindSubscription(t.subscriptions, thirdPartyId).None?
    ensures o == Dropped(UnknownPaymentMethod) || o == Threw(NullPaymentMethod) ==>
      paymentMethodId.Some? && paymentMethodId.value !in t.paymentMethods
    ensures o == Threw(NoPaymentMethodId) ==> paymentMethodId.None?
    ensures v == Split ==> (o == Threw(NoPaymentMethodId) <==> paymentMethodId.None?)
    ensures v == Split ==> o != Threw(NullPaymentMethod)
    ensures v == Monolith ==> (o == Dropped(UnknownSubscription) <==> FindSubscription(t.subscriptions, thirdPartyId).None?)
    ensures v == Monolith ==> o != Dropped(UnknownPaymentMethod)
  {
    var planFound := FindSubscription(t.subscriptions, thirdPartyId).Some?;
    match v
    case Split =>
      if paymentMethodId.None? then Threw(NoPaymentMethodId)
      else if !planFound then Dropped(UnknownSubscription)
      else if paymentMethodId.value !in t.paymentMethods then Dropped(UnknownPaymentMethod)
      else Handled
    case Monolith =>
      if !planFound then Dropped(UnknownSubscription)
      else if paymentMethodId.None? then Threw(NoPaymentMethodId)
      else if paymentMethodId.value !in t.paymentMethods then Threw(NullPaymentMethod)
      else Handled
  }

  /**
    How renew, cancel and expire end. The split version reads `subscription.id` before its
    null check, so an unknown plan throws there and returns quietly in the single class.
   */
  function LifecycleOutcome(v: Version, t: Tables, user: User, thirdPartyId: string): (o: Outcome)
    ensures o == Handled <==> Resolve(t, user, thirdPartyId).Some?
    ensures FindSubscription(t.subscriptions, thirdPartyId).None? ==>
      o == (if v == Split then Threw(NullSubscription) else Dropped(UnknownSubscription))
    ensures o == Dropped(NoUserSubscription) <==>
      FindSubscription(t.subscriptions, thirdPartyId).Some? && Resolve(t, user, thirdPartyId).None?
  {
    match FindSubscription(t.subscriptions, thirdPartyId)
    case None => if v == Split then Threw(NullSubscription) else Dropped(UnknownSubscription)
    case Some(plan) =>
      if FindUserSubscription(t.userSubscriptions, user.id, plan.id).None? then Dropped(NoUserSubscription)
      else Handled
  }

  /**
    How a plan insert ends, the same in both implementations: there is no lookup first, so
    both rejections by the store surface as a throw.
   */
  function CreateOutcome(t: Tables, thirdPartyId: string, billingPeriod: string): (o: Outcome)
    ensures o == Handled <==> Creatable(t, thirdPartyId, billingPeriod)
    ensures o == Threw(InvalidBillingPeriod) <==> !IsBillingPeriod(ToUpper(billingPeriod))
    ensures o == Threw(DuplicateThirdPartyId) <==>
      IsBillingPeriod(ToUpper(billingPeriod)) && FindSubscription(t.subscriptions, thirdPartyId).Some?
  {
    if !IsBillingPeriod(ToUpper(billingPeriod)) then Threw(InvalidBillingPeriod)
    else if FindSubscription(t.subscriptions, thirdPartyId).Some? then Threw(DuplicateThirdPartyId)
    else Handled
  }

  /** How a plan delete ends, the same in both implementations: an unknown external id is logged and ignored. */
  function DeleteOutcome(t: Tables, thirdPartyId: string): (o: Outcome)
    ensures o == Handled <==> FindSubscription(t.subscriptions, thirdPartyId).Some?
    ensures o != Handled ==> o == Dropped(UnknownSubscription)
  {
    if FindSubscription(t.subscriptions, thirdPartyId).None? then Dropped(UnknownSubscription) else Handled
  }

  /** How one delivery ends in implementation `v`. */
  function WebhookOutcome(v: Version, t: Tables, e: WebhookEvent): (o: Outcome)
    ensures o == Dropped(UnknownUser) <==> FindUserByEmail(t.users, e.data.customerEmail).None?
    ensures o == Dropped(UnhandledType) <==> FindUserByEmail(t.users, e.data.customerEmail).Some? && e.kind.Unrecognized?
  {
    match FindUserByEmail(t.users, e.data.customerEmail)
    case None => Dropped(UnknownUser)
    case Some(user) =>
      match e.kind
      case SubscriptionCreated => CreateOutcome(t, e.data.subscriptionId, e.data.billingPeriod)
      case SubscriptionDeleted => DeleteOutcome(t, e.data.subscriptionId)
      case SubscriptionPurchaseSuccessful => PurchaseOutcome(v, t, e.data.subscriptionId, e.data.paymentMethodId)
      case SubscriptionRenewalSuccessful => LifecycleOutcome(v, t, user, e.data.subscriptionId)
      case SubscriptionRenewalFailed => LifecycleOutcome(v, t, user, e.data.subscriptionId)
      case SubscriptionCanceled => LifecycleOutcome(v, t, user, e.data.subscriptionId)
      case SubscriptionExpired => LifecycleOutcome(v, t, user, e.data.subscriptionId)
      case Unrecognized(_) => Dropped(UnhandledType)
  }
}
