/**
  Properties of the webhook state machine that relate several deliveries, or the two
  implementations, to each other.
 */
module WebhookLaws {
  import opened Wrappers
  import opened Calendar
  import opened BillingPeriods
  import opened Schema
  import opened Transitions

  /** In either implementation, a delivery writes to the store exactly when it is handled. */
  lemma HandledIffWrites(v: Version, t: Tables, e: WebhookEvent, now: Date)
    ensures WebhookOutcome(v, t, e) == Handled <==> Step(t, e, now) != t
  {
    match FindUserByEmail(t.users, e.data.customerEmail)
    case None =>
    case Some(user) =>
      match e.kind
      case SubscriptionCreated =>
      case SubscriptionDeleted =>
      case SubscriptionPurchaseSuccessful =>
      case SubscriptionRenewalSuccessful =>
        assert Resolve(t, user, e.data.subscriptionId).Some? ==> |Step(t, e, now).paymentsHistory| == |t.paymentsHistory| + 1;
      case SubscriptionRenewalFailed =>
        assert Resolve(t, user, e.data.subscriptionId).Some? ==> |Step(t, e, now).paymentsHistory| == |t.paymentsHistory| + 1;
      case SubscriptionCanceled =>
        assert Resolve(t, user, e.data.subscriptionId).Some? ==> |Step(t, e, now).paymentsHistory| == |t.paymentsHistory| + 1;
      case SubscriptionExpired =>
        assert Resolve(t, user, e.data.subscriptionId).Some? ==> |Step(t, e, now).paymentsHistory| == |t.paymentsHistory| + 1;
      case Unrecognized(_) =>
  }

  /** The two implementations handle the same deliveries, and so leave the same store behind. */
  lemma VersionsAgreeOnHandled(t: Tables, e: WebhookEvent)
    ensures WebhookOutcome(Split, t, e) == Handled <==> WebhookOutcome(Monolith, t, e) == Handled
  {
  }

  /** Where the two implementations part: an unknown plan in renew, cancel or expire. */
  lemma VersionsDifferOnUnknownPlan(t: Tables, e: WebhookEvent)
    requires FindUserByEmail(t.users, e.data.customerEmail).Some?
    requires IsUserLevel(e.kind) && !e.kind.SubscriptionPurchaseSuccessful?
    requires FindSubscription(t.subscriptions, e.data.subscriptionId).None?
    ensures WebhookOutcome(Split, t, e) == Threw(NullSubscription)
    ensures WebhookOutcome(Monolith, t, e) == Dropped(UnknownSubscription)
  {
  }

  /** Where the two implementations part: a purchase naming a payment method that does not exist. */
  lemma VersionsDifferOnUnknownPaymentMethod(t: Tables, e: WebhookEvent)
    requires FindUserByEmail(t.users, e.data.customerEmail).Some?
    requires e.kind.SubscriptionPurchaseSuccessful?
    requires FindSubscription(t.subscriptions, e.data.subscriptionId).Some?
    requires e.data.paymentMethodId.Some? && e.data.paymentMethodId.value !in t.paymentMethods
    ensures WebhookOutcome(Split, t, e) == Dropped(UnknownPaymentMethod)
    ensures WebhookOutcome(Monolith, t, e) == Threw(NullPaymentMethod)
  {
  }

  /**
    The ledger grows by one entry for each handled user-level delivery and by none for
    anything else; the entry names the customer and the plan the payload names.
   */
  lemma LedgerEntryPerTransition(v: Version, t: Tables, e: WebhookEvent, now: Date)
    ensures var r := Step(t, e, now);
      |r.paymentsHistory| == |t.paymentsHistory| + (if IsUserLevel(e.kind) && WebhookOutcome(v, t, e) == Handled then 1 else 0)
    ensures var r := Step(t, e, now);
      |r.paymentsHistory| > |t.paymentsHistory| ==>
        && r.paymentsHistory[|t.paymentsHistory|].userId == t.users[e.data.customerEmail].id
        && FindSubscription(t.subscriptions, e.data.subscriptionId).Some?
        && r.paymentsHistory[|t.paymentsHistory|].subscriptionId == FindSubscription(t.subscriptions, e.data.subscriptionId).value.id
        && r.paymentsHistory[|t.paymentsHistory|].currency == Currency
        && r.paymentsHistory[|t.paymentsHistory|].paymentDate == now
  {
    var r := Step(t, e, now);
    match FindUserByEmail(t.users, e.data.customerEmail)
    case None =>
    case Some(user) =>
      var x := e.data.subscriptionId;
      match e.kind
      case SubscriptionCreated =>
      case SubscriptionDeleted =>
      case SubscriptionPurchaseSuccessful =>
      case SubscriptionRenewalSuccessful =>
        if Resolve(t, user, x).Some? {
          var pb := Resolve(t, user, x).value;
          assert r.paymentsHistory[|t.paymentsHistory|] == Entry(user, t.subscriptions[pb.0], Some(t.userSubscriptions[pb.1].status), Active, now);
        }
      case SubscriptionRenewalFailed =>
        if Resolve(t, user, x).Some? {
          var pb := Resolve(t, user, x).value;
          assert r.paymentsHistory[|t.paymentsHistory|] == Entry(user, t.subscriptions[pb.0], Some(t.userSubscriptions[pb.1].status), Expired, now);
        }
      case SubscriptionCanceled =>
        if Resolve(t, user, x).Some? {
          var pb := Resolve(t, user, x).value;
          assert r.paymentsHistory[|t.paymentsHistory|] == Entry(user, t.subscriptions[pb.0], Some(t.userSubscriptions[pb.1].status), Canceled, now);
        }
      case SubscriptionExpired =>
        if Resolve(t, user, x).Some? {
          var pb := Resolve(t, user, x).value;
          assert r.paymentsHistory[|t.paymentsHistory|] == Entry(user, t.subscriptions[pb.0], Some(t.userSubscriptions[pb.1].status), Expired, now);
        }
      case Unrecognized(_) =>
  }

  /** RENEWAL_FAILED and EXPIRED are the same transition, in both implementations. */
  lemma RenewalFailedIsExpiry(v: Version, t: Tables, data: WebhookData, now: Date)
    ensures Step(t, WebhookEvent(SubscriptionRenewalFailed, data), now) == Step(t, WebhookEvent(SubscriptionExpired, data), now)
    ensures WebhookOutcome(v, t, WebhookEvent(SubscriptionRenewalFailed, data)) == WebhookOutcome(v, t, WebhookEvent(SubscriptionExpired, data))
  {
  }

  /** Creating a plan under a fresh external id with a valid period and deleting it again restores the catalog; only the id counter moves on. */
  lemma CreateThenDelete(t: Tables, thirdPartyId: string, amount: Amount, billingPeriod: string)
    requires Creatable(t, thirdPartyId, billingPeriod)
    ensures DeletePlan(CreatePlan(t, thirdPartyId, amount, billingPeriod), thirdPartyId) == t.(nextSubscriptionId := t.nextSubscriptionId + 1)
  {
    var c := CreatePlan(t, thirdPartyId, amount, billingPeriod);
    var plan := Subscription(t.nextSubscriptionId, PlanName(billingPeriod), thirdPartyId, amount, ToUpper(billingPeriod));
    LocateSubscriptionAppend(t.subscriptions, plan, thirdPartyId);
    assert c.subscriptions[..|t.subscriptions|] + c.subscriptions[|t.subscriptions| + 1..] == t.subscriptions;
  }

  /**
    With the binding lookup resolved to the earliest stored row, a second purchase of a
    plan the user already holds adds a second binding that renew, cancel and expire never reach.
   */
  lemma RepeatPurchaseKeepsFirstBinding(t: Tables, user: User, thirdPartyId: string, paymentMethodId: Option<int>, now: Date)
    requires Resolve(t, user, thirdPartyId).Some?
    ensures Resolve(Purchase(t, user, thirdPartyId, paymentMethodId, now), user, thirdPartyId) == Resolve(t, user, thirdPartyId)
  {
    var r := Purchase(t, user, thirdPartyId, paymentMethodId, now);
    if Purchasable(t, thirdPartyId, paymentMethodId) {
      var plan := FindSubscription(t.subscriptions, thirdPartyId).value;
      LocateUserSubscriptionAppend(t.userSubscriptions, r.userSubscriptions[|t.userSubscriptions|], user.id, plan.id);
      assert r.userSubscriptions == t.userSubscriptions + [r.userSubscriptions[|t.userSubscriptions|]];
    }
  }

  /**
    Renewing a canceled binding pushes its end forward but leaves it CANCELED, while the
    ledger records the renewal as CANCELED to ACTIVE. Renew is taken to find the binding
    cancel changed, as the earliest-row lookup does.
   */
  lemma RenewAfterCancelStaysCanceled(t: Tables, user: User, thirdPartyId: string, canceledAt: Date, renewedAt: Date)
    requires Resolve(t, user, thirdPartyId).Some?
    ensures var b := Resolve(t, user, thirdPartyId).value.1;
      var r := Renew(Cancel(t, user, thirdPartyId, canceledAt), user, thirdPartyId, renewedAt);
      && r.userSubscriptions[b].status == Canceled
      && Before(canceledAt, r.userSubscriptions[b].endAt) == (t.subscriptions[Resolve(t, user, thirdPartyId).value.0].billingPeriod in {Monthly, Yearly})
      && r.paymentsHistory[|r.paymentsHistory| - 1].oldStatus == Some(Canceled)
      && r.paymentsHistory[|r.paymentsHistory| - 1].newStatus == Active
  {
    var pb := Resolve(t, user, thirdPartyId).value;
    var c := Cancel(t, user, thirdPartyId, canceledAt);
    var row := t.userSubscriptions[pb.1];
    LocateUserSubscriptionUpdate(t.userSubscriptions, pb.1, row.(status := Canceled, endAt := canceledAt), user.id, t.subscriptions[pb.0].id);
    assert Resolve(c, user, thirdPartyId) == Some(pb);
  }

  /** A delivery with the time it arrived. */
  datatype Delivery = Delivery(event: WebhookEvent, receivedAt: Date)

  /** The store after a sequence of deliveries, handled one at a time in order. */
  function Replay(t: Tables, deliveries: seq<Delivery>): Tables
    decreases |deliveries|
  {
    if deliveries == [] then t
    else Replay(Step(t, deliveries[0].event, deliveries[0].receivedAt), deliveries[1..])
  }

  /**
    Over any sequence of deliveries the users and payment methods are never written, the
    ledger is only ever appended to, and the schema's key constraints keep holding.
   */
  lemma {:induction false} ReplayKeepsLedger(t: Tables, deliveries: seq<Delivery>)
    ensures Replay(t, deliveries).users == t.users && Replay(t, deliveries).paymentMethods == t.paymentMethods
    ensures t.paymentsHistory <= Replay(t, deliveries).paymentsHistory
    ensures WellFormed(t) ==> WellFormed(Replay(t, deliveries))
    decreases |deliveries|
  {
    if deliveries != [] {
      var next := Step(t, deliveries[0].event, deliveries[0].receivedAt);
      ReplayKeepsLedger(next, deliveries[1..]);
    }
  }
}
