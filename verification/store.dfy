/**
  The database the services share. Users and payment methods are read-only here; the
  catalog, the user bindings and the payment ledger are tables the services write.
  Each method is one data-store call: a create, an update or a delete by primary key.
 */
module Store {
  import opened Wrappers
  import opened Calendar
  import opened BillingPeriods
  import opened Schema

  class Database {
    const users: map<string, User>
    const paymentMethods: map<int, PaymentMethod>
    var subscriptions: seq<Subscription>
    var nextSubscriptionId: int
    var userSubscriptions: seq<UserSubscription>
    var nextUserSubscriptionId: int
    var paymentsHistory: seq<PaymentHistory>

    function Snapshot(): Tables
      reads this
    {
      Tables(users, paymentMethods, subscriptions, nextSubscriptionId, userSubscriptions, nextUserSubscriptionId, paymentsHistory)
    }

    ghost predicate Valid()
      reads this
    {
      WellFormed(Snapshot())
    }

    /** A store with the given users and payment methods and empty plan, binding and ledger tables. */
    constructor (users: map<string, User>, paymentMethods: map<int, PaymentMethod>)
      requires forall e :: e in users ==> users[e].email == e
      requires forall k :: k in paymentMethods ==> paymentMethods[k].id == k
      ensures Valid()
      ensures Snapshot() == Tables(users, paymentMethods, [], 1, [], 1, [])
    {
      this.users := users;
      this.paymentMethods := paymentMethods;
      subscriptions := [];
      nextSubscriptionId := 1;
      userSubscriptions := [];
      nextUserSubscriptionId := 1;
      paymentsHistory := [];
    }

    /**
      `subscription.create`: a new plan with the next id. The store rejects the insert and
      writes nothing when the billing period is not a value of the `BillingPeriod` enum
      (checked first, before the query is sent) or when the unique index on `thirdPartyId`
      already holds the external id.
     */
    method CreateSubscription(name: string, thirdPartyId: string, amount: Amount, billingPeriod: string)
      returns (created: Option<Subscription>)
      requires Valid()
      modifies this
      ensures Valid()
      ensures !IsBillingPeriod(billingPeriod) || old(LocateSubscription(subscriptions, thirdPartyId)).Some? ==>
        created.None? && Snapshot() == old(Snapshot())
      ensures IsBillingPeriod(billingPeriod) && old(LocateSubscription(subscriptions, thirdPartyId)).None? ==>
        && created == Some(Subscription(old(nextSubscriptionId), name, thirdPartyId, amount, billingPeriod))
        && Snapshot() == old(Snapshot()).(subscriptions := old(subscriptions) + [created.value],
                                          nextSubscriptionId := old(nextSubscriptionId) + 1)
    {
      if !IsBillingPeriod(billingPeriod) || LocateSubscription(subscriptions, thirdPartyId).Some? {
        return None;
      }
      var row := Subscription(nextSubscriptionId, name, thirdPartyId, amount, billingPeriod);
      subscriptions := subscriptions + [row];
      nextSubscriptionId := nextSubscriptionId + 1;
      created := Some(row);
    }

    /** `subscription.delete({ where: { id } })`; the store demands that the row exist. */
    method DeleteSubscription(id: int)
      requires Valid()
      requires exists k :: 0 <= k < |subscriptions| && subscriptions[k].id == id
      modifies this
      ensures Valid()
      ensures Snapshot() == old(Snapshot()).(subscriptions := RemoveById(old(subscriptions), id))
    {
      var k :| 0 <= k < |subscriptions| && subscriptions[k].id == id;
      DeleteKeepsWellFormed(Snapshot(), k);
      subscriptions := RemoveById(subscriptions, id);
    }

    /** `userSubscription.create`: a new binding with the next id. */
    method CreateUserSubscription(userId: int, subscriptionId: int, status: SubscriptionStatus, paymentMethodId: int, endAt: Date)
      returns (created: UserSubscription)
      requires Valid()
      modifies this
      ensures Valid()
      ensures created == UserSubscription(old(nextUserSubscriptionId), userId, subscriptionId, status, paymentMethodId, endAt)
      ensures Snapshot() == old(Snapshot()).(userSubscriptions := old(userSubscriptions) + [created],
                                             nextUserSubscriptionId := old(nextUserSubscriptionId) + 1)
    {
      created := UserSubscription(nextUserSubscriptionId, userId, subscriptionId, status, paymentMethodId, endAt);
      userSubscriptions := userSubscriptions + [created];
      nextUserSubscriptionId := nextUserSubscriptionId + 1;
    }

    /** `userSubscription.update({ where: { id }, data })`; the store demands that the row exist. */
    method UpdateUserSubscription(id: int, patch: UserSubscriptionPatch) returns (updated: UserSubscription)
      requires Valid()
      requires exists k :: 0 <= k < |userSubscriptions| && userSubscriptions[k].id == id
      modifies this
      ensures Valid()
      ensures exists k :: 0 <= k < |old(userSubscriptions)| && old(userSubscriptions)[k].id == id
                          && updated == ApplyPatch(old(userSubscriptions)[k], patch)
      ensures Snapshot() == old(Snapshot()).(userSubscriptions := UpdateById(old(userSubscriptions), id, patch))
    {
      var k :| 0 <= k < |userSubscriptions| && userSubscriptions[k].id == id;
      updated := ApplyPatch(userSubscriptions[k], patch);
      userSubscriptions := UpdateById(userSubscriptions, id, patch);
    }

    /** `paymentsHistory.create`: the ledger only ever grows at its end. */
    method CreatePaymentsHistory(entry: PaymentHistory)
      requires Valid()
      modifies this
      ensures Valid()
      ensures Snapshot() == old(Snapshot()).(paymentsHistory := old(paymentsHistory) + [entry])
    {
      paymentsHistory := paymentsHistory + [entry];
    }
  }
}
