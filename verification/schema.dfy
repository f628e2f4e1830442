/**
  The relational store the webhook core reads and writes: its rows, the webhook payload,
  and the lookups the services make (unique lookup by key, first match on a pair of
  columns, update and delete by primary key).
 */
module Schema {
  import opened Wrappers
  import opened Calendar

  /** Money is only copied from payload to plan and from plan to ledger. */
  type Amount = real

  datatype SubscriptionStatus = Active | Canceled | Expired

  datatype User = User(id: int, email: string, name: string)

  datatype PaymentMethod = PaymentMethod(id: int, userId: int, kind: string, cardNumber: string, expirationDate: Date)

  /** A catalog plan; `thirdPartyId` is the payment provider's identifier for it. */
  datatype Subscription = Subscription(id: int, name: string, thirdPartyId: string, amount: Amount, billingPeriod: string)

  /** The binding of one user to one plan. */
  datatype UserSubscription = UserSubscription(
    id: int, userId: int, subscriptionId: int, status: SubscriptionStatus, paymentMethodId: int, endAt: Date)

  /** One ledger entry; `oldStatus` is `None` on a first purchase. */
  datatype PaymentHistory = PaymentHistory(
    userId: int, subscriptionId: int, amount: Amount, currency: string, paymentDate: Date,
    oldStatus: Option<SubscriptionStatus>, newStatus: SubscriptionStatus)

  const Currency: string := "USD"

  /** The partial field set of a `userSubscription.update`. */
  datatype UserSubscriptionPatch = UserSubscriptionPatch(status: Option<SubscriptionStatus>, endAt: Option<Date>)

  function ApplyPatch(row: UserSubscription, patch: UserSubscriptionPatch): (r: UserSubscription)
    ensures r.id == row.id && r.userId == row.userId && r.subscriptionId == row.subscriptionId
    ensures r.paymentMethodId == row.paymentMethodId
    ensures patch.status.None? ==> r.status == row.status
    ensures patch.endAt.None? ==> r.endAt == row.endAt
    ensures patch.status.Some? ==> r.status == patch.status.value
    ensures patch.endAt.Some? ==> r.endAt == patch.endAt.value
  {
    row.(status := patch.status.GetOr(row.status), endAt := patch.endAt.GetOr(row.endAt))
  }

  datatype WebhookType =
    | SubscriptionCreated
    | SubscriptionPurchaseSuccessful
    | SubscriptionRenewalSuccessful
    | SubscriptionRenewalFailed
    | SubscriptionCanceled
    | SubscriptionExpired
    | SubscriptionDeleted
    /** Any other type text; it stands for a name outside the seven above, which the parser would have mapped to them. */
    | Unrecognized(raw: string)

  datatype WebhookData = WebhookData(
    customerEmail: string, subscriptionId: string, paymentMethodId: Option<int>, amount: Amount, billingPeriod: string)

  datatype WebhookEvent = WebhookEvent(kind: WebhookType, data: WebhookData)

  /** The whole store as one value; ids come from per-table autoincrement counters. */
  datatype Tables = Tables(
    users: map<string, User>,
    paymentMethods: map<int, PaymentMethod>,
    subscriptions: seq<Subscription>,
    nextSubscriptionId: int,
    userSubscriptions: seq<UserSubscription>,
    nextUserSubscriptionId: int,
    paymentsHistory: seq<PaymentHistory>)

  ghost predicate UniquePlans(rows: seq<Subscription>) {
    forall i, j :: 0 <= i < j < |rows| ==> rows[i].id != rows[j].id && rows[i].thirdPartyId != rows[j].thirdPartyId
  }

  ghost predicate UniqueBindings(rows: seq<UserSubscription>) {
    forall i, j :: 0 <= i < j < |rows| ==> rows[i].id != rows[j].id
  }

  /** The constraints the database schema keeps: unique keys and ids below their counters. */
  ghost predicate WellFormed(t: Tables) {
    && (forall e :: e in t.users ==> t.users[e].email == e)
    && (forall k :: k in t.paymentMethods ==> t.paymentMethods[k].id == k)
    && UniquePlans(t.subscriptions)
    && (forall i :: 0 <= i < |t.subscriptions| ==> t.subscriptions[i].id < t.nextSubscriptionId)
    && UniqueBindings(t.userSubscriptions)
    && (forall i :: 0 <= i < |t.userSubscriptions| ==> t.userSubscriptions[i].id < t.nextUserSubscriptionId)
  }

  /** `user.findUnique({ where: { email } })`. */
  function FindUserByEmail(users: map<string, User>, email: string): (r: Option<User>)
    ensures r.Some? <==> email in users
    ensures r.Some? ==> r.value == users[email]
  {
    if email in users then Some(users[email]) else None
  }

  /** `paymentsMethod.findUnique({ where: { id } })`. */
  function FindPaymentMethod(paymentMethods: map<int, PaymentMethod>, id: int): (r: Option<PaymentMethod>)
    ensures r.Some? <==> id in paymentMethods
    ensures r.Some? ==> r.value == paymentMethods[id]
  {
    if id in paymentMethods then Some(paymentMethods[id]) else None
  }

  /**
    `subscription.findUnique({ where: { thirdPartyId } })`, as the position of the row:
    the first row with that external id, or `None` when no row has it.
   */
  function LocateSubscription(rows: seq<Subscription>, thirdPartyId: string): (r: Option<nat>)
    ensures r.Some? ==> r.value < |rows| && rows[r.value].thirdPartyId == thirdPartyId
    ensures r.Some? ==> forall j :: 0 <= j < r.value ==> rows[j].thirdPartyId != thirdPartyId
    ensures r.None? <==> forall j :: 0 <= j < |rows| ==> rows[j].thirdPartyId != thirdPartyId
  {
    if rows == [] then None
    else if rows[0].thirdPartyId == thirdPartyId then Some(0)
    else match LocateSubscription(rows[1..], thirdPartyId)
      case None => None
      case Some(i) => Some(i + 1)
  }

  /**
    `userSubscription.findFirst({ where: { userId, subscriptionId } })`: the position of
    the first binding of that user to that plan, or `None`. The query has no `orderBy`;
    the model resolves it to the earliest stored row, an order the database does not promise.
   */
  function LocateUserSubscription(rows: seq<UserSubscription>, userId: int, subscriptionId: int): (r: Option<nat>)
    ensures r.Some? ==> r.value < |rows| && rows[r.value].userId == userId && rows[r.value].subscriptionId == subscriptionId
    ensures r.Some? ==> forall j :: 0 <= j < r.value ==> !(rows[j].userId == userId && rows[j].subscriptionId == subscriptionId)
    ensures r.None? <==> forall j :: 0 <= j < |rows| ==> !(rows[j].userId == userId && rows[j].subscriptionId == subscriptionId)
  {
    if rows == [] then None
    else if rows[0].userId == userId && rows[0].subscriptionId == subscriptionId then Some(0)
    else match LocateUserSubscription(rows[1..], userId, subscriptionId)
      case None => None
      case Some(i) => Some(i + 1)
  }

  /** `getSubscription`: the plan with that external id, or `None`. */
  function FindSubscription(rows: seq<Subscription>, thirdPartyId: string): (r: Option<Subscription>)
    ensures r.Some? ==> r.value in rows && r.value.thirdPartyId == thirdPartyId
    ensures r.None? <==> forall s :: s in rows ==> s.thirdPartyId != thirdPartyId
  {
    match LocateSubscription(rows, thirdPartyId)
    case None => None
    case Some(i) => Some(rows[i])
  }

  /** `getUserSubscription`: the first binding of that user to that plan, or `None`. */
  function FindUserSubscription(rows: seq<UserSubscription>, userId: int, subscriptionId: int): (r: Option<UserSubscription>)
    ensures r.Some? ==> r.value in rows && r.value.userId == userId && r.value.subscriptionId == subscriptionId
    ensures r.None? <==> forall u :: u in rows ==> !(u.userId == userId && u.subscriptionId == subscriptionId)
  {
    match LocateUserSubscription(rows, userId, subscriptionId)
    case None => None
    case Some(i) => Some(rows[i])
  }

  /** A row appended after an earlier match does not change what a first-match lookup finds. */
  lemma LocateUserSubscriptionAppend(rows: seq<UserSubscription>, row: UserSubscription, userId: int, subscriptionId: int)
    ensures LocateUserSubscription(rows + [row], userId, subscriptionId) ==
      if LocateUserSubscription(rows, userId, subscriptionId).Some? then LocateUserSubscription(rows, userId, subscriptionId)
      else if row.userId == userId && row.subscriptionId == subscriptionId then Some(|rows|)
      else None
  {
    assert forall j :: 0 <= j < |rows| ==> (rows + [row])[j] == rows[j];
    assert (rows + [row])[|rows|] == row;
  }

  /** Rewriting a binding without touching its user or plan does not change what a first-match lookup finds. */
  lemma LocateUserSubscriptionUpdate(rows: seq<UserSubscription>, b: nat, row: UserSubscription, userId: int, subscriptionId: int)
    requires b < |rows| && row.userId == rows[b].userId && row.subscriptionId == rows[b].subscriptionId
    ensures LocateUserSubscription(rows[b := row], userId, subscriptionId) == LocateUserSubscription(rows, userId, subscriptionId)
  {
    var before := LocateUserSubscription(rows, userId, subscriptionId);
    var after := LocateUserSubscription(rows[b := row], userId, subscriptionId);
    assert forall j :: 0 <= j < |rows| ==>
      (rows[b := row][j].userId == userId && rows[b := row][j].subscriptionId == subscriptionId <==>
       rows[j].userId == userId && rows[j].subscriptionId == subscriptionId);
    if before.Some? && after.Some? {
      if before.value < after.value {
        assert false;
      } else if after.value < before.value {
        assert false;
      }
    }
  }

  lemma LocateSubscriptionAppend(rows: seq<Subscription>, row: Subscription, thirdPartyId: string)
    requires LocateSubscription(rows, thirdPartyId).None? && row.thirdPartyId == thirdPartyId
    ensures LocateSubscription(rows + [row], thirdPartyId) == Some(|rows|)
  {
    assert forall j :: 0 <= j < |rows| ==> (rows + [row])[j] == rows[j];
    assert (rows + [row])[|rows|] == row;
  }

  /** `subscription.delete({ where: { id } })`: every row with that id goes, the rest keep their order. */
  function RemoveById(rows: seq<Subscription>, id: int): (r: seq<Subscription>)
    ensures forall s :: s in r <==> s in rows && s.id != id
    ensures |r| <= |rows|
  {
    if rows == [] then []
    else if rows[0].id == id then RemoveById(rows[1..], id)
    else [rows[0]] + RemoveById(rows[1..], id)
  }

  lemma {:induction false} RemoveAbsentId(rows: seq<Subscription>, id: int)
    requires forall j :: 0 <= j < |rows| ==> rows[j].id != id
    ensures RemoveById(rows, id) == rows
  {
    if rows != [] {
      RemoveAbsentId(rows[1..], id);
    }
  }

  lemma UniquePlansTail(rows: seq<Subscription>)
    requires UniquePlans(rows) && rows != []
    ensures UniquePlans(rows[1..])
  {
    var tail := rows[1..];
    forall a, b | 0 <= a < b < |tail| ensures tail[a].id != tail[b].id && tail[a].thirdPartyId != tail[b].thirdPartyId {
      assert tail[a] == rows[a + 1] && tail[b] == rows[b + 1];
    }
  }

  /** With unique ids, deleting by the id of row `i` removes exactly that row. */
  lemma {:induction false} RemoveFoundRow(rows: seq<Subscription>, i: nat)
    requires UniquePlans(rows) && i < |rows|
    ensures RemoveById(rows, rows[i].id) == rows[..i] + rows[i + 1..]
  {
    var id := rows[i].id;
    var tail := rows[1..];
    if i == 0 {
      assert forall j :: 0 <= j < |tail| ==> tail[j] == rows[j + 1];
      RemoveAbsentId(tail, id);
    } else {
      UniquePlansTail(rows);
      assert tail[i - 1] == rows[i];
      RemoveFoundRow(tail, i - 1);
      RemoveKeptHead(rows, id);
      assert tail[..i - 1] == rows[1..i];
      assert tail[i..] == rows[i + 1..];
      assert [rows[0]] + rows[1..i] == rows[..i];
    }
  }

  lemma RemoveKeptHead(rows: seq<Subscription>, id: int)
    requires rows != [] && rows[0].id != id
    ensures RemoveById(rows, id) == [rows[0]] + RemoveById(rows[1..], id)
  {
  }

  /** Taking row `k` out keeps every other row and adds none. */
  lemma SliceOut(rows: seq<Subscription>, k: nat)
    requires k < |rows|
    ensures |rows[..k] + rows[k + 1..]| == |rows| - 1
    ensures forall j :: 0 <= j < |rows| && j != k ==> rows[j] in rows[..k] + rows[k + 1..]
    ensures forall s :: s in rows[..k] + rows[k + 1..] ==> s in rows
  {
    var r := rows[..k] + rows[k + 1..];
    forall j | 0 <= j < |rows| && j != k ensures rows[j] in r {
      if j < k { assert r[j] == rows[j]; } else { assert r[j - 1] == rows[j]; }
    }
  }

  /** With unique keys, taking row `k` out keeps the keys unique and leaves row `k`'s external id unused. */
  lemma SliceOutUnique(rows: seq<Subscription>, k: nat)
    requires k < |rows|
    ensures UniquePlans(rows) ==> UniquePlans(rows[..k] + rows[k + 1..])
    ensures UniquePlans(rows) ==> forall s :: s in rows[..k] + rows[k + 1..] ==> s.thirdPartyId != rows[k].thirdPartyId
  {
    var r := rows[..k] + rows[k + 1..];
    forall j | 0 <= j < |r| ensures r[j] == rows[if j < k then j else j + 1] {
    }
  }

  /** Deleting a stored plan by its id keeps the schema's key constraints. */
  lemma DeleteKeepsWellFormed(t: Tables, k: nat)
    requires WellFormed(t) && k < |t.subscriptions|
    ensures WellFormed(t.(subscriptions := RemoveById(t.subscriptions, t.subscriptions[k].id)))
  {
    var rows := t.subscriptions;
    RemoveFoundRow(rows, k);
    SliceOutUnique(rows, k);
    var r := rows[..k] + rows[k + 1..];
    forall i | 0 <= i < |r| ensures r[i].id < t.nextSubscriptionId {
      assert r[i] == rows[if i < k then i else i + 1];
    }
  }

  /** `userSubscription.update({ where: { id }, data })`. */
  function UpdateById(rows: seq<UserSubscription>, id: int, patch: UserSubscriptionPatch): (r: seq<UserSubscription>)
    ensures |r| == |rows|
  {
    seq(|rows|, k requires 0 <= k < |rows| => if rows[k].id == id then ApplyPatch(rows[k], patch) else rows[k])
  }

  /** With unique ids, updating by the id of row `i` changes exactly that row. */
  lemma UpdateFoundRow(rows: seq<UserSubscription>, i: nat, patch: UserSubscriptionPatch)
    requires UniqueBindings(rows) && i < |rows|
    ensures UpdateById(rows, rows[i].id, patch) == rows[i := ApplyPatch(rows[i], patch)]
  {
  }
}
