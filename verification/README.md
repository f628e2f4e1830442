# Subscription webhooks: a Dafny model

The payment provider posts webhook events to the payments module of a NestJS service.
Each event has a type and a payload: customer e-mail, the provider's subscription id,
an optional payment method id, an amount and a billing period. The module first looks
the customer up by e-mail. Then, depending on the type, it does one of two things:

- It creates or deletes a catalog plan (`Subscription`, unique by its external
  `thirdPartyId`, with a billing period of MONTHLY or YEARLY).
- It moves the customer's binding to a plan (`UserSubscription`: status ACTIVE, CANCELED
  or EXPIRED, plus an end date) through purchase, renewal, cancellation or expiry. Each
  such move appends an entry to the `PaymentsHistory` ledger.

The repository holds two implementations of this handler:

- the split services under `src/modules/payments/services/`;
- the older single class `src/modules/payments/payments.service.ts`.

The model is layered as follows.

- `Calendar`: dates as (year, month, day) triples.
  - `MakeDay` is the day-number carry of ECMA-262, section 21.4.1. It is proved equal to
    stepping one day at a time.
  - On top of it sit `setMonth(getMonth() + 1)` (`AddOneMonth`: 31 January goes to
    3 March, or to 2 March in a leap year) and `setFullYear(getFullYear() + 1)`
    (`AddOneYear`: 29 February goes to 1 March).
- `BillingPeriods`: the two values of the `BillingPeriod` column, the ASCII upper-casing
  of the payload's billing period and `calculateEndAt`. The
  single class's copy of `calculateEndAt` (payments.service.ts:299-310) is identical and
  shares this one function.
- `Schema`: rows, the webhook payload, and the store's lookups and writes as functions. It
  also gives the constraints the database keeps: unique ids, unique `thirdPartyId`, and
  ids below their autoincrement counters.
- `Store`: the database as a class.
  - Users and payment methods are read-only tables.
  - Plans, bindings and the ledger are sequence fields.
  - Each store call is one method, and its contract states the whole new state.
- `Transitions`: the reference semantics.
  - It gives what one delivery writes, as a function of the store before it (`Step`).
  - It gives how the delivery ends in each implementation (`WebhookOutcome`): `Handled`,
    `Dropped` (a logged early return) or `Threw` (a fault raised before any write).
- `SubscriptionsService`, `PaymentsHistoryService`, `UserSubscriptionsService` and
  `PaymentsService` are the split implementation. `LegacyPaymentsService` is the single
  class.
  - Each method is proved to leave the store exactly as the reference function says.
  - Each method is proved to return the outcome its implementation has.
- `WebhookLaws`: properties relating several deliveries, or the two implementations.

The two implementations write the same tables for every event. They end differently in
three situations:

- The split renew, cancel and expire read `subscription.id` before checking the plan for
  null, so an unknown plan throws there. In the single class it returns quietly.
- The single class reads `paymentMethod.id` without a check, so an unknown payment method
  throws. The split version returns quietly.
- A payload without a payment method id makes the payment-method lookup fail.
  - The split version runs that lookup before it checks the plan, so it fails whatever the
    plan lookup found.
  - The single class returns quietly for an unknown plan before it gets there.

The current time is a parameter (`now`) of every operation that stamps a date.

## Model

| member | source | states |
|---|---|---|
| `Calendar.MakeDay` | src/modules/payments/services/user-subscriptions.service.ts:221-225 | A day number past the end of the month carries into the following months; equals counting `day - 1` days from the first of the month |
| `Calendar.AddOneMonth` | src/modules/payments/services/user-subscriptions.service.ts:221-222 | Strictly later; same day of the next month exactly when that month has the day; otherwise the excess days spill into the month after |
| `Calendar.AddOneYear` | src/modules/payments/services/user-subscriptions.service.ts:223-224 | Strictly later; same month and day one year on, except 29 February, which becomes 1 March |
| `BillingPeriods.ToUpper` | src/modules/payments/services/subscription.service.ts:21 | Same length; every lower-case ASCII letter upper-cased, every other character kept |
| `BillingPeriods.ToUpperIdempotent` | src/modules/payments/services/subscription.service.ts:21 | Upper-casing a stored billing period again changes nothing |
| `BillingPeriods.ToUpperFixesUpper` | src/modules/payments/services/subscription.service.ts:21 | A text is unchanged by upper-casing exactly when it has no lower-case letter |
| `BillingPeriods.CalculateEndAt` | src/modules/payments/services/user-subscriptions.service.ts:216-227 | Starts from the previous end if given, else now; strictly later exactly for MONTHLY and YEARLY; any other period returns the start unchanged; the month and year cases land on the same day where it exists |
| `BillingPeriods.RenewalEndIgnoresClock` | src/modules/payments/services/user-subscriptions.service.ts:65-68 | With a previous end given, the new end does not depend on the current time |
| `BillingPeriods.EndAtExamples` | src/modules/payments/services/user-subscriptions.service.ts:216-227 | 15 Jan to 15 Feb; 31 Jan 2023 to 3 Mar; 31 Jan 2024 to 2 Mar; 31 Dec 2024 to 31 Jan 2025; yearly 29 Feb 2024 to 1 Mar 2025 |
| `Schema.ApplyPatch` | src/modules/payments/services/user-subscriptions.service.ts:204-214 | A partial update sets every field the patch carries to the patch's value, keeps every field it leaves out, and never changes ids, user, plan or payment method |
| `Schema.FindUserByEmail` | src/modules/users/users.service.ts:8-12 | The user stored under that e-mail, or nothing when there is none |
| `Schema.FindPaymentMethod` | src/modules/payments/services/user-subscriptions.service.ts:153-166 | The payment method with that id, or nothing when there is none |
| `Schema.LocateSubscription` | src/modules/payments/services/subscription.service.ts:45-51 | Position of the first plan with that external id; none exactly when no plan has it |
| `Schema.FindSubscription` | src/modules/payments/services/subscription.service.ts:45-51 | A stored plan carrying that external id, or nothing exactly when no plan has it |
| `Schema.LocateUserSubscription` | src/modules/payments/services/user-subscriptions.service.ts:168-185 | Position of the earliest stored binding of that user to that plan (the chosen resolution of an unordered `findFirst`); none exactly when there is no such binding |
| `Schema.FindUserSubscription` | src/modules/payments/services/user-subscriptions.service.ts:168-185 | A stored binding of that user to that plan, or nothing exactly when there is none |
| `Schema.LocateUserSubscriptionAppend` | src/modules/payments/services/user-subscriptions.service.ts:168-201 | Under the earliest-stored-row lookup, a binding created later never shadows an earlier match, and is found only when nothing earlier matched |
| `Schema.LocateUserSubscriptionUpdate` | src/modules/payments/services/user-subscriptions.service.ts:168-214 | Under the earliest-stored-row lookup, updating a binding's status or end does not change which binding is found |
| `Schema.RemoveById` | src/modules/payments/services/subscription.service.ts:36-40 | Keeps exactly the plans whose id differs from the deleted one |
| `Schema.RemoveFoundRow` | src/modules/payments/services/subscription.service.ts:36-40 | With unique ids, deleting by a stored plan's id removes exactly that row and keeps the others in order |
| `Schema.DeleteKeepsWellFormed` | src/modules/payments/services/subscription.service.ts:36-40 | Deleting a stored plan by its id keeps ids and external ids unique and below the counter |
| `Schema.UpdateById` | src/modules/payments/services/user-subscriptions.service.ts:204-214 | An update by id leaves the number of bindings unchanged |
| `Schema.UpdateFoundRow` | src/modules/payments/services/user-subscriptions.service.ts:204-214 | With unique ids, updating by a stored binding's id patches exactly that row |
| `Store.Database.CreateSubscription` | src/modules/payments/services/subscription.service.ts:16-23 | Appends the plan under the next id; writes nothing and returns no row when the period is not MONTHLY or YEARLY or the unique index already holds the external id; keeps the key constraints |
| `Store.Database.DeleteSubscription` | src/modules/payments/services/subscription.service.ts:36-40 | Removes the plan with that id and nothing else; keeps the key constraints |
| `Store.Database.CreateUserSubscription` | src/modules/payments/services/user-subscriptions.service.ts:187-202 | Appends the binding under the next id; nothing else changes |
| `Store.Database.UpdateUserSubscription` | src/modules/payments/services/user-subscriptions.service.ts:204-214 | Patches the binding with that id, returns it as stored, nothing else changes |
| `Store.Database.CreatePaymentsHistory` | src/modules/payments/services/payments-history.service.ts:31-41 | Appends one ledger entry; every other table and every earlier entry stays as it was |
| `Transitions.CreatePlan` | src/modules/payments/services/subscription.service.ts:11-26 | A fresh external id whose upper-cased period is MONTHLY or YEARLY gets one new plan (raw period in the name, upper-cased period stored) that the lookup then finds; any other period or a taken id writes nothing; nothing else changes |
| `Transitions.DeletePlan` | src/modules/payments/services/subscription.service.ts:28-43 | Unknown id: no change. Known id: exactly one plan fewer, every plan with another external id kept, none added, and the id no longer found |
| `Transitions.Purchase` | src/modules/payments/services/user-subscriptions.service.ts:19-49 | Without the plan or the payment method nothing is written; otherwise one ACTIVE binding (user, plan id, payment method, end one period from now) appended; the binding lookup then finds a binding for the pair, and the new one when the user held none before; one ledger entry from no status to ACTIVE for the plan's amount |
| `Transitions.Resolve` | src/modules/payments/services/user-subscriptions.service.ts:55-63 | Finds the plan and then the user's first binding to it; nothing exactly when either lookup fails |
| `Transitions.Renew` | src/modules/payments/services/user-subscriptions.service.ts:51-79 | Only the found binding's end changes, to one period past its previous end; status kept; ledger gains previous status to ACTIVE; no binding, no write |
| `Transitions.Cancel` | src/modules/payments/services/user-subscriptions.service.ts:81-107 | Only the found binding changes, to CANCELED ending now; ledger gains previous status to CANCELED; no binding, no write |
| `Transitions.Expire` | src/modules/payments/services/user-subscriptions.service.ts:109-139 | Only the found binding's status changes, to EXPIRED, its end kept; ledger gains previous status to EXPIRED; no binding, no write |
| `Transitions.Transition` | src/modules/payments/services/user-subscriptions.service.ts:70-78 | Rewriting one binding under its own id and appending an entry keeps the key constraints |
| `Transitions.Step` | src/modules/payments/services/payments.service.ts:18-79 | Unknown customer or unknown type: no change; users and payment methods never written; the ledger only grows, and only for user-level events; the key constraints are kept |
| `Transitions.PurchaseOutcome` | src/modules/payments/services/user-subscriptions.service.ts:24-29 | Handled exactly when the plan and the payment method are both found (`Purchasable`, when `Purchase` writes); every other ending names a lookup that failed; the split version throws exactly for a missing payment method id and never dereferences a missing payment method; the single class returns quietly exactly for an unknown plan |
| `Transitions.LifecycleOutcome` | src/modules/payments/services/user-subscriptions.service.ts:55-63 | Handled exactly when `Resolve` finds the binding; an unknown plan throws in the split version and returns quietly in the single class; a known plan without the user's binding returns quietly in both |
| `Transitions.CreateOutcome` | src/modules/payments/services/subscription.service.ts:16-23 | Handled exactly when `CreatePlan` inserts; a period other than MONTHLY or YEARLY throws the enum rejection, whatever the catalog holds; otherwise a taken external id throws the unique-index rejection |
| `Transitions.DeleteOutcome` | src/modules/payments/services/subscription.service.ts:28-34 | Handled exactly when the external id is in the catalog; otherwise a quiet return |
| `Transitions.WebhookOutcome` | src/modules/payments/services/payments.service.ts:18-79 | An unknown customer e-mail returns quietly, and nothing else ends that way; an unknown event type for a known customer is the only unhandled-type ending |
| `WebhookLaws.HandledIffWrites` | src/modules/payments/services/payments.service.ts:18-79 | In either implementation a delivery changes the store exactly when it is handled |
| `WebhookLaws.VersionsAgreeOnHandled` | src/modules/payments/payments.service.ts:19-60 | Both implementations handle exactly the same deliveries |
| `WebhookLaws.VersionsDifferOnUnknownPlan` | src/modules/payments/services/user-subscriptions.service.ts:55-63 | Renew, cancel or expire of an unknown plan throws in the split services and returns quietly in the single class |
| `WebhookLaws.VersionsDifferOnUnknownPaymentMethod` | src/modules/payments/payments.service.ts:84-109 | Purchase with an unknown payment method returns quietly in the split services and throws in the single class |
| `WebhookLaws.LedgerEntryPerTransition` | src/modules/payments/services/payments-history.service.ts:16-42 | Exactly one entry per handled user-level delivery, none otherwise; it names the customer, the plan's internal id, USD and now |
| `WebhookLaws.RenewalFailedIsExpiry` | src/modules/payments/services/payments.service.ts:58-75 | RENEWAL_FAILED and EXPIRED write the same and end the same |
| `WebhookLaws.CreateThenDelete` | src/modules/payments/services/subscription.service.ts:11-43 | Creating a plan under a fresh id with a MONTHLY or YEARLY period and deleting it restores the catalog; only the id counter moves |
| `WebhookLaws.RepeatPurchaseKeepsFirstBinding` | src/modules/payments/services/user-subscriptions.service.ts:168-201 | Under the earliest-stored-row lookup, after a second purchase of a held plan renew, cancel and expire still find the first binding |
| `WebhookLaws.RenewAfterCancelStaysCanceled` | src/modules/payments/services/user-subscriptions.service.ts:65-106 | Under the earliest-stored-row lookup (so renew finds the binding cancel changed), renewing a canceled binding leaves it CANCELED, extends it past the cancellation exactly for MONTHLY and YEARLY plans, and logs CANCELED to ACTIVE |
| `WebhookLaws.ReplayKeepsLedger` | src/modules/payments/services/payments-history.service.ts:31-41 | Over any sequence of deliveries users and payment methods never change, earlier ledger entries are kept, and the key constraints hold |
| `SubscriptionsService.CreateSubscription` | src/modules/payments/services/subscription.service.ts:11-26 | Writes what `CreatePlan` says and ends as `CreateOutcome` says: throws on a period outside the enum or a taken external id |
| `SubscriptionsService.DeleteSubscription` | src/modules/payments/services/subscription.service.ts:28-43 | Writes what `DeletePlan` says; returns quietly for an unknown id |
| `PaymentsHistoryService.CreatePaymentHistory` | src/modules/payments/services/payments-history.service.ts:16-42 | Records exactly when the plan exists: one entry with the plan's internal id, USD, now and the given amount and statuses; otherwise no write |
| `UserSubscriptionsService.PurchaseSubscription` | src/modules/payments/services/user-subscriptions.service.ts:19-49 | Writes what `Purchase` says; a missing payment method id throws before the plan is checked |
| `UserSubscriptionsService.RenewSubscription` | src/modules/payments/services/user-subscriptions.service.ts:51-79 | Writes what `Renew` says; an unknown plan throws, a missing binding returns quietly |
| `UserSubscriptionsService.CancelSubscription` | src/modules/payments/services/user-subscriptions.service.ts:81-107 | Writes what `Cancel` says; an unknown plan throws, a missing binding returns quietly |
| `UserSubscriptionsService.ExpireSubscription` | src/modules/payments/services/user-subscriptions.service.ts:109-139 | Writes what `Expire` says and returns the stored EXPIRED binding with its end unchanged, exactly when handled |
| `PaymentsService.HandleWebhook` | src/modules/payments/services/payments.service.ts:18-79 | Writes what `Step` says and ends as the split implementation does |
| `LegacyPaymentsService.HandleWebhook` | src/modules/payments/payments.service.ts:19-60 | Writes what `Step` says and ends as the single class does |
| `LegacyPaymentsService.CreateSubscription` | src/modules/payments/payments.service.ts:62-77 | Writes what `CreatePlan` says and ends as `CreateOutcome` says |
| `LegacyPaymentsService.PurchaseSubscription` | src/modules/payments/payments.service.ts:79-122 | Writes what `Purchase` says; an unknown plan returns quietly; a missing payment method throws before any write |
| `LegacyPaymentsService.RenewSubscription` | src/modules/payments/payments.service.ts:124-175 | Writes what `Renew` says; both missing lookups return quietly |
| `LegacyPaymentsService.CancelSubscription` | src/modules/payments/payments.service.ts:177-224 | Writes what `Cancel` says; both missing lookups return quietly |
| `LegacyPaymentsService.ExpireSubscription` | src/modules/payments/payments.service.ts:226-272 | Writes what `Expire` says; both missing lookups return quietly |
| `LegacyPaymentsService.DeleteSubscription` | src/modules/payments/payments.service.ts:274-289 | Writes what `DeletePlan` says; returns quietly for an unknown id |

## Left out

- `userSubscription.findFirst` has no `orderBy`, so the database promises no order among several bindings of one user to one plan. `Schema.LocateUserSubscription` resolves it to the earliest stored row. `Schema.LocateUserSubscriptionAppend`, `Schema.LocateUserSubscriptionUpdate`, `WebhookLaws.RepeatPurchaseKeepsFirstBinding` and `WebhookLaws.RenewAfterCancelStaysCanceled` are properties of that choice, not guarantees of the database when bindings are duplicated.
- Ids are abstract. The plan and binding counters move only on a successful insert; a real autoincrement sequence may also use up a value on an insert the unique index rejects, so stored ids may have gaps the model does not produce.
- The `Unrecognized` event type stands for a type text outside the seven known names. The model does not constrain `raw` to differ from them; a known name always arrives as its own constructor.
- Logging: every `logger` call is dropped. Logging never affects the store; a logged early return is the `Dropped` outcome.
- The time of day, time zones, daylight saving and milliseconds: dates are calendar days, and the clock is the `now` parameter.
- `Calendar.AddOneMonth`, `Calendar.AddOneYear`: `setMonth` and `setFullYear` also keep the time of day, which a calendar day does not carry.
- `BillingPeriods.ToUpper`: only ASCII letters are upper-cased; the full Unicode case mapping of `toUpperCase` is not modelled.
- Amounts are opaque reals that are only copied. `Prisma.Decimal` rounding and JavaScript number precision are not modelled.
- async/await, transactions and concurrent deliveries: deliveries are handled one at a time, each running to completion.
- Foreign keys are not modelled. Deleting a plan that still has bindings or ledger entries is modelled as the delete succeeding; the referential actions of the database schema are not part of this model.
- `Store.Database.DeleteSubscription`, `Store.Database.UpdateUserSubscription`: the store's failure on a missing row is a precondition. The services only call them with a row they have just found.
- The store's rejection of a billing period outside the `BillingPeriod` enum is the fault `InvalidBillingPeriod`, taken to come before the unique-index check; the text of the validation error is not modelled.
- A payment method id that is absent from the payload makes the unique lookup fail. This is modelled as a fault (`NoPaymentMethodId`) without modelling the store's validation error itself.
- The NestJS wiring, the HTTP controller, the DTO classes (used only as the shape of `WebhookEvent`) and the seed script.
- The users service is the lookup `Schema.FindUserByEmail`. The private `getSubscription`, `getPaymentMethod` and `getUserSubscription` helpers are `Schema.FindSubscription`, `Schema.FindPaymentMethod` and `Schema.FindUserSubscription`, called directly.
