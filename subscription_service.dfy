/** The subscription lifecycle of backend/app/services/subscription_service.py:
    trial creation, conversion, upgrade, cancellation, reactivation, the
    status checks, the payment-provider event handlers and the trial-expiry
    sweep, over the `subscriptions` (and, for the sweep, `pins`) tables.
    Calls to the payment provider are inputs: what they returned, or whether
    they raised. */
module SubscriptionService {
  import opened Common
  import opened SubscriptionModels
  import PinModels
  import opened Store

  const TrialDays: int := 7
  const TrialSeconds: int := TrialDays * SecondsPerDay

  /** The `ValueError`s the service raises (and the provider errors that
      propagate from it). */
  datatype SubscriptionError =
    | AlreadySubscribed
    | TrialPaymentFailed(paymentStatus: string)
    | StripeFailure
    | NoSubscription
    | NotActive
    | NoStripeSubscription
    | NotSetToCancel

  // ==================== Lookups ====================

  function FindByUser(rows: seq<Subscription>, userId: Uuid): (r: Option<Subscription>)
    ensures r.None? <==> forall k :: 0 <= k < |rows| ==> rows[k].userId != userId
    ensures r.Some? ==> r.value in rows && r.value.userId == userId
    ensures |rows| > 0 && rows[0].userId == userId ==> r == Some(rows[0])
  {
    var k := FirstMatch(rows, (s: Subscription) => s.userId == userId);
    if k < |rows| then Some(rows[k]) else None
  }

  function StripeCustomerIndex(rows: seq<Subscription>, customerId: string): (k: nat)
    ensures k <= |rows|
    ensures forall j :: 0 <= j < k ==> rows[j].stripeCustomerId != Some(customerId)
    ensures k < |rows| ==> rows[k].stripeCustomerId == Some(customerId)
  {
    FirstMatch(rows, (s: Subscription) => s.stripeCustomerId == Some(customerId))
  }

  function FindByStripeCustomer(rows: seq<Subscription>, customerId: string)
    : (r: Option<Subscription>)
    ensures r.None? <==> forall k :: 0 <= k < |rows| ==> rows[k].stripeCustomerId != Some(customerId)
    ensures r.Some? ==> r.value in rows && r.value.stripeCustomerId == Some(customerId)
  {
    var k := StripeCustomerIndex(rows, customerId);
    if k < |rows| then Some(rows[k]) else None
  }

  function StripeSubscriptionIndex(rows: seq<Subscription>, subscriptionId: string): (k: nat)
    ensures k <= |rows|
    ensures forall j :: 0 <= j < k ==> rows[j].stripeSubscriptionId != Some(subscriptionId)
    ensures k < |rows| ==> rows[k].stripeSubscriptionId == Some(subscriptionId)
  {
    FirstMatch(rows, (s: Subscription) => s.stripeSubscriptionId == Some(subscriptionId))
  }

  function FindByStripeSubscription(rows: seq<Subscription>, subscriptionId: string)
    : (r: Option<Subscription>)
    ensures r.None? <==> forall k :: 0 <= k < |rows| ==> rows[k].stripeSubscriptionId != Some(subscriptionId)
    ensures r.Some? ==> r.value in rows && r.value.stripeSubscriptionId == Some(subscriptionId)
  {
    var k := StripeSubscriptionIndex(rows, subscriptionId);
    if k < |rows| then Some(rows[k]) else None
  }

  // ==================== Updates ====================

  /** The dictionary passed to `.update(...)`: only the fields it names change. */
  datatype SubPatch = SubPatch(
    plan: Patch<Plan>,
    status: Patch<Status>,
    periodStart: Patch<int>,
    periodEnd: Patch<int>,
    trialEnd: Patch<Option<int>>,
    cancelAtPeriodEnd: Patch<bool>,
    canceledAt: Patch<Option<int>>)

  const NoSubChanges := SubPatch(Unset, Unset, Unset, Unset, Unset, Unset, Unset)

  function ApplySubPatch(s: Subscription, p: SubPatch): (r: Subscription)
    ensures r.id == s.id && r.userId == s.userId
    ensures r.stripeCustomerId == s.stripeCustomerId
    ensures r.stripeSubscriptionId == s.stripeSubscriptionId
    ensures p.periodStart.Unset? && p.periodEnd.Unset? ==>
              r.periodStart == s.periodStart && r.periodEnd == s.periodEnd
  {
    s.(plan := Patched(p.plan, s.plan),
       status := Patched(p.status, s.status),
       periodStart := Patched(p.periodStart, s.periodStart),
       periodEnd := Patched(p.periodEnd, s.periodEnd),
       trialEnd := Patched(p.trialEnd, s.trialEnd),
       cancelAtPeriodEnd := Patched(p.cancelAtPeriodEnd, s.cancelAtPeriodEnd),
       canceledAt := Patched(p.canceledAt, s.canceledAt))
  }

  /** `.update(p).eq("user_id", userId)`: every row of that user is patched. */
  function UpdateWhereUser(rows: seq<Subscription>, userId: Uuid, p: SubPatch)
    : (r: seq<Subscription>)
    ensures |r| == |rows|
    ensures forall k :: 0 <= k < |rows| ==>
              r[k] == if rows[k].userId == userId then ApplySubPatch(rows[k], p) else rows[k]
  {
    seq(|rows|, k requires 0 <= k < |rows| =>
      if rows[k].userId == userId then ApplySubPatch(rows[k], p) else rows[k])
  }

  /** `.update(p).eq("id", id)`. */
  function UpdateWhereId(rows: seq<Subscription>, id: Uuid, p: SubPatch)
    : (r: seq<Subscription>)
    ensures |r| == |rows|
    ensures forall k :: 0 <= k < |rows| ==>
              r[k] == if rows[k].id == id then ApplySubPatch(rows[k], p) else rows[k]
  {
    seq(|rows|, k requires 0 <= k < |rows| =>
      if rows[k].id == id then ApplySubPatch(rows[k], p) else rows[k])
  }

  // ==================== Table invariants ====================

  /** At most one subscription per user. */
  predicate OnePerUser(rows: seq<Subscription>)
  {
    forall i, j :: 0 <= i < j < |rows| ==> rows[i].userId != rows[j].userId
  }

  /** `current_period_end` is never before `current_period_start`. */
  predicate PeriodsOrdered(rows: seq<Subscription>)
  {
    forall k :: 0 <= k < |rows| ==> rows[k].periodStart <= rows[k].periodEnd
  }

  predicate FreshSubscriptionId(rows: seq<Subscription>, id: Uuid)
  {
    forall k :: 0 <= k < |rows| ==> rows[k].id != id
  }

  /** Patching rows never changes their keys, so the keys stay distinct, the
      users stay distinct, and a patch that leaves the period alone keeps the
      periods ordered. */
  lemma {:induction false} PatchKeepsInvariants(rows: seq<Subscription>, userId: Uuid, id: Uuid, p: SubPatch)
    ensures DistinctSubscriptionIds(rows) ==>
              DistinctSubscriptionIds(UpdateWhereUser(rows, userId, p))
              && DistinctSubscriptionIds(UpdateWhereId(rows, id, p))
    ensures OnePerUser(rows) ==>
              OnePerUser(UpdateWhereUser(rows, userId, p)) && OnePerUser(UpdateWhereId(rows, id, p))
    ensures PeriodsOrdered(rows) && p.periodStart.Unset? && p.periodEnd.Unset? ==>
              PeriodsOrdered(UpdateWhereUser(rows, userId, p)) && PeriodsOrdered(UpdateWhereId(rows, id, p))
  {
    var byUser, byId := UpdateWhereUser(rows, userId, p), UpdateWhereId(rows, id, p);
    assert forall k :: 0 <= k < |rows| ==>
      byUser[k].id == rows[k].id && byId[k].id == rows[k].id
      && byUser[k].userId == rows[k].userId && byId[k].userId == rows[k].userId;
  }

  /** Adding the first subscription of a user keeps one subscription per user. */
  lemma {:induction false} InsertKeepsOnePerUser(rows: seq<Subscription>, row: Subscription)
    requires OnePerUser(rows) && FindByUser(rows, row.userId).None?
    ensures OnePerUser(rows + [row])
  {
    var all := rows + [row];
    forall i, j | 0 <= i < j < |all| ensures all[i].userId != all[j].userId {
      if j == |rows| {
        assert all[i] == rows[i];
      } else {
        assert all[i] == rows[i] && all[j] == rows[j];
      }
    }
  }

  // ==================== Trial flow ====================

  /** The row a trial start inserts: a trial plan, active, whose billing period
      and trial both end `TRIAL_DAYS` after `now`. */
  function NewTrialRow(
    id: Uuid, userId: Uuid, customerId: Option<string>, subscriptionId: Option<string>,
    paymentMethodId: Option<string>, now: int)
    : (r: Subscription)
    ensures r.id == id && r.userId == userId
    ensures r.plan == Trial && r.status == Active
    ensures r.periodStart == now && r.periodEnd == now + 7 * 86400
    ensures r.trialEnd == Some(r.periodEnd) && r.periodStart <= r.periodEnd
    ensures !r.cancelAtPeriodEnd && r.canceledAt.None?
  {
    Subscription(id, userId, Trial, Active, customerId, subscriptionId, paymentMethodId,
                 now, now + TrialSeconds, Some(now + TrialSeconds), false, None)
  }

  /** What the trial fee charge did: raised a provider error, or returned a
      payment intent with this status. */
  datatype TrialPayment = PaymentRaised | PaymentReturned(status: string)

  /** `start_trial`.  The customer id and the provider subscription id are what
      the provider returned (`None` for the subscription: the call raised). */
  method StartTrial(
    db: Database, userId: Uuid, customerId: string, paymentMethodId: string,
    payment: TrialPayment, providerSubscription: Option<string>, now: int, newId: Uuid)
    returns (r: Result<Subscription, SubscriptionError>)
    requires db.Valid() && FreshSubscriptionId(db.subscriptions, newId)
    modifies db`subscriptions
    ensures db.Valid()
    ensures FindByUser(old(db.subscriptions), userId).Some? ==> r == Err(AlreadySubscribed)
    ensures r.Ok? <==> FindByUser(old(db.subscriptions), userId).None?
                       && payment == PaymentReturned("succeeded") && providerSubscription.Some?
    ensures r.Ok? ==>
              r.value == NewTrialRow(newId, userId, Some(customerId), providerSubscription,
                                     Some(paymentMethodId), now)
              && db.subscriptions == old(db.subscriptions) + [r.value]
    ensures r.Err? ==> db.subscriptions == old(db.subscriptions)
    ensures OnePerUser(old(db.subscriptions)) ==> OnePerUser(db.subscriptions)
    ensures PeriodsOrdered(old(db.subscriptions)) ==> PeriodsOrdered(db.subscriptions)
  {
    if FindByUser(db.subscriptions, userId).Some? {
      return Err(AlreadySubscribed);
    }
    match payment {
      case PaymentRaised =>
        return Err(StripeFailure);
      case PaymentReturned(status) =>
        if status != "succeeded" {
          return Err(TrialPaymentFailed(status));
        }
    }
    if providerSubscription.None? {
      return Err(StripeFailure);
    }
    var row := NewTrialRow(newId, userId, Some(customerId), providerSubscription,
                           Some(paymentMethodId), now);
    InsertRow(db, row);
    r := Ok(row);
  }

  /** `start_demo_trial`: the same row without any provider reference. */
  method StartDemoTrial(db: Database, userId: Uuid, now: int, newId: Uuid)
    returns (r: Result<Subscription, SubscriptionError>)
    requires db.Valid() && FreshSubscriptionId(db.subscriptions, newId)
    modifies db`subscriptions
    ensures db.Valid()
    ensures r.Ok? <==> FindByUser(old(db.subscriptions), userId).None?
    ensures r.Err? ==> r.error == AlreadySubscribed && db.subscriptions == old(db.subscriptions)
    ensures r.Ok? ==>
              r.value == NewTrialRow(newId, userId, None, None, None, now)
              && db.subscriptions == old(db.subscriptions) + [r.value]
    ensures OnePerUser(old(db.subscriptions)) ==> OnePerUser(db.subscriptions)
    ensures PeriodsOrdered(old(db.subscriptions)) ==> PeriodsOrdered(db.subscriptions)
  {
    if FindByUser(db.subscriptions, userId).Some? {
      return Err(AlreadySubscribed);
    }
    var row := NewTrialRow(newId, userId, None, None, None, now);
    InsertRow(db, row);
    r := Ok(row);
  }

  /** `.insert(row)` of a new user's first subscription. */
  method InsertRow(db: Database, row: Subscription)
    requires db.Valid() && FreshSubscriptionId(db.subscriptions, row.id)
    requires FindByUser(db.subscriptions, row.userId).None? && row.periodStart <= row.periodEnd
    modifies db`subscriptions
    ensures db.Valid()
    ensures db.subscriptions == old(db.subscriptions) + [row]
    ensures OnePerUser(old(db.subscriptions)) ==> OnePerUser(db.subscriptions)
    ensures PeriodsOrdered(old(db.subscriptions)) ==> PeriodsOrdered(db.subscriptions)
  {
    if OnePerUser(db.subscriptions) {
      InsertKeepsOnePerUser(db.subscriptions, row);
    }
    db.subscriptions := db.subscriptions + [row];
  }

  // ==================== Conversion, upgrade, cancellation ====================

  /** A subscription whose listings count as live: "active" or "past_due". */
  predicate IsLiveStatus(s: Status)
  {
    s == Active || s == PastDue
  }

  /** `.update(p).eq("user_id", userId)` on the live table, returning
      `response.data[0]`: the first row of that user, patched. */
  method UpdateUser(db: Database, userId: Uuid, p: SubPatch) returns (updated: Subscription)
    requires db.Valid() && FindByUser(db.subscriptions, userId).Some?
    modifies db`subscriptions
    ensures db.Valid()
    ensures db.subscriptions == UpdateWhereUser(old(db.subscriptions), userId, p)
    ensures updated == ApplySubPatch(FindByUser(old(db.subscriptions), userId).value, p)
    ensures OnePerUser(old(db.subscriptions)) ==> OnePerUser(db.subscriptions)
    ensures PeriodsOrdered(old(db.subscriptions)) && p.periodStart.Unset? && p.periodEnd.Unset? ==>
              PeriodsOrdered(db.subscriptions)
  {
    PatchKeepsInvariants(db.subscriptions, userId, userId, p);
    updated := ApplySubPatch(FindByUser(db.subscriptions, userId).value, p);
    db.subscriptions := UpdateWhereUser(db.subscriptions, userId, p);
  }

  /** `convert_trial_to_paid`: accepted for an "active" or a "past_due"
      subscription; sets the plan and clears `trial_end`, nothing else. */
  method ConvertTrialToPaid(db: Database, userId: Uuid, plan: Plan)
    returns (r: Result<Subscription, SubscriptionError>)
    requires db.Valid()
    modifies db`subscriptions
    ensures db.Valid()
    ensures FindByUser(old(db.subscriptions), userId).None? ==> r == Err(NoSubscription)
    ensures r.Ok? <==> FindByUser(old(db.subscriptions), userId).Some?
                       && IsLiveStatus(FindByUser(old(db.subscriptions), userId).value.status)
    ensures r.Err? ==> db.subscriptions == old(db.subscriptions)
    ensures r.Ok? ==>
              var p := NoSubChanges.(plan := Set(plan), trialEnd := Set(None));
              db.subscriptions == UpdateWhereUser(old(db.subscriptions), userId, p)
              && r.value == ApplySubPatch(FindByUser(old(db.subscriptions), userId).value, p)
              && r.value.plan == plan && r.value.trialEnd.None?
              && r.value.status == FindByUser(old(db.subscriptions), userId).value.status
    ensures OnePerUser(old(db.subscriptions)) ==> OnePerUser(db.subscriptions)
    ensures PeriodsOrdered(old(db.subscriptions)) ==> PeriodsOrdered(db.subscriptions)
  {
    var existing := FindByUser(db.subscriptions, userId);
    if existing.None? {
      return Err(NoSubscription);
    }
    if !IsLiveStatus(existing.value.status) {
      return Err(NotActive);
    }
    var updated := UpdateUser(db, userId, NoSubChanges.(plan := Set(plan), trialEnd := Set(None)));
    r := Ok(updated);
  }

  /** `upgrade_to_annual`: needs a provider subscription on file; the provider
      call may raise (`providerRaises`), otherwise only the plan changes. */
  method UpgradeToAnnual(db: Database, userId: Uuid, providerRaises: bool)
    returns (r: Result<Subscription, SubscriptionError>)
    requires db.Valid()
    modifies db`subscriptions
    ensures db.Valid()
    ensures r.Ok? <==> FindByUser(old(db.subscriptions), userId).Some?
                       && HasText(FindByUser(old(db.subscriptions), userId).value.stripeSubscriptionId)
                       && !providerRaises
    ensures FindByUser(old(db.subscriptions), userId).Some?
            && !HasText(FindByUser(old(db.subscriptions), userId).value.stripeSubscriptionId) ==>
              r == Err(NoStripeSubscription)
    ensures r.Err? ==> db.subscriptions == old(db.subscriptions)
    ensures r.Ok? ==>
              db.subscriptions == UpdateWhereUser(old(db.subscriptions), userId, NoSubChanges.(plan := Set(Annual)))
              && r.value == FindByUser(old(db.subscriptions), userId).value.(plan := Annual)
    ensures OnePerUser(old(db.subscriptions)) ==> OnePerUser(db.subscriptions)
    ensures PeriodsOrdered(old(db.subscriptions)) ==> PeriodsOrdered(db.subscriptions)
  {
    var existing := FindByUser(db.subscriptions, userId);
    if existing.None? {
      return Err(NoSubscription);
    }
    if !HasText(existing.value.stripeSubscriptionId) {
      return Err(NoStripeSubscription);
    }
    if providerRaises {
      return Err(StripeFailure);
    }
    var updated := UpdateUser(db, userId, NoSubChanges.(plan := Set(Annual)));
    r := Ok(updated);
  }

  /** The update of `cancel_subscription`: deferred cancellation only raises
      the flag, immediate cancellation also cancels now. */
  function CancelPatch(atPeriodEnd: bool, now: int): (p: SubPatch)
    ensures p.cancelAtPeriodEnd == Set(atPeriodEnd)
    ensures atPeriodEnd ==> p == NoSubChanges.(cancelAtPeriodEnd := Set(true))
    ensures !atPeriodEnd ==> p.status == Set(Canceled) && p.canceledAt == Set(Some(now))
    ensures p.plan.Unset? && p.periodStart.Unset? && p.periodEnd.Unset? && p.trialEnd.Unset?
  {
    if atPeriodEnd then NoSubChanges.(cancelAtPeriodEnd := Set(true))
    else NoSubChanges.(cancelAtPeriodEnd := Set(false), status := Set(Canceled),
                       canceledAt := Set(Some(now)))
  }

  /** `cancel_subscription`.  The provider is called only when a provider
      subscription is on file. */
  method CancelSubscription(db: Database, userId: Uuid, atPeriodEnd: bool, now: int, providerRaises: bool)
    returns (r: Result<Subscription, SubscriptionError>)
    requires db.Valid()
    modifies db`subscriptions
    ensures db.Valid()
    ensures r.Ok? <==> FindByUser(old(db.subscriptions), userId).Some?
                       && !(HasText(FindByUser(old(db.subscriptions), userId).value.stripeSubscriptionId)
                            && providerRaises)
    ensures r.Err? ==> db.subscriptions == old(db.subscriptions)
    ensures r.Ok? ==>
              var before := FindByUser(old(db.subscriptions), userId).value;
              db.subscriptions == UpdateWhereUser(old(db.subscriptions), userId, CancelPatch(atPeriodEnd, now))
              && r.value.cancelAtPeriodEnd == atPeriodEnd
              && (atPeriodEnd ==> r.value.status == before.status && r.value.canceledAt == before.canceledAt)
              && (!atPeriodEnd ==> r.value.status == Canceled && r.value.canceledAt == Some(now))
    ensures OnePerUser(old(db.subscriptions)) ==> OnePerUser(db.subscriptions)
    ensures PeriodsOrdered(old(db.subscriptions)) ==> PeriodsOrdered(db.subscriptions)
  {
    var existing := FindByUser(db.subscriptions, userId);
    if existing.None? {
      return Err(NoSubscription);
    }
    if HasText(existing.value.stripeSubscriptionId) && providerRaises {
      return Err(StripeFailure);
    }
    var updated := UpdateUser(db, userId, CancelPatch(atPeriodEnd, now));
    r := Ok(updated);
  }

  /** `reactivate_subscription`: accepted whenever the deferred-cancellation
      flag is set.  Neither the period end nor the status is consulted, and
      the status is left as it is. */
  method ReactivateSubscription(db: Database, userId: Uuid, providerRaises: bool)
    returns (r: Result<Subscription, SubscriptionError>)
    requires db.Valid()
    modifies db`subscriptions
    ensures db.Valid()
    ensures FindByUser(old(db.subscriptions), userId).Some?
            && !FindByUser(old(db.subscriptions), userId).value.cancelAtPeriodEnd ==>
              r == Err(NotSetToCancel)
    ensures r.Ok? <==> FindByUser(old(db.subscriptions), userId).Some?
                       && FindByUser(old(db.subscriptions), userId).value.cancelAtPeriodEnd
                       && !(HasText(FindByUser(old(db.subscriptions), userId).value.stripeSubscriptionId)
                            && providerRaises)
    ensures r.Err? ==> db.subscriptions == old(db.subscriptions)
    ensures r.Ok? ==>
              var before := FindByUser(old(db.subscriptions), userId).value;
              db.subscriptions == UpdateWhereUser(old(db.subscriptions), userId,
                                                  NoSubChanges.(cancelAtPeriodEnd := Set(false), canceledAt := Set(None)))
              && r.value == before.(cancelAtPeriodEnd := false, canceledAt := None)
    ensures OnePerUser(old(db.subscriptions)) ==> OnePerUser(db.subscriptions)
    ensures PeriodsOrdered(old(db.subscriptions)) ==> PeriodsOrdered(db.subscriptions)
  {
    var existing := FindByUser(db.subscriptions, userId);
    if existing.None? {
      return Err(NoSubscription);
    }
    if !existing.value.cancelAtPeriodEnd {
      return Err(NotSetToCancel);
    }
    if HasText(existing.value.stripeSubscriptionId) && providerRaises {
      return Err(StripeFailure);
    }
    var updated := UpdateUser(db, userId, NoSubChanges.(cancelAtPeriodEnd := Set(false), canceledAt := Set(None)));
    r := Ok(updated);
  }

  // ==================== Status checks ====================

  /** `is_subscription_active`: the user's subscription is "active" or "past_due". */
  function IsSubscriptionActive(rows: seq<Subscription>, userId: Uuid): (active: bool)
    ensures FindByUser(rows, userId).None? ==> !active
    ensures active ==> exists k :: 0 <= k < |rows| && rows[k].userId == userId && IsLiveStatus(rows[k].status)
    ensures |rows| > 0 && rows[0].userId == userId ==> (active <==> rows[0].status in {Active, PastDue})
  {
    var s := FindByUser(rows, userId);
    s.Some? && IsLiveStatus(s.value.status)
  }

  /** With one subscription per user, the check is exactly "some row of the
      user is active or past due". */
  lemma {:induction false} IsSubscriptionActiveIff(rows: seq<Subscription>, userId: Uuid)
    requires OnePerUser(rows)
    ensures IsSubscriptionActive(rows, userId) <==>
              exists k :: 0 <= k < |rows| && rows[k].userId == userId && IsLiveStatus(rows[k].status)
  {
    var s := FindByUser(rows, userId);
    if s.Some? {
      var k :| 0 <= k < |rows| && rows[k] == s.value;
      forall j | 0 <= j < |rows| && rows[j].userId == userId ensures j == k {
      }
    }
  }

  /** `is_trial_active`: a trial plan whose trial end is still ahead. */
  function IsTrialActive(rows: seq<Subscription>, userId: Uuid, now: int): (active: bool)
    ensures FindByUser(rows, userId).None? ==> !active
    ensures FindByUser(rows, userId).Some? && FindByUser(rows, userId).value.plan != Trial ==> !active
    ensures FindByUser(rows, userId).Some? && FindByUser(rows, userId).value.trialEnd.None? ==> !active
    ensures active ==> exists k :: 0 <= k < |rows| && rows[k].userId == userId && rows[k].plan == Trial
                                   && rows[k].trialEnd.Some? && now < rows[k].trialEnd.value
    ensures (|rows| > 0 && rows[0].userId == userId && rows[0].plan == Trial
             && rows[0].trialEnd.Some? && now < rows[0].trialEnd.value) ==> active
  {
    var s := FindByUser(rows, userId);
    s.Some? && s.value.plan == Trial && s.value.trialEnd.Some? && now < s.value.trialEnd.value
  }

  /** `get_days_until_trial_end`: whole days left (`timedelta.days` floors),
      never negative; none without a trial end. */
  function DaysUntilTrialEnd(rows: seq<Subscription>, userId: Uuid, now: int): (r: Option<nat>)
    ensures r.None? <==> FindByUser(rows, userId).None? || FindByUser(rows, userId).value.trialEnd.None?
    ensures r.Some? ==>
              var e := FindByUser(rows, userId).value.trialEnd.value;
              (now >= e ==> r.value == 0)
              && (now < e ==> r.value * 86400 <= e - now < (r.value + 1) * 86400)
  {
    var s := FindByUser(rows, userId);
    if s.None? || s.value.trialEnd.None? then None
    else Some(NonNegative((s.value.trialEnd.value - now) / SecondsPerDay))
  }

  /** A freshly started trial is active for exactly its first seven days, and
      the days left during it are at most seven. */
  lemma {:induction false} FreshTrialWindow(
    rows: seq<Subscription>, row: Subscription, now: int, later: int)
    requires FindByUser(rows, row.userId).None?
    requires row == NewTrialRow(row.id, row.userId, row.stripeCustomerId, row.stripeSubscriptionId,
                                row.stripePaymentMethodId, now)
    ensures IsTrialActive(rows + [row], row.userId, later) <==> later < now + 7 * 86400
    ensures now <= later ==>
              DaysUntilTrialEnd(rows + [row], row.userId, later).Some?
              && DaysUntilTrialEnd(rows + [row], row.userId, later).value <= 7
  {
    var all := rows + [row];
    assert all[|rows|] == row;
    assert FindByUser(all, row.userId) == Some(row) by {
      var k := FirstMatch(all, (s: Subscription) => s.userId == row.userId);
      assert k <= |rows|;
    }
  }

  // ==================== Payment-provider event handlers ====================

  /** The subscription object of a `customer.subscription.*` event. */
  datatype ProviderSubscription = ProviderSubscription(
    id: string,
    status: string,
    periodStart: int,
    periodEnd: int,
    cancelAtPeriodEnd: bool)

  /** The status map of `handle_subscription_updated`, with "active" for any
      status it does not list. */
  function StatusFromProvider(s: string): (r: Status)
    ensures r == Canceled <==> s == "canceled"
    ensures r == Expired <==> s == "incomplete_expired"
    ensures r == PastDue <==> (s == "past_due" || s == "unpaid")
    ensures r == Active <==> !(s in {"canceled", "incomplete_expired", "past_due", "unpaid"})
  {
    var statusMap := map[
      "active" := Active,
      "past_due" := PastDue,
      "canceled" := Canceled,
      "unpaid" := PastDue,
      "incomplete" := Active,
      "incomplete_expired" := Expired,
      "trialing" := Active];
    if s in statusMap then statusMap[s] else Active
  }

  /** The update of `handle_subscription_updated` for the matched row: map the
      status, copy the period bounds and the cancellation flag, and turn a
      trial into a monthly plan once the provider reports "active". */
  function ProviderUpdatePatch(row: Subscription, ps: ProviderSubscription): (p: SubPatch)
    ensures p.status == Set(StatusFromProvider(ps.status))
    ensures p.periodStart == Set(ps.periodStart) && p.periodEnd == Set(ps.periodEnd)
    ensures p.cancelAtPeriodEnd == Set(ps.cancelAtPeriodEnd) && p.canceledAt.Unset?
    ensures ps.status == "active" && row.plan == Trial ==>
              p.plan == Set(Monthly) && p.trialEnd == Set(None)
    ensures !(ps.status == "active" && row.plan == Trial) ==> p.plan.Unset? && p.trialEnd.Unset?
  {
    var base := SubPatch(Unset, Set(StatusFromProvider(ps.status)), Set(ps.periodStart),
                         Set(ps.periodEnd), Unset, Set(ps.cancelAtPeriodEnd), Unset);
    if ps.status == "active" && row.plan == Trial then
      base.(plan := Set(Monthly), trialEnd := Set(None))
    else base
  }

  /** The `subscriptions` table after `handle_subscription_updated`. */
  function ProviderUpdatedRows(rows: seq<Subscription>, ps: ProviderSubscription)
    : (r: seq<Subscription>)
    ensures FindByStripeSubscription(rows, ps.id).None? ==> r == rows
    ensures |r| == |rows|
    ensures FindByStripeSubscription(rows, ps.id).Some? ==>
              forall k :: 0 <= k < |rows| ==>
                if rows[k].id == FindByStripeSubscription(rows, ps.id).value.id
                then r[k].id == rows[k].id && r[k].status == StatusFromProvider(ps.status)
                     && r[k].periodStart == ps.periodStart && r[k].periodEnd == ps.periodEnd
                     && r[k].cancelAtPeriodEnd == ps.cancelAtPeriodEnd
                else r[k] == rows[k]
  {
    match FindByStripeSubscription(rows, ps.id)
    case None => rows
    case Some(row) => UpdateWhereId(rows, row.id, ProviderUpdatePatch(row, ps))
  }

  /** `handle_subscription_updated`. */
  method HandleSubscriptionUpdated(db: Database, ps: ProviderSubscription)
    returns (r: Option<Subscription>)
    requires db.Valid()
    modifies db`subscriptions
    ensures db.Valid()
    ensures db.subscriptions == ProviderUpdatedRows(old(db.subscriptions), ps)
    ensures r.None? <==> FindByStripeSubscription(old(db.subscriptions), ps.id).None?
    ensures r.Some? ==>
              var before := FindByStripeSubscription(old(db.subscriptions), ps.id).value;
              r.value == ApplySubPatch(before, ProviderUpdatePatch(before, ps))
              && r.value.status == StatusFromProvider(ps.status)
              && r.value.periodStart == ps.periodStart && r.value.periodEnd == ps.periodEnd
    ensures OnePerUser(old(db.subscriptions)) ==> OnePerUser(db.subscriptions)
  {
    var existing := FindByStripeSubscription(db.subscriptions, ps.id);
    if existing.None? {
      return None;
    }
    var p := ProviderUpdatePatch(existing.value, ps);
    PatchKeepsInvariants(db.subscriptions, existing.value.userId, existing.value.id, p);
    db.subscriptions := UpdateWhereId(db.subscriptions, existing.value.id, p);
    r := Some(ApplySubPatch(existing.value, p));
  }

  /** `q` names a subset of what `p` sets, with the same values. */
  predicate SubsumedBy(q: SubPatch, p: SubPatch)
  {
    (q.plan.Set? ==> q.plan == p.plan) && (q.status.Set? ==> q.status == p.status)
    && (q.periodStart.Set? ==> q.periodStart == p.periodStart)
    && (q.periodEnd.Set? ==> q.periodEnd == p.periodEnd)
    && (q.trialEnd.Set? ==> q.trialEnd == p.trialEnd)
    && (q.cancelAtPeriodEnd.Set? ==> q.cancelAtPeriodEnd == p.cancelAtPeriodEnd)
    && (q.canceledAt.Set? ==> q.canceledAt == p.canceledAt)
  }

  lemma PatchAbsorbs(s: Subscription, p: SubPatch, q: SubPatch)
    requires SubsumedBy(q, p)
    ensures ApplySubPatch(ApplySubPatch(s, p), q) == ApplySubPatch(s, p)
  {
  }

  /** Delivering the same `customer.subscription.updated` event twice leaves
      the table as the first delivery left it. */
  lemma {:induction false} ProviderUpdateReplay(rows: seq<Subscription>, ps: ProviderSubscription)
    ensures ProviderUpdatedRows(ProviderUpdatedRows(rows, ps), ps) == ProviderUpdatedRows(rows, ps)
  {
    var once := ProviderUpdatedRows(rows, ps);
    var k := StripeSubscriptionIndex(rows, ps.id);
    if k < |rows| {
      var row := rows[k];
      var p := ProviderUpdatePatch(row, ps);
      assert once == UpdateWhereId(rows, row.id, p);
      var k2 := StripeSubscriptionIndex(once, ps.id);
      assert k2 == k by {
        forall j | 0 <= j < k ensures once[j].stripeSubscriptionId != Some(ps.id) {
          assert once[j].stripeSubscriptionId == rows[j].stripeSubscriptionId;
        }
        assert once[k].stripeSubscriptionId == Some(ps.id);
      }
      var row2 := once[k];
      assert row2 == ApplySubPatch(row, p);
      var q := ProviderUpdatePatch(row2, ps);
      assert SubsumedBy(q, p);
      var twice := UpdateWhereId(once, row2.id, q);
      assert row2.id == row.id;
      forall j | 0 <= j < |rows| ensures twice[j] == once[j] {
        if rows[j].id == row.id {
          PatchAbsorbs(rows[j], p, q);
        }
      }
    } else {
      assert FindByStripeSubscription(rows, ps.id).None?;
    }
  }

  /** The `subscriptions` table after `handle_subscription_deleted` at `now`. */
  function ProviderDeletedRows(rows: seq<Subscription>, subscriptionId: string, now: int)
    : (r: seq<Subscription>)
    ensures FindByStripeSubscription(rows, subscriptionId).None? ==> r == rows
    ensures |r| == |rows|
    ensures FindByStripeSubscription(rows, subscriptionId).Some? ==>
              forall k :: 0 <= k < |rows| ==>
                r[k] == if rows[k].id == FindByStripeSubscription(rows, subscriptionId).value.id
                        then rows[k].(status := Canceled, canceledAt := Some(now)) else rows[k]
  {
    match FindByStripeSubscription(rows, subscriptionId)
    case None => rows
    case Some(row) =>
      UpdateWhereId(rows, row.id, NoSubChanges.(status := Set(Canceled), canceledAt := Set(Some(now))))
  }

  /** `handle_subscription_deleted`: the matched subscription is canceled now. */
  method HandleSubscriptionDeleted(db: Database, subscriptionId: string, now: int)
    returns (r: Option<Subscription>)
    requires db.Valid()
    modifies db`subscriptions
    ensures db.Valid()
    ensures db.subscriptions == ProviderDeletedRows(old(db.subscriptions), subscriptionId, now)
    ensures r.None? <==> FindByStripeSubscription(old(db.subscriptions), subscriptionId).None?
    ensures r.Some? ==>
              r.value == FindByStripeSubscription(old(db.subscriptions), subscriptionId).value
                           .(status := Canceled, canceledAt := Some(now))
    ensures OnePerUser(old(db.subscriptions)) ==> OnePerUser(db.subscriptions)
    ensures PeriodsOrdered(old(db.subscriptions)) ==> PeriodsOrdered(db.subscriptions)
  {
    var existing := FindByStripeSubscription(db.subscriptions, subscriptionId);
    if existing.None? {
      return None;
    }
    var p := NoSubChanges.(status := Set(Canceled), canceledAt := Set(Some(now)));
    PatchKeepsInvariants(db.subscriptions, existing.value.userId, existing.value.id, p);
    db.subscriptions := UpdateWhereId(db.subscriptions, existing.value.id, p);
    r := Some(ApplySubPatch(existing.value, p));
  }

  /** A second delivery of `customer.subscription.deleted` at a later time
      moves `canceled_at` to the time of that delivery: the handler is not
      idempotent in the cancellation time. */
  lemma {:induction false} ProviderDeleteReplayMovesCanceledAt(
    rows: seq<Subscription>, subscriptionId: string, first: int, second: int)
    requires FindByStripeSubscription(rows, subscriptionId).Some?
    ensures var twice := ProviderDeletedRows(ProviderDeletedRows(rows, subscriptionId, first), subscriptionId, second);
            FindByStripeSubscription(twice, subscriptionId).Some?
            && FindByStripeSubscription(twice, subscriptionId).value.canceledAt == Some(second)
            && FindByStripeSubscription(twice, subscriptionId).value.status == Canceled
  {
    var p1 := NoSubChanges.(status := Set(Canceled), canceledAt := Set(Some(first)));
    var p2 := NoSubChanges.(status := Set(Canceled), canceledAt := Set(Some(second)));
    var k := StripeSubscriptionIndex(rows, subscriptionId);
    var once := UpdateWhereId(rows, rows[k].id, p1);
    assert ProviderDeletedRows(rows, subscriptionId, first) == once;
    PatchKeepsProviderLookups(rows, rows[k].id, p1, "", subscriptionId);
    assert once[k].id == rows[k].id;
    var twice := UpdateWhereId(once, rows[k].id, p2);
    assert ProviderDeletedRows(once, subscriptionId, second) == twice;
    PatchKeepsProviderLookups(once, rows[k].id, p2, "", subscriptionId);
    assert twice[k].canceledAt == Some(second);
  }

  /** Patching rows by key never moves the row a provider lookup finds. */
  lemma PatchKeepsProviderLookups(
    rows: seq<Subscription>, id: Uuid, p: SubPatch, customerId: string, subscriptionId: string)
    ensures StripeCustomerIndex(UpdateWhereId(rows, id, p), customerId) == StripeCustomerIndex(rows, customerId)
    ensures StripeSubscriptionIndex(UpdateWhereId(rows, id, p), subscriptionId)
            == StripeSubscriptionIndex(rows, subscriptionId)
  {
    var after := UpdateWhereId(rows, id, p);
    assert forall k :: 0 <= k < |rows| ==>
      after[k].stripeCustomerId == rows[k].stripeCustomerId
      && after[k].stripeSubscriptionId == rows[k].stripeSubscriptionId;
  }

  /** The `subscriptions` table after `handle_payment_failed`. */
  function PaymentFailedRows(rows: seq<Subscription>, customerId: string): (r: seq<Subscription>)
    ensures FindByStripeCustomer(rows, customerId).None? ==> r == rows
    ensures |r| == |rows|
    ensures FindByStripeCustomer(rows, customerId).Some? ==>
              forall k :: 0 <= k < |rows| ==>
                r[k] == if rows[k].id == FindByStripeCustomer(rows, customerId).value.id
                        then rows[k].(status := PastDue) else rows[k]
  {
    match FindByStripeCustomer(rows, customerId)
    case None => rows
    case Some(row) => UpdateWhereId(rows, row.id, NoSubChanges.(status := Set(PastDue)))
  }

  /** Marking the customer's subscription past due twice is doing it once. */
  lemma PaymentFailedReplay(rows: seq<Subscription>, customerId: string)
    ensures PaymentFailedRows(PaymentFailedRows(rows, customerId), customerId)
            == PaymentFailedRows(rows, customerId)
  {
    var k := StripeCustomerIndex(rows, customerId);
    if k < |rows| {
      var p := NoSubChanges.(status := Set(PastDue));
      var once := UpdateWhereId(rows, rows[k].id, p);
      assert PaymentFailedRows(rows, customerId) == once;
      PatchKeepsProviderLookups(rows, rows[k].id, p, customerId, "");
      assert once[k].id == rows[k].id;
      assert PaymentFailedRows(once, customerId) == UpdateWhereId(once, rows[k].id, p);
      UpdateWhereIdTwice(rows, rows[k].id, p);
    }
  }

  /** Applying the same patch by key twice is applying it once. */
  lemma UpdateWhereIdTwice(rows: seq<Subscription>, id: Uuid, p: SubPatch)
    ensures UpdateWhereId(UpdateWhereId(rows, id, p), id, p) == UpdateWhereId(rows, id, p)
  {
    var once := UpdateWhereId(rows, id, p);
    forall k | 0 <= k < |rows|
      ensures UpdateWhereId(once, id, p)[k] == once[k]
    {
      if rows[k].id == id {
        assert ApplySubPatch(ApplySubPatch(rows[k], p), p) == ApplySubPatch(rows[k], p);
      }
    }
  }

  /** `handle_payment_failed`: the customer's subscription becomes past due. */
  method HandlePaymentFailed(db: Database, customerId: string) returns (r: Option<Subscription>)
    requires db.Valid()
    modifies db`subscriptions
    ensures db.Valid()
    ensures db.subscriptions == PaymentFailedRows(old(db.subscriptions), customerId)
    ensures r.None? <==> FindByStripeCustomer(old(db.subscriptions), customerId).None?
    ensures r.Some? ==>
              r.value == FindByStripeCustomer(old(db.subscriptions), customerId).value.(status := PastDue)
    ensures OnePerUser(old(db.subscriptions)) ==> OnePerUser(db.subscriptions)
    ensures PeriodsOrdered(old(db.subscriptions)) ==> PeriodsOrdered(db.subscriptions)
  {
    var existing := FindByStripeCustomer(db.subscriptions, customerId);
    if existing.None? {
      return None;
    }
    var p := NoSubChanges.(status := Set(PastDue));
    PatchKeepsInvariants(db.subscriptions, existing.value.userId, existing.value.id, p);
    db.subscriptions := UpdateWhereId(db.subscriptions, existing.value.id, p);
    r := Some(ApplySubPatch(existing.value, p));
  }

  // ==================== Trial expiry ====================

  /** The rows the expiry sweep selects: trial plan, active, and a trial end
      strictly before `now` (a null trial end never compares below). */
  predicate TrialHasEnded(s: Subscription, now: int)
  {
    s.plan == Trial && s.status == Active && s.trialEnd.Some? && s.trialEnd.value < now
  }

  function EndedTrials(rows: seq<Subscription>, now: int): (r: seq<Subscription>)
    ensures forall s :: s in r <==> s in rows && TrialHasEnded(s, now)
    ensures |r| <= |rows|
  {
    if |rows| == 0 then []
    else (if TrialHasEnded(rows[0], now) then [rows[0]] else []) + EndedTrials(rows[1..], now)
  }

  /** The subscriptions with a key in `ids`, expired. */
  function ExpireIds(rows: seq<Subscription>, ids: set<Uuid>): (r: seq<Subscription>)
    ensures |r| == |rows|
    ensures forall k :: 0 <= k < |rows| ==>
              r[k] == if rows[k].id in ids then rows[k].(status := Expired) else rows[k]
  {
    seq(|rows|, k requires 0 <= k < |rows| =>
      if rows[k].id in ids then rows[k].(status := Expired) else rows[k])
  }

  /** The pins whose subscription has a key in `ids`, paused. */
  function PausePinsOf(pins: seq<PinModels.Pin>, ids: set<Uuid>): (r: seq<PinModels.Pin>)
    ensures |r| == |pins|
    ensures forall k :: 0 <= k < |pins| ==>
              r[k] == if pins[k].subscriptionId.Some? && pins[k].subscriptionId.value in ids
                      then pins[k].(status := PinModels.Paused) else pins[k]
  {
    seq(|pins|, k requires 0 <= k < |pins| =>
      if pins[k].subscriptionId.Some? && pins[k].subscriptionId.value in ids
      then pins[k].(status := PinModels.Paused) else pins[k])
  }

  function IdsOf(rows: seq<Subscription>): (ids: set<Uuid>)
    ensures forall id :: id in ids <==> exists k :: 0 <= k < |rows| && rows[k].id == id
  {
    set k | 0 <= k < |rows| :: rows[k].id
  }

  /** The selection extended by one row names one more subscription. */
  lemma IdsOfSnoc(rows: seq<Subscription>, row: Subscription)
    ensures IdsOf(rows + [row]) == IdsOf(rows) + {row.id}
  {
    var all := rows + [row];
    assert all[|rows|] == row;
    forall id | id in IdsOf(rows) ensures id in IdsOf(all) {
      var k :| 0 <= k < |rows| && rows[k].id == id;
      assert all[k] == rows[k];
    }
  }

  /** Expiring one more subscription by key. */
  lemma ExpireStep(rows: seq<Subscription>, ids: set<Uuid>, id: Uuid)
    ensures UpdateWhereId(ExpireIds(rows, ids), id, NoSubChanges.(status := Set(Expired)))
            == ExpireIds(rows, ids + {id})
  {
  }

  /** Pausing the pins of one more subscription. */
  lemma PauseStep(pins: seq<PinModels.Pin>, ids: set<Uuid>, id: Uuid)
    ensures PauseSubscriptionPins(PausePinsOf(pins, ids), id) == PausePinsOf(pins, ids + {id})
  {
  }

  /** With distinct keys, a row's key is among the selected keys exactly when
      the row itself is an ended trial. */
  lemma EndedTrialIds(rows: seq<Subscription>, now: int)
    requires DistinctSubscriptionIds(rows)
    ensures forall k :: 0 <= k < |rows| ==>
              (rows[k].id in IdsOf(EndedTrials(rows, now)) <==> TrialHasEnded(rows[k], now))
  {
    var selected := EndedTrials(rows, now);
    forall k | 0 <= k < |rows|
      ensures rows[k].id in IdsOf(selected) <==> TrialHasEnded(rows[k], now)
    {
      if rows[k].id in IdsOf(selected) {
        var j :| 0 <= j < |selected| && selected[j].id == rows[k].id;
        assert selected[j] in rows;
        var m :| 0 <= m < |rows| && rows[m] == selected[j];
      }
    }
  }

  /** Changing statuses keeps the keys of both tables distinct. */
  lemma ExpiryKeepsKeys(rows: seq<Subscription>, pins: seq<PinModels.Pin>, ids: set<Uuid>)
    ensures DistinctSubscriptionIds(rows) ==> DistinctSubscriptionIds(ExpireIds(rows, ids))
    ensures DistinctPinIds(pins) ==> DistinctPinIds(PausePinsOf(pins, ids))
  {
    var r, q := ExpireIds(rows, ids), PausePinsOf(pins, ids);
    assert forall k :: 0 <= k < |rows| ==> r[k].id == rows[k].id;
    assert forall k :: 0 <= k < |pins| ==> q[k].id == pins[k].id;
  }

  /** The update loop of `expire_ended_trials`, one selected subscription
      at a time: expire it, then pause its pins. */
  method ExpireEach(rows0: seq<Subscription>, pins0: seq<PinModels.Pin>, selected: seq<Subscription>)
    returns (rows: seq<Subscription>, pins: seq<PinModels.Pin>, count: nat)
    ensures rows == ExpireIds(rows0, IdsOf(selected))
    ensures pins == PausePinsOf(pins0, IdsOf(selected))
    ensures count == |selected|
  {
    rows, pins, count := rows0, pins0, 0;
    var i := 0;
    while i < |selected|
      invariant 0 <= i <= |selected| && count == i
      invariant rows == ExpireIds(rows0, IdsOf(selected[..i]))
      invariant pins == PausePinsOf(pins0, IdsOf(selected[..i]))
    {
      var sub := selected[i];
      assert selected[..i + 1] == selected[..i] + [sub];
      IdsOfSnoc(selected[..i], sub);
      ExpireStep(rows0, IdsOf(selected[..i]), sub.id);
      PauseStep(pins0, IdsOf(selected[..i]), sub.id);
      rows := UpdateWhereId(rows, sub.id, NoSubChanges.(status := Set(Expired)));
      pins := PauseSubscriptionPins(pins, sub.id);
      count := count + 1;
      i := i + 1;
    }
    assert selected[..i] == selected;
  }

  /** `expire_ended_trials`: every ended trial becomes expired and the pins of
      its subscription are paused; every other row of both tables is kept.
      Returns how many subscriptions were expired. */
  method ExpireEndedTrials(db: Database, now: int) returns (count: nat)
    requires db.Valid()
    modifies db`subscriptions, db`pins
    ensures db.Valid()
    ensures count == |EndedTrials(old(db.subscriptions), now)|
    ensures |db.subscriptions| == |old(db.subscriptions)|
    ensures forall k :: 0 <= k < |db.subscriptions| ==>
              db.subscriptions[k] == if TrialHasEnded(old(db.subscriptions)[k], now)
                                     then old(db.subscriptions)[k].(status := Expired)
                                     else old(db.subscriptions)[k]
    ensures db.pins == PausePinsOf(old(db.pins), IdsOf(EndedTrials(old(db.subscriptions), now)))
  {
    var selected := EndedTrials(db.subscriptions, now);
    EndedTrialIds(db.subscriptions, now);
    ExpiryKeepsKeys(db.subscriptions, db.pins, IdsOf(selected));
    var rows, pins;
    rows, pins, count := ExpireEach(db.subscriptions, db.pins, selected);
    db.subscriptions, db.pins := rows, pins;
  }

  /** `.update({"status": "paused"}).eq("subscription_id", id)` on `pins`. */
  function PauseSubscriptionPins(pins: seq<PinModels.Pin>, id: Uuid): (r: seq<PinModels.Pin>)
    ensures |r| == |pins|
    ensures forall k :: 0 <= k < |pins| ==>
              r[k] == if pins[k].subscriptionId == Some(id) then pins[k].(status := PinModels.Paused) else pins[k]
  {
    seq(|pins|, k requires 0 <= k < |pins| =>
      if pins[k].subscriptionId == Some(id) then pins[k].(status := PinModels.Paused) else pins[k])
  }
}
