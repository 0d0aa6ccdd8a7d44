/** Records and request shapes of backend/app/models/subscription.py, together
    with the stored rows of the `subscriptions` and `featured_bookings` tables
    that the services read and write. */
module SubscriptionModels {
  import opened Common

  datatype Plan = Trial | Monthly | Annual
  datatype Status = Active | PastDue | Canceled | Expired
  datatype PaymentStatus = Pending | Paid | Failed | Refunded

  function PlanName(p: Plan): string
  {
    match p
    case Trial => "trial"
    case Monthly => "monthly"
    case Annual => "annual"
  }

  function StatusName(s: Status): string
  {
    match s
    case Active => "active"
    case PastDue => "past_due"
    case Canceled => "canceled"
    case Expired => "expired"
  }

  /** The `plan` field of SubscriptionBase: the pattern `^(trial|monthly|annual)$`
      accepts exactly the three plan names. */
  function ParsePlan(s: string): (r: Option<Plan>)
    ensures r.Some? <==> (s == "trial" || s == "monthly" || s == "annual")
    ensures r.Some? ==> PlanName(r.value) == s
  {
    if s == "trial" then Some(Trial)
    else if s == "monthly" then Some(Monthly)
    else if s == "annual" then Some(Annual)
    else None
  }

  lemma PlanNameRoundTrip(p: Plan)
    ensures ParsePlan(PlanName(p)) == Some(p)
  {
    match p
    case Trial =>
    case Monthly =>
    case Annual =>
  }

  /** UpgradePlanRequest: the pattern `^(monthly|annual)$` rejects "trial". */
  function ParseUpgradePlan(s: string): (r: Option<Plan>)
    ensures r.Some? <==> (s == "monthly" || s == "annual")
    ensures r != Some(Trial)
    ensures r.Some? ==> ParsePlan(s) == r
  {
    if s == "monthly" then Some(Monthly)
    else if s == "annual" then Some(Annual)
    else None
  }

  /** SubscriptionCreate: the request that starts a paid trial. */
  datatype SubscriptionCreate = SubscriptionCreate(
    paymentMethodId: string,
    name: Option<string>,
    phone: Option<string>)

  /** Validation of a trial-start body: `payment_method_id` is required,
      `name` and `phone` are optional. */
  function ParseSubscriptionCreate(
    paymentMethodId: Option<string>, name: Option<string>, phone: Option<string>)
    : (r: Option<SubscriptionCreate>)
    ensures r.Some? <==> paymentMethodId.Some?
    ensures r.Some? ==> r.value.paymentMethodId == paymentMethodId.value
                        && r.value.name == name && r.value.phone == phone
  {
    match paymentMethodId
    case None => None
    case Some(pm) => Some(SubscriptionCreate(pm, name, phone))
  }

  /** A row of the `subscriptions` table (the fields of SubscriptionResponse
      plus the Stripe references the services store). */
  datatype Subscription = Subscription(
    id: Uuid,
    userId: Uuid,
    plan: Plan,
    status: Status,
    stripeCustomerId: Option<string>,
    stripeSubscriptionId: Option<string>,
    stripePaymentMethodId: Option<string>,
    periodStart: int,
    periodEnd: int,
    trialEnd: Option<int>,
    cancelAtPeriodEnd: bool,
    canceledAt: Option<int>)

  /** A SubscriptionResponse built from its required fields: the optional
      fields take their declared defaults. */
  function SubscriptionWithDefaults(
    id: Uuid, userId: Uuid, plan: Plan, status: Status, periodStart: int, periodEnd: int)
    : (r: Subscription)
    ensures !r.cancelAtPeriodEnd && r.trialEnd.None? && r.canceledAt.None?
    ensures r.id == id && r.userId == userId && r.plan == plan && r.status == status
    ensures r.periodStart == periodStart && r.periodEnd == periodEnd
  {
    Subscription(id, userId, plan, status, None, None, None,
                 periodStart, periodEnd, None, false, None)
  }

  /** A row of the `featured_bookings` table. */
  datatype FeaturedBooking = FeaturedBooking(
    id: Uuid,
    pinId: Uuid,
    boardId: Uuid,
    userId: Uuid,
    date: int,
    amountCents: int,
    paymentIntentId: Option<string>,
    paymentStatus: PaymentStatus)

  /** One entry of the availability calendar. */
  datatype FeaturedAvailability = FeaturedAvailability(
    date: int, isAvailable: bool, bookedByUser: bool)

  /** FeaturedAvailability built without `booked_by_user`, which defaults to false. */
  function AvailabilityWithDefault(date: int, isAvailable: bool): (r: FeaturedAvailability)
    ensures !r.bookedByUser && r.date == date && r.isAvailable == isAvailable
  {
    FeaturedAvailability(date, isAvailable, false)
  }
}
