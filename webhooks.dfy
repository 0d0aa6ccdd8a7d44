/** The payment-provider webhook of backend/app/api/v1/webhooks.py: a signed
    event is dispatched on its type to an update of the `subscriptions` or
    the `featured_bookings` table.  Signature checking is the provider's
    library; its verdict is an input. */
module Webhooks {
  import opened Common
  import opened SubscriptionModels
  import opened Store
  import SubscriptionService
  import FeaturedService

  /** The `data.object` of an event. */
  datatype EventObject =
    | SubscriptionObject(subscription: SubscriptionService.ProviderSubscription)
    | InvoiceObject(customer: string)
    | PaymentIntentObject(intentId: string, metadata: map<string, string>)
    | OtherObject

  datatype Event = Event(eventType: string, data: EventObject)

  /** What `construct_webhook_event` did with the payload and signature. */
  datatype Construction =
    | Constructed(event: Event)
    | SignatureRejected
    | PayloadRejected(message: string)

  /** The JSON the endpoint answers with, or the HTTP 400 it raises. */
  datatype Reply =
    | Handled(event: string)
    | Ignored(event: string)
    | BadRequest(detail: string)

  /** The provider sends, for each event type, an object of the matching kind. */
  predicate WellFormed(e: Event)
  {
    && (IsSubscriptionEvent(e.eventType) ==> e.data.SubscriptionObject?)
    && (e.eventType == "invoice.payment_failed" ==> e.data.InvoiceObject?)
    && (IsPaymentIntentEvent(e.eventType) ==> e.data.PaymentIntentObject?)
  }

  predicate IsSubscriptionEvent(t: string)
  {
    t == "customer.subscription.updated" || t == "customer.subscription.deleted"
  }

  predicate IsPaymentIntentEvent(t: string)
  {
    t == "payment_intent.succeeded" || t == "payment_intent.payment_failed"
  }

  /** `metadata.get("type") == "featured"`. */
  predicate IsFeaturedPayment(metadata: map<string, string>)
  {
    "type" in metadata && metadata["type"] == "featured"
  }

  /** The update of a table the event asks for. */
  datatype Action =
    | UpdateSubscription(subscription: SubscriptionService.ProviderSubscription)
    | DeleteSubscription(subscriptionId: string)
    | FailInvoice(customer: string)
    | SetIntentStatus(intentId: string, status: PaymentStatus)
    | NoAction

  /** The event-type dispatch. */
  function Dispatch(e: Event): (a: Action)
    requires WellFormed(e)
    ensures a.UpdateSubscription? <==> e.eventType == "customer.subscription.updated"
    ensures a.DeleteSubscription? <==> e.eventType == "customer.subscription.deleted"
    ensures a.FailInvoice? <==> e.eventType == "invoice.payment_failed"
    ensures a.SetIntentStatus? <==>
              (e.eventType == "payment_intent.succeeded" || e.eventType == "payment_intent.payment_failed")
              && IsFeaturedPayment(e.data.metadata)
    ensures a.SetIntentStatus? ==>
              a.intentId == e.data.intentId
              && a.status == (if e.eventType == "payment_intent.succeeded" then Paid else Failed)
  {
    if e.eventType == "customer.subscription.updated" then UpdateSubscription(e.data.subscription)
    else if e.eventType == "customer.subscription.deleted" then DeleteSubscription(e.data.subscription.id)
    else if e.eventType == "invoice.payment_succeeded" then NoAction
    else if e.eventType == "invoice.payment_failed" then FailInvoice(e.data.customer)
    else if e.eventType == "payment_intent.succeeded" then
      (if IsFeaturedPayment(e.data.metadata) then SetIntentStatus(e.data.intentId, Paid) else NoAction)
    else if e.eventType == "payment_intent.payment_failed" then
      (if IsFeaturedPayment(e.data.metadata) then SetIntentStatus(e.data.intentId, Failed) else NoAction)
    else NoAction
  }

  /** The body the endpoint returns for a constructed event. */
  function EventReply(e: Event): (r: Reply)
    requires WellFormed(e)
    ensures r.Ignored? <==> !(e.eventType in {"customer.subscription.updated", "customer.subscription.deleted",
                                             "invoice.payment_succeeded", "invoice.payment_failed",
                                             "payment_intent.succeeded", "payment_intent.payment_failed"})
    ensures r.Ignored? ==> r.event == e.eventType
    ensures !r.BadRequest?
  {
    if e.eventType == "customer.subscription.updated" then Handled("subscription.updated")
    else if e.eventType == "customer.subscription.deleted" then Handled("subscription.deleted")
    else if e.eventType == "invoice.payment_succeeded" then Handled("invoice.payment_succeeded")
    else if e.eventType == "invoice.payment_failed" then Handled("invoice.payment_failed")
    else if e.eventType == "payment_intent.succeeded" then
      (if IsFeaturedPayment(e.data.metadata) then Handled("featured_payment")
       else Handled("payment_intent.succeeded"))
    else if e.eventType == "payment_intent.payment_failed" then Handled("payment_intent.failed")
    else Ignored(e.eventType)
  }

  /** `.update({"payment_status": s}).eq("stripe_payment_intent_id", id)`:
      every booking of the intent takes the status. */
  function SetStatusByIntent(bookings: seq<FeaturedBooking>, intentId: string, s: PaymentStatus)
    : (r: seq<FeaturedBooking>)
    ensures |r| == |bookings|
    ensures forall k :: 0 <= k < |bookings| ==>
              r[k] == if bookings[k].paymentIntentId == Some(intentId) then bookings[k].(paymentStatus := s)
                      else bookings[k]
  {
    seq(|bookings|, k requires 0 <= k < |bookings| =>
      if bookings[k].paymentIntentId == Some(intentId) then bookings[k].(paymentStatus := s) else bookings[k])
  }

  /** The `subscriptions` table after the event's action at `now`. */
  function SubscriptionsAfter(rows: seq<Subscription>, a: Action, now: int): (r: seq<Subscription>)
    ensures a.NoAction? || a.SetIntentStatus? ==> r == rows
    ensures |r| == |rows|
    ensures a.FailInvoice? && SubscriptionService.FindByStripeCustomer(rows, a.customer).Some? ==>
              forall k :: 0 <= k < |rows| ==>
                r[k].status == (if rows[k].id == SubscriptionService.FindByStripeCustomer(rows, a.customer).value.id
                                then PastDue else rows[k].status)
    ensures a.DeleteSubscription? && SubscriptionService.FindByStripeSubscription(rows, a.subscriptionId).Some? ==>
              forall k :: 0 <= k < |rows| ==>
                r[k].status == (if rows[k].id == SubscriptionService.FindByStripeSubscription(rows, a.subscriptionId).value.id
                                then Canceled else rows[k].status)
  {
    match a
    case UpdateSubscription(ps) => SubscriptionService.ProviderUpdatedRows(rows, ps)
    case DeleteSubscription(id) => SubscriptionService.ProviderDeletedRows(rows, id, now)
    case FailInvoice(customer) => SubscriptionService.PaymentFailedRows(rows, customer)
    case _ => rows
  }

  /** The `featured_bookings` table after the event's action. */
  function BookingsAfter(bookings: seq<FeaturedBooking>, a: Action): (r: seq<FeaturedBooking>)
    ensures !a.SetIntentStatus? ==> r == bookings
    ensures a.SetIntentStatus? ==> |r| == |bookings|
    ensures a.SetIntentStatus? ==>
              forall k :: 0 <= k < |bookings| ==>
                r[k].id == bookings[k].id
                && r[k].paymentStatus == (if bookings[k].paymentIntentId == Some(a.intentId) then a.status
                                          else bookings[k].paymentStatus)
  {
    match a
    case SetIntentStatus(id, s) => SetStatusByIntent(bookings, id, s)
    case _ => bookings
  }

  /** `stripe_webhook`.  A missing or empty signature and a payload the
      provider rejects are answered with 400 and change nothing. */
  method StripeWebhook(db: Database, signature: Option<string>, construction: Construction, now: int)
    returns (reply: Reply)
    requires db.Valid()
    requires construction.Constructed? ==> WellFormed(construction.event)
    modifies db`subscriptions, db`bookings
    ensures db.Valid()
    ensures !HasText(signature) ==>
              reply == BadRequest("Missing Stripe-Signature header")
              && db.subscriptions == old(db.subscriptions) && db.bookings == old(db.bookings)
    ensures HasText(signature) && construction.SignatureRejected? ==>
              reply == BadRequest("Invalid webhook signature")
              && db.subscriptions == old(db.subscriptions) && db.bookings == old(db.bookings)
    ensures HasText(signature) && construction.PayloadRejected? ==>
              reply == BadRequest(construction.message)
              && db.subscriptions == old(db.subscriptions) && db.bookings == old(db.bookings)
    ensures HasText(signature) && construction.Constructed? ==>
              var e := construction.event;
              reply == EventReply(e)
              && db.subscriptions == SubscriptionsAfter(old(db.subscriptions), Dispatch(e), now)
              && db.bookings == BookingsAfter(old(db.bookings), Dispatch(e))
  {
    if !HasText(signature) {
      return BadRequest("Missing Stripe-Signature header");
    }
    match construction {
      case SignatureRejected =>
        return BadRequest("Invalid webhook signature");
      case PayloadRejected(message) =>
        return BadRequest(message);
      case Constructed(e) =>
        var action := Dispatch(e);
        match action {
          case UpdateSubscription(ps) =>
            var _ := SubscriptionService.HandleSubscriptionUpdated(db, ps);
          case DeleteSubscription(id) =>
            var _ := SubscriptionService.HandleSubscriptionDeleted(db, id, now);
          case FailInvoice(customer) =>
            var _ := SubscriptionService.HandlePaymentFailed(db, customer);
          case SetIntentStatus(id, s) =>
            SetIntentStatusKeepsKeys(db.bookings, id, s);
            db.bookings := SetStatusByIntent(db.bookings, id, s);
          case NoAction =>
        }
        reply := EventReply(e);
    }
  }

  lemma SetIntentStatusKeepsKeys(bookings: seq<FeaturedBooking>, intentId: string, s: PaymentStatus)
    ensures DistinctBookingIds(bookings) ==> DistinctBookingIds(SetStatusByIntent(bookings, intentId, s))
  {
    var r := SetStatusByIntent(bookings, intentId, s);
    assert forall k :: 0 <= k < |bookings| ==> r[k].id == bookings[k].id;
  }

  /** Delivering the same event twice leaves `featured_bookings` as the first
      delivery left it. */
  lemma BookingsReplay(bookings: seq<FeaturedBooking>, e: Event)
    requires WellFormed(e)
    ensures BookingsAfter(BookingsAfter(bookings, Dispatch(e)), Dispatch(e)) == BookingsAfter(bookings, Dispatch(e))
  {
    var a := Dispatch(e);
    if a.SetIntentStatus? {
      var once := SetStatusByIntent(bookings, a.intentId, a.status);
      assert SetStatusByIntent(once, a.intentId, a.status) == once;
    }
  }

  /** A second delivery of a subscription update, payment failure or
      payment-intent event leaves `subscriptions` as the first left it. */
  lemma {:induction false} SubscriptionsReplay(rows: seq<Subscription>, e: Event, first: int, second: int)
    requires WellFormed(e) && e.eventType != "customer.subscription.deleted"
    ensures SubscriptionsAfter(SubscriptionsAfter(rows, Dispatch(e), first), Dispatch(e), second)
            == SubscriptionsAfter(rows, Dispatch(e), first)
  {
    match Dispatch(e)
    case UpdateSubscription(ps) =>
      SubscriptionService.ProviderUpdateReplay(rows, ps);
    case FailInvoice(customer) =>
      SubscriptionService.PaymentFailedReplay(rows, customer);
    case _ =>
  }
}
