# LocalSquares backend rules in Dafny

LocalSquares runs neighbourhood pin boards. Merchants subscribe, pin listings
to boards, and book a paid featured spot for a day. This project models the rule
set of its backend services:

- the subscription lifecycle: trial, conversion, upgrade, cancellation,
  reactivation, the status checks and the trial-expiry sweep;
- the featured-booking calendar;
- the dispatch of payment-provider webhook events;
- the deterministic skeleton of the pin rotation;
- the ownership-gated pin operations;
- the analytics bookkeeping;
- the header, role and CORS parsers, and the field constraints of the request
  models.

The rules are proved as contracts of the model.

The database is the class `Store.Database`. It has one `seq` field per table
(`subscriptions`, `pins`, `pin_slots`, `featured_bookings`, `impressions`,
`clicks`), and its rows are in the order the database returns them. A service
operation that writes is a method with a `modifies` clause naming only the
tables it changes. Its contract states the whole new table as a function of
the old one. Every such method keeps `Valid()`, which says the primary keys
are distinct. Each query `.select(...).eq(...)` is a function over the rows.
A single-row lookup returns the first match, which is what
`response.data[0]` reads.

The outside world comes in as parameters:

- Time is an integer clock: instants in seconds, dates as day numbers.
- What the payment provider returned or raised is an input, as are the JWT
  library's verdict on a token and the outcome of an analytics insert.
- New keys are parameters that the caller proves fresh.
- Each random choice, in the shuffle and in the featured position, is an
  arbitrary choice.

One module per source file: `SubscriptionService`, `FeaturedService`,
`RotationService`, `Webhooks`, `PinService`, `AnalyticsService`, `Auth`,
`Config`, `SubscriptionModels`, `PinModels`, `BoardModels`. `Store` holds the
tables and `Common` the shared values.

Where the code and its descriptions disagree, the model follows the code:

- `reactivate_subscription` only checks the deferred-cancellation flag.
- `convert_trial_to_paid` also accepts a past-due subscription.
- `confirm_booking` overwrites any payment status, so confirming a failed
  booking can give a day two holding bookings (`ConfirmFailedBreaksExclusive`).
- A second `customer.subscription.deleted` delivery moves `canceled_at`.
- The click histogram reads rows through `.select("click_type")`, so the "pin"
  default of `get(..., "pin")` never applies.
- Slot allocation, impression-counter increments, pending-booking
  reconciliation, grace periods and an automatic rollover at period end have
  no code in these services and are not modelled.

## Model

| member | source | states |
|---|---|---|
| Common.NonNegative | backend/app/services/subscription_service.py:296 | `max(0, n)`: never negative, equal to `n` when `n` is not negative |
| Common.SliceTo | backend/app/services/rotation_service.py:128 | `s[:limit]` is a prefix of `s`, of length `min(limit, len)` for a non-negative limit and `len + limit` (at least 0) for a negative one |
| Common.InsertAt | backend/app/services/rotation_service.py:125 | `list.insert(i, x)`: `x` at index `i`, the elements before and after kept in order, the multiset grown by exactly `x` |
| SubscriptionModels.ParsePlan | backend/app/models/subscription.py:10 | the plan pattern accepts exactly "trial", "monthly" and "annual", and the accepted name is the plan's own name |
| SubscriptionModels.PlanNameRoundTrip | backend/app/models/subscription.py:10 | every plan's name parses back to that plan |
| SubscriptionModels.ParseUpgradePlan | backend/app/models/subscription.py:52-54 | an upgrade request accepts exactly "monthly" and "annual"; it never yields the trial plan and agrees with the plan pattern |
| SubscriptionModels.ParseSubscriptionCreate | backend/app/models/subscription.py:13-17 | a trial-start body is valid iff it carries a payment method id; name and phone are optional and kept |
| SubscriptionModels.SubscriptionWithDefaults | backend/app/models/subscription.py:20-30 | a response built from its required fields has `cancel_at_period_end` false and no trial end or cancellation time |
| SubscriptionModels.AvailabilityWithDefault | backend/app/models/subscription.py:98-102 | `booked_by_user` defaults to false |
| PinModels.ParsePinStatus | backend/app/models/pin.py:36 | the status pattern accepts exactly draft, active, paused, archived and reported |
| PinModels.PinStatusNameRoundTrip | backend/app/models/pin.py:36 | every pin status's name parses back to it |
| PinModels.PinCreateWithDefaults | backend/app/models/pin.py:16-23 | omitted optional fields give no caption or thumbnail, empty metadata and `featured` false; with a valid title the request is valid |
| PinModels.PinWithDefaults | backend/app/models/pin.py:40-45 | a stored pin takes every request field (board, title, caption, image and thumbnail URLs, metadata, featured flag), its new key and owner, starts active with zero view and click counts, no expiry, subscription or impression reset, created and updated now; a valid request gives a valid pin |
| PinModels.ApplyPinUpdate | backend/app/models/pin.py:30-37 | an empty update changes nothing; each set field (title, caption, image URL, thumbnail URL, metadata, status, featured) replaces its column and every unset one keeps it; keys, owner, board, counters, timestamps, expiry, subscription and impression columns are kept |
| PinModels.UpdateKeepsPinValid | backend/app/models/pin.py:30-32 | an update within the title and caption length limits keeps a pin within them |
| BoardModels.BoardCreateWithDefaults | backend/app/models/board.py:7-13 | an omitted `grid_cols` is 3, which lies in 1..6; no description; empty metadata |
| BoardModels.ApplyBoardUpdate | backend/app/models/board.py:20-24 | an update never touches id, neighbourhood, slug or `grid_rows`, and leaves `grid_cols` alone when it is unset |
| BoardModels.AnySubsetOfFieldsUpdatable | backend/app/models/board.py:20-24 | every field is optional: any target that differs only in updatable columns is reached by the update setting just those fields |
| BoardModels.UpdateKeepsBoardValid | backend/app/models/board.py:23-29 | an update whose `grid_cols` is in 1..6 (or absent) keeps a board's columns in 1..6; `grid_rows` never matters |
| BoardModels.NullGridColsPassesValidation | backend/app/models/board.py:23 | an explicit null `grid_cols` passes validation yet leaves the board without a column count |
| Store.PinIndex | backend/app/services/pin_service.py:31 | the position of the first pin with the key, or the table length when there is none |
| Store.FindPin | backend/app/services/pin_service.py:29-34 | `get_by_id`: none iff no row has the key; otherwise a row of the table with that key |
| Store.BoardActivePins | backend/app/services/pin_service.py:39-41 | a pin is in the result exactly when it is a row of the table, of the board and active; nothing exactly when the table has no such row |
| Store.BoardActivePinsCounts | backend/app/services/pin_service.py:39-41 | each active pin of the board appears in the result as often as in the table, any other pin never |
| Store.BoardActivePinsAppend | backend/app/services/pin_service.py:39-41 | the query keeps table order: for a table split in two, it answers the first part followed by the second |
| SubscriptionService.FindByUser | backend/app/services/subscription_service.py:26-31 | none iff the user has no row; otherwise a row of that user, and the head row when it is the user's |
| SubscriptionService.StripeCustomerIndex | backend/app/services/subscription_service.py:35-38 | the first row with the provider customer id, or the length |
| SubscriptionService.FindByStripeCustomer | backend/app/services/subscription_service.py:33-38 | none iff no row has the customer id; otherwise a row with it |
| SubscriptionService.StripeSubscriptionIndex | backend/app/services/subscription_service.py:42-45 | the first row with the provider subscription id, or the length |
| SubscriptionService.FindByStripeSubscription | backend/app/services/subscription_service.py:40-45 | none iff no row has the subscription id; otherwise a row with it |
| SubscriptionService.ApplySubPatch | backend/app/services/subscription_service.py:336-338 | an update never changes a row's key, user or provider references, nor its period when the update leaves the period out |
| SubscriptionService.UpdateWhereUser | backend/app/services/subscription_service.py:178-180 | `.update(...).eq("user_id", ...)` patches every row of the user and keeps all others |
| SubscriptionService.UpdateWhereId | backend/app/services/subscription_service.py:336-338 | `.update(...).eq("id", ...)` patches the row with the key and keeps all others |
| SubscriptionService.PatchKeepsInvariants | backend/app/services/subscription_service.py:178-180 | updates keep keys distinct and one subscription per user, and keep every period ordered unless they set the period |
| SubscriptionService.InsertKeepsOnePerUser | backend/app/services/subscription_service.py:65-67 | inserting for a user with no subscription keeps one subscription per user |
| SubscriptionService.NewTrialRow | backend/app/services/subscription_service.py:94-107 | a new trial is an active trial plan, with period start `now` and period end and trial end both `now` plus 7 days, so the period end is after the start |
| SubscriptionService.StartTrial | backend/app/services/subscription_service.py:49-118 | an existing subscription fails with nothing inserted; a row is inserted iff the fee payment returned "succeeded" and the provider subscription was created; the row is the new trial; one-per-user and ordered periods are kept |
| SubscriptionService.StartDemoTrial | backend/app/services/subscription_service.py:120-152 | succeeds iff the user has no subscription, and then appends the trial row without provider references; otherwise changes nothing |
| SubscriptionService.InsertRow | backend/app/services/subscription_service.py:109-113 | appends the row and keeps keys distinct, one subscription per user and ordered periods |
| SubscriptionService.UpdateUser | backend/app/services/subscription_service.py:178-182 | the table becomes the user-keyed update, and the result is the user's first row patched |
| SubscriptionService.ConvertTrialToPaid | backend/app/services/subscription_service.py:156-182 | succeeds iff the subscription exists and is active or past due; it then sets the plan and clears the trial end and nothing else, the status included; on failure nothing changes |
| SubscriptionService.UpgradeToAnnual | backend/app/services/subscription_service.py:184-205 | needs a provider subscription on file, else fails with nothing changed; on success only the plan changes, to annual |
| SubscriptionService.CancelPatch | backend/app/services/subscription_service.py:230-236 | a deferred cancel only raises the flag; an immediate one also sets canceled and the cancellation time |
| SubscriptionService.CancelSubscription | backend/app/services/subscription_service.py:209-242 | fails only without a subscription or when the provider call raises, and then changes nothing; a deferred cancel keeps status and cancellation time; an immediate one cancels now |
| SubscriptionService.ReactivateSubscription | backend/app/services/subscription_service.py:244-265 | fails unless the deferred-cancel flag is set (the period end is not checked); on success it clears the flag and the cancellation time and keeps the status |
| SubscriptionService.IsSubscriptionActive | backend/app/services/subscription_service.py:269-274 | false without a subscription; when true some row of the user is active or past due; when the head row is the user's, true exactly when its status is active or past due |
| SubscriptionService.IsSubscriptionActiveIff | backend/app/services/subscription_service.py:269-274 | with one row per user, the check holds exactly when some row of the user is active or past due |
| SubscriptionService.DaysUntilTrialEnd | backend/app/services/subscription_service.py:288-296 | none iff there is no subscription or trial end; otherwise the whole days left, rounded down, and 0 once the trial end has passed |
| SubscriptionService.IsTrialActive | backend/app/services/subscription_service.py:276-286 | false without a subscription, off the trial plan or without a trial end; when true some row of the user is on the trial plan with the trial end still ahead; true when the head row is the user's, on the trial plan and before its trial end |
| SubscriptionService.FreshTrialWindow | backend/app/services/subscription_service.py:276-286 | a fresh trial is active exactly during its first seven days, with at most seven days left |
| SubscriptionService.StatusFromProvider | backend/app/services/subscription_service.py:310-321 | the status map: canceled only from "canceled", expired only from "incomplete_expired", past due from "past_due" or "unpaid", active from everything else |
| SubscriptionService.ProviderUpdatePatch | backend/app/services/subscription_service.py:320-334 | sets the mapped status, both period bounds and the flag; it changes a trial to monthly with no trial end exactly when the provider reports "active" |
| SubscriptionService.ProviderUpdatedRows | backend/app/services/subscription_service.py:305-307 | an unknown provider subscription id leaves the table unchanged; otherwise only the matched row changes, taking the mapped status, the period and the deferred-cancel flag |
| SubscriptionService.HandleSubscriptionUpdated | backend/app/services/subscription_service.py:300-340 | the reply is none iff no row matched; the matched row takes the mapped status and the provider's period; the table changes as `ProviderUpdatedRows` says |
| SubscriptionService.PatchAbsorbs | backend/app/services/subscription_service.py:336-338 | applying an update that sets a subset of the same values again changes nothing |
| SubscriptionService.ProviderUpdateReplay | backend/app/services/subscription_service.py:300-340 | delivering the same subscription update twice leaves the table as one delivery does |
| SubscriptionService.ProviderDeletedRows | backend/app/services/subscription_service.py:347-354 | an unknown provider subscription id leaves the table unchanged; otherwise only the matched row changes, becoming canceled at `now` |
| SubscriptionService.HandleSubscriptionDeleted | backend/app/services/subscription_service.py:342-356 | the matched row becomes canceled at `now`; none iff no row matched |
| SubscriptionService.ProviderDeleteReplayMovesCanceledAt | backend/app/services/subscription_service.py:351-354 | a second deletion event moves the cancellation time to the second delivery: the handler is not idempotent |
| SubscriptionService.PatchKeepsProviderLookups | backend/app/services/subscription_service.py:33-45 | a keyed update never changes which row a provider-id lookup finds |
| SubscriptionService.PaymentFailedRows | backend/app/services/subscription_service.py:364-370 | an unknown customer leaves the table unchanged; otherwise only the customer's row changes, becoming past due |
| SubscriptionService.PaymentFailedReplay | backend/app/services/subscription_service.py:358-372 | marking the customer's subscription past due twice is doing it once |
| SubscriptionService.UpdateWhereIdTwice | backend/app/services/subscription_service.py:368-370 | applying the same keyed update twice is applying it once |
| SubscriptionService.HandlePaymentFailed | backend/app/services/subscription_service.py:358-372 | the customer's subscription becomes past due and nothing else changes; none iff no row matched |
| SubscriptionService.EndedTrials | backend/app/services/subscription_service.py:385-391 | selects exactly the rows with a trial plan, active status and a trial end before `now` |
| SubscriptionService.ExpireIds | backend/app/services/subscription_service.py:396-398 | the selected rows become expired and every other row is kept |
| SubscriptionService.PausePinsOf | backend/app/services/subscription_service.py:401-405 | the pins of the selected subscriptions become paused and every other pin is kept |
| SubscriptionService.PauseSubscriptionPins | backend/app/services/subscription_service.py:401-405 | `.update(paused).eq("subscription_id", ...)` pauses the subscription's pins and keeps the rest |
| SubscriptionService.ExpireStep | backend/app/services/subscription_service.py:396-398 | expiring one more key extends the expired set by that key |
| SubscriptionService.PauseStep | backend/app/services/subscription_service.py:401-405 | pausing one more subscription's pins extends the paused set by it |
| SubscriptionService.EndedTrialIds | backend/app/services/subscription_service.py:385-391 | with distinct keys, a row's key is selected exactly when that row is an ended trial |
| SubscriptionService.ExpiryKeepsKeys | backend/app/services/subscription_service.py:396-405 | expiring and pausing keep the keys of both tables distinct |
| SubscriptionService.ExpireEach | backend/app/services/subscription_service.py:393-407 | the loop expires every selected subscription, pauses its pins and counts each once |
| SubscriptionService.ExpireEndedTrials | backend/app/services/subscription_service.py:376-409 | exactly the ended trials become expired and their pins paused; every other row of both tables is kept; the count is the number of ended trials |
| FeaturedService.Blocking | backend/app/services/featured_service.py:88-94 | the rows returned are exactly the pending or paid bookings of the board on that date |
| FeaturedService.IsDateAvailable | backend/app/services/featured_service.py:75-96 | false for today, earlier dates or more than 30 days ahead; inside the window, true iff no pending or paid booking of the board holds the date |
| FeaturedService.LastBooker | backend/app/services/featured_service.py:54-57 | the recorded booker is none iff no booking holds the date; otherwise the user of a holding booking |
| FeaturedService.ExclusiveBooker | backend/app/services/featured_service.py:54-57 | when each day has at most one holding booking, the recorded booker is that booking's user |
| FeaturedService.AvailableIffNoBooker | backend/app/services/featured_service.py:75-96 | inside the window, `is_date_available` agrees with the calendar's `booked_by is None` |
| FeaturedService.BookedDates | backend/app/services/featured_service.py:42-57 | the dictionary holds exactly the window dates that have a holding booking, each mapped to the recorded booker |
| FeaturedService.EntryMeaning | backend/app/services/featured_service.py:64-70 | an entry built from the recorded booker says whether the day is available and whether this user booked it |
| FeaturedService.GetAvailability | backend/app/services/featured_service.py:27-73 | one entry per day from tomorrow to today plus `min(days, 30)`, in order; each is available iff it is bookable and no booking holds it, and booked by the user iff the user is given and is the booker |
| FeaturedService.InsertAvailableKeepsExclusive | backend/app/services/featured_service.py:118-162 | inserting on a date reported available keeps at most one holding booking per board and day |
| FeaturedService.NewBooking | backend/app/services/featured_service.py:152-160 | the new booking is pending, costs 500 cents and holds its date |
| FeaturedService.CreateBooking | backend/app/services/featured_service.py:100-167 | inserts iff the subscription is live, the date is available, the pin exists and is the user's and on the board, a customer id is on file and the intent was created; without a live subscription it fails with `SubscriptionRequired`, and then on a taken date with `DateUnavailable`; a failure inserts nothing; exactly one pending row is appended; exclusivity is kept |
| FeaturedService.SetStatusById | backend/app/services/featured_service.py:171-173 | the booking with the key takes the status and all others are kept |
| FeaturedService.BookingIndex | backend/app/services/featured_service.py:207-209 | the first booking with the key, or the length |
| FeaturedService.FindBooking | backend/app/services/featured_service.py:207-214 | none iff no booking has the key |
| FeaturedService.SetStatusByIdIdempotent | backend/app/services/featured_service.py:169-175 | confirming twice is confirming once |
| FeaturedService.SetStatusKeepsKeys | backend/app/services/featured_service.py:171-173 | a status update keeps keys distinct |
| FeaturedService.ConfirmBooking | backend/app/services/featured_service.py:169-175 | the booking becomes paid whatever its status; none iff the key is unknown |
| FeaturedService.ConfirmHoldingKeepsExclusive | backend/app/services/featured_service.py:169-175 | confirming a pending or paid booking keeps exclusivity |
| FeaturedService.ConfirmFailedBreaksExclusive | backend/app/services/featured_service.py:171-173 | confirming a failed booking on a day another booking holds gives that day two holding bookings |
| FeaturedService.RemoveById | backend/app/services/featured_service.py:227-229 | a delete never grows the table |
| FeaturedService.RemovedIndex | backend/app/services/featured_service.py:227-229 | every remaining row is an old row with another key, at the same or a later position |
| FeaturedService.RemoveKeepsOthers | backend/app/services/featured_service.py:227-229 | every row with another key survives the delete |
| FeaturedService.RemoveKeepsKeys | backend/app/services/featured_service.py:227-229 | a delete keeps keys distinct |
| FeaturedService.RemoveKeepsExclusive | backend/app/services/featured_service.py:227-229 | a delete keeps exclusivity |
| FeaturedService.CancelBooking | backend/app/services/featured_service.py:198-231 | true iff the booking exists, is the user's and is after today; then exactly that key is deleted whatever its payment status; otherwise nothing changes; exclusivity is kept |
| FeaturedService.TodayFeaturedPin | backend/app/services/featured_service.py:235-251 | none when no paid booking of the board is for today; otherwise the table's pin named by the first such booking, found by key (none when that key is not in the table) |
| RotationService.WeightedShuffle | backend/app/services/rotation_service.py:165-201 | whichever item each draw takes, the result is a permutation of the input, and empty for empty input |
| RotationService.JoinedStatus | backend/app/services/rotation_service.py:55-57 | the embedded subscription status is none without a subscription key, otherwise the status of a subscription with that key |
| RotationService.FeaturedPinId | backend/app/services/rotation_service.py:68-81 | none iff no booking of the board is paid for today; otherwise the pin of such a booking |
| RotationService.Candidates | backend/app/services/rotation_service.py:102-116 | the shuffled pins come from the board's active pins, are eligible (no subscription, or an active or past-due one) and are never the featured pin; every eligible pin other than the featured one is kept |
| RotationService.CandidatesSnoc | backend/app/services/rotation_service.py:102-116 | one more pin is appended to the candidates exactly when it is eligible and not the featured pin |
| RotationService.CandidatesAppend | backend/app/services/rotation_service.py:102-116 | the loop keeps table order: the candidates of two runs of pins are those of the first followed by those of the second |
| RotationService.FeaturedAmong | backend/app/services/rotation_service.py:108-113 | the featured pin kept is an eligible board pin with the featured key, none without a featured booking, and some pin whenever an eligible pin carries the featured key |
| RotationService.TodayFeaturedPinIsRotationFeatured | backend/app/services/featured_service.py:235-251 | the featured-pin lookup and the rotation agree: it finds a pin exactly when the rotation's featured key names a pin of the table, and then the pin with that key |
| RotationService.FeaturedNotCandidate | backend/app/services/rotation_service.py:110-113 | the featured pin never enters the shuffle |
| RotationService.SplitFeatured | backend/app/services/rotation_service.py:99-116 | the loop collects exactly the candidates and sets the featured pin aside |
| RotationService.FeaturedSlot | backend/app/services/rotation_service.py:123-124 | the insert position is the drawn position cut down to the shuffle's length |
| RotationService.InsertFeatured | backend/app/services/rotation_service.py:121-125 | the rotation is the candidates in some order, plus the featured pin once at index `min(choice, len)` when there is one |
| RotationService.GetRotatedPins | backend/app/services/rotation_service.py:34-128 | empty when the board has no active pins; at most `limit` pins; a prefix of a rotation that holds exactly the candidates and the featured pin once at its slot |
| RotationService.UtcSuffix | backend/app/services/rotation_service.py:209-210 | a trailing "Z" is rewritten to "+00:00"; other strings are kept; the result never ends in "Z" |
| RotationService.UtcSuffixIdempotent | backend/app/services/rotation_service.py:209-210 | rewriting twice is rewriting once |
| RotationService.ParseDatetime | backend/app/services/rotation_service.py:203-213 | none for a missing or empty string; otherwise the ISO parse of the rewritten string |
| RotationService.StalePins | backend/app/services/rotation_service.py:243-246 | selects exactly the pins last reset before the cutoff |
| RotationService.ResetPin | backend/app/services/rotation_service.py:253-256 | a reset pin has a zero 24h counter and a reset time of `now`, and keeps its key, board and status |
| RotationService.ResetIds | backend/app/services/rotation_service.py:252-256 | the selected pins are reset and all others kept |
| RotationService.ResetWhereId | backend/app/services/rotation_service.py:253-256 | the keyed update resets the pin with the key and keeps the rest |
| RotationService.ResetStep | backend/app/services/rotation_service.py:252-256 | resetting one more key extends the reset set by it |
| RotationService.StaleIds | backend/app/services/rotation_service.py:244-246 | with distinct keys, a pin's key is selected exactly when the pin is stale |
| RotationService.ResetKeepsKeys | backend/app/services/rotation_service.py:253-256 | a reset keeps pin keys distinct |
| RotationService.ResetEach | backend/app/services/rotation_service.py:251-256 | the loop resets every selected pin |
| RotationService.ResetDailyImpressions | backend/app/services/rotation_service.py:234-258 | exactly the pins last reset more than 24 hours ago are reset at `now`, every other pin is kept, and the count is their number |
| Webhooks.Dispatch | backend/app/api/v1/webhooks.py:53-113 | each subscription and invoice-failure event has its own action; a payment-intent event sets its bookings to paid or failed iff its metadata type is "featured"; all other events do nothing |
| Webhooks.EventReply | backend/app/api/v1/webhooks.py:53-113 | the six handled types are answered as handled, every other type as ignored with its own name |
| Webhooks.SetStatusByIntent | backend/app/api/v1/webhooks.py:86-90 | every booking with the intent id takes the status and all others are kept |
| Webhooks.SubscriptionsAfter | backend/app/api/v1/webhooks.py:54-73 | payment-intent events and events without an action leave `subscriptions` unchanged; a deletion cancels and an invoice failure marks past due only the matched row; no event changes the length |
| Webhooks.BookingsAfter | backend/app/api/v1/webhooks.py:76-110 | only featured payment-intent events change `featured_bookings`: exactly the bookings with the intent id take the new status; keys and length are kept |
| Webhooks.StripeWebhook | backend/app/api/v1/webhooks.py:14-113 | a missing signature, a rejected signature or a rejected payload gives 400 and changes nothing; otherwise the reply and both tables are those of the dispatched action |
| Webhooks.SetIntentStatusKeepsKeys | backend/app/api/v1/webhooks.py:104-108 | a status update by intent keeps booking keys distinct |
| Webhooks.BookingsReplay | backend/app/api/v1/webhooks.py:76-110 | delivering the same event twice leaves `featured_bookings` as one delivery does |
| Webhooks.SubscriptionsReplay | backend/app/api/v1/webhooks.py:54-73 | delivering any event but a deletion twice leaves `subscriptions` as one delivery does |
| PinService.WantedStatus | backend/app/services/pin_service.py:20-23 | the given status, or "active" when none or an empty one is given |
| PinService.Listing | backend/app/services/pin_service.py:15-23 | a pin is listed iff it is in the table and passes the board and status filters |
| PinService.ConsNewest | backend/app/services/pin_service.py:25 | a pin no older than the head may lead a newest-first list |
| PinService.InsertNewest | backend/app/services/pin_service.py:25 | insertion keeps the list newest first and adds exactly that pin |
| PinService.SortNewestFirst | backend/app/services/pin_service.py:25 | the order is newest first and a permutation of the input |
| PinService.GetAll | backend/app/services/pin_service.py:13-27 | newest first, a permutation of the filtered pins, and a pin is returned iff it passes the filters |
| PinService.GetAllDefaultsToActive | backend/app/services/pin_service.py:20-23 | without a status filter exactly the active pins (of the board, when given) are returned |
| PinService.FirstSlot | backend/app/services/pin_service.py:51-52 | the first slot row of the pin; none iff it has no slot |
| PinService.WithSlot | backend/app/services/pin_service.py:48-56 | a grid row carries the first slot's row and column, or neither when the pin has no slot |
| PinService.GetForBoardGrid | backend/app/services/pin_service.py:36-59 | one row per active pin of the board, in table order, each with its first slot |
| PinService.StoredMetadata | backend/app/services/pin_service.py:65 | the request's metadata, or an empty one |
| PinService.Create | backend/app/services/pin_service.py:61-68 | appends one pin owned by the caller with the request's board, title, caption, image and thumbnail URLs, featured flag and the stored metadata; it is active with zero counters, no expiry or subscription, created and updated now; a valid request gives a valid pin |
| PinService.UpdatePinsById | backend/app/services/pin_service.py:90 | the pin with the key takes the update and every other pin is kept |
| PinService.UpdateFindsUpdatedPin | backend/app/services/pin_service.py:90-92 | after the update the key finds the old pin with the update applied, and keys stay distinct |
| PinService.Update | backend/app/services/pin_service.py:70-93 | when a user is given and the pin is missing or someone else's, none and nothing changes; an empty update returns the current pin unchanged; otherwise only the set fields of that pin change |
| PinService.RemovePinsById | backend/app/services/pin_service.py:102 | exactly the rows with other keys remain; the table shrinks iff the key existed |
| PinService.RemoveKeepsKeys | backend/app/services/pin_service.py:102 | a delete keeps pin keys distinct |
| PinService.Delete | backend/app/services/pin_service.py:95-103 | a failed ownership check returns false and removes nothing; otherwise true iff a row with the key was removed |
| PinService.DeleteRemovesExactlyThePin | backend/app/services/pin_service.py:102-103 | after the delete no pin has the key and every other pin remains |
| AnalyticsService.StripNone | backend/app/services/analytics_service.py:35 | the record keeps exactly the fields whose value is not None, with their values |
| AnalyticsService.StripNoneRoundTrip | backend/app/services/analytics_service.py:35 | stripping undoes reading a record as optional fields, and stripping twice is stripping once |
| AnalyticsService.TrackImpression | backend/app/services/analytics_service.py:12-41 | true iff the insert returned a row; when the client raises, false with nothing stored; otherwise the stripped record is appended |
| AnalyticsService.ImpressionRecordFields | backend/app/services/analytics_service.py:24-35 | an impression record has the pin and board keys, and each optional field exactly when it was given |
| AnalyticsService.NormalizeClickType | backend/app/services/analytics_service.py:55-56 | the stored type is always one of the five, and equals the given one iff the given one is among them |
| AnalyticsService.NormalizeClickTypeIdempotent | backend/app/services/analytics_service.py:55-56 | normalising twice is normalising once; unknown types become "pin" |
| AnalyticsService.TrackClick | backend/app/services/analytics_service.py:43-75 | like impressions, with the click type normalised |
| AnalyticsService.ClickRecordHasType | backend/app/services/analytics_service.py:55-69 | every click record carries one of the five types, the given one when it is valid |
| AnalyticsService.RowsOfPin | backend/app/services/analytics_service.py:84-86 | exactly the records of the pin |
| AnalyticsService.RowsOfPinCounts | backend/app/services/analytics_service.py:84-86 | each record of the pin is kept as often as it occurs, any other record never |
| AnalyticsService.ClickTypeRow | backend/app/services/analytics_service.py:98-100 | a row of `.select("click_type")` always has the key, null when the record has no type |
| AnalyticsService.ClickTypeOf | backend/app/services/analytics_service.py:104 | `get("click_type", "pin")`: the row's value, or "pin" when the key is absent |
| AnalyticsService.Count | backend/app/services/analytics_service.py:102-105 | a type's count never exceeds the number of rows |
| AnalyticsService.Bump | backend/app/services/analytics_service.py:105 | `d[t] = d.get(t, 0) + 1` adds `t` to the keys, raises its count by one and keeps the others |
| AnalyticsService.SumValuesBump | backend/app/services/analytics_service.py:105 | one bump raises the sum of the counts by one |
| AnalyticsService.CountStep | backend/app/services/analytics_service.py:102-105 | one more row bumps exactly its own type's count |
| AnalyticsService.ClicksByType | backend/app/services/analytics_service.py:102-105 | the histogram has a key iff some row has that type, each count is the number of such rows, and the counts sum to the number of rows |
| AnalyticsService.ClickTypeRows | backend/app/services/analytics_service.py:98-100 | one projected row per click record |
| AnalyticsService.ClickTypeOfSelectedRow | backend/app/services/analytics_service.py:98-104 | through the projection, a record counts under its own type, or under null without one |
| AnalyticsService.GetPinStats | backend/app/services/analytics_service.py:77-120 | when a query raises, zeros and an empty histogram; otherwise the pin's impression and click counts, a histogram summing to the click count, and per-type counts |
| Auth.RemoveAll | backend/app/core/auth.py:58 | `str.replace(p, "")` never lengthens the text |
| Auth.RemoveAllWithoutOccurrence | backend/app/core/auth.py:58 | a text without the pattern is left as it is |
| Auth.BearerToken | backend/app/core/auth.py:58 | the token is the header with every "Bearer " removed, never longer than the header |
| Auth.BearerTokenDropsRepeatedPrefix | backend/app/core/auth.py:58 | for any header, one more "Bearer " in front does not change the token |
| Auth.BearerTokenOfRepeatedPrefix | backend/app/core/auth.py:58 | any number of "Bearer " prefixes in front of a token free of the prefix leave just the token |
| Auth.BearerTokenOfPlainHeader | backend/app/core/auth.py:51-58 | for "Bearer " followed by a token free of the prefix, the token is what follows |
| Auth.BearerTokenRemovesEveryOccurrence | backend/app/core/auth.py:58 | the token of "Bearer Bearer x" is "x", not "Bearer x" |
| Auth.Role | backend/app/core/auth.py:102-109 | the app-metadata role, else the user-metadata role, else "merchant" |
| Auth.UserOfToken | backend/app/core/auth.py:60-119 | a user iff the library accepted the token and it has a non-empty subject; an unreadable header, a rejected token and a missing subject each give their 401 with its detail |
| Auth.GetCurrentUser | backend/app/core/auth.py:36-119 | a missing header and one not starting with "Bearer " give their 401s; otherwise the answer for the extracted token; every error is a 401 |
| Auth.GetCurrentUserOptional | backend/app/core/auth.py:122-136 | none exactly when `get_current_user` raises, and always for a missing header; otherwise the same user |
| Auth.RequireAdmin | backend/app/core/auth.py:139-151 | succeeds iff the current user resolves and has role "admin"; otherwise 403, or the 401 of resolution passed through |
| Auth.AdminComesFromMetadata | backend/app/core/auth.py:109 | an app-metadata admin role is admin whatever the user metadata says; a token with no role is never admin |
| Config.Split | backend/app/core/config.py:46 | `str.split(sep)`: at least one piece, no piece holds the separator, and joining the pieces gives the text back |
| Config.SplitJoin | backend/app/core/config.py:46 | splitting a join of separator-free pieces gives the pieces back |
| Config.Strip | backend/app/core/config.py:46 | `str.strip()`: no whitespace at either end, characters only from the input, empty iff the input is all whitespace, and a text without surrounding whitespace is kept |
| Config.StripIsWindow | backend/app/core/config.py:46 | the stripped text is a slice of the input with only whitespace before and after it, which with the ends above fixes it completely |
| Config.TrailingOfSuffix | backend/app/core/config.py:46 | the trailing whitespace of a suffix ends the whole text, and the character before it is not whitespace |
| Config.StripIdempotent | backend/app/core/config.py:46 | stripping twice is stripping once |
| Config.StripAll | backend/app/core/config.py:46 | the kept origins are non-empty and trimmed, no more than the pieces, and comma-free when the pieces are |
| Config.StripAllSingle | backend/app/core/config.py:46 | one piece gives its stripped text, or nothing when that is empty |
| Config.StripAllAppend | backend/app/core/config.py:46 | pieces are stripped one by one in order: two runs of pieces give the origins of the first followed by those of the second |
| Config.ParseCorsOrigins | backend/app/core/config.py:39-47 | a list is kept; a string gives trimmed, non-empty, comma-free origins, no more than its pieces; any other value gives the two localhost origins |
| Config.ParseCorsOriginsOfPieces | backend/app/core/config.py:45-46 | the string joined from any comma-free pieces parses to exactly those pieces stripped, empty ones dropped, in order |
| Config.StripSpacedA | backend/app/core/config.py:46 | " a " strips to "a" |
| Config.StripSpacedB | backend/app/core/config.py:46 | "b " strips to "b" |
| Config.StripBlank | backend/app/core/config.py:46 | a lone space strips to the empty text |
| Config.JoinSpacedPieces | backend/app/core/config.py:46 | the pieces " a ", " " and "b " joined by commas give " a , ,b " |
| Config.StripAllSpacedTail | backend/app/core/config.py:46 | of " " and "b " only "b" is kept |
| Config.StripAllSpacedPieces | backend/app/core/config.py:46 | " a ", " " and "b " give "a" and "b" |
| Config.SpacedOriginsParse | backend/app/core/config.py:45-46 | the string " a , ,b " parses to "a" and "b": spaces and empty pieces are dropped |
| Config.StripAllOfTrimmed | backend/app/core/config.py:46 | trimmed pieces are kept as they are, in order |
| Config.ParseJoinedOrigins | backend/app/core/config.py:45-46 | parsing the comma-join of trimmed, comma-free origins gives them back in order |
| Config.DefaultIsJoined | backend/app/core/config.py:18 | the default setting is the two localhost origins joined by a comma |
| Config.FallbackOriginsClean | backend/app/core/config.py:47 | the two fallback origins are trimmed and comma-free |
| Config.DefaultParsesToLocalOrigins | backend/app/core/config.py:18 | the default string parses to "http://localhost:3000" and "http://localhost:3001" |

## Left out

- Database and provider calls (Supabase query building, every provider call of `stripe_service.py`, `stripe.Customer.delete`) are not modelled. Their results are inputs.
- The HTTP routers, `board_service.py`, `image_service.py` and the scripts have no rules beyond pass-through.
- `get_user_bookings` and `record_impression` are plain queries or inserts with no rule.
- `_calculate_weight`, the seen-penalty query and `ctr` are floating-point heuristics and are not modelled.
- RotationService.WeightedShuffle: each step takes an arbitrary remaining item. The weighted probabilities, the all-zero-weights shuffle and a float draw that matches no item are not modelled.
- RotationService.GetRotatedPins: the featured position is an input below 4. Only the multiset of the rotation and the featured slot are stated, not the order of the shuffle.
- RotationService.ParseDatetime: `datetime.fromisoformat` is the parameter `fromIso`, with none for a `ValueError`.
- Verifying JWT signatures, the cached JWKS client and the algorithm switch are the library's job. `Auth.GetCurrentUser` takes the library's verdict on the token as a parameter.
- Auth.UserOfToken: a subject that is not a UUID (a `ValueError`, answered with 500) and JWKS errors that are not `InvalidTokenError` are not modelled.
- Webhooks.StripeWebhook: an event is required to carry an object of the kind its type promises.
- SubscriptionService.StartTrial: a failure of the customer creation, which happens before the trial payment, is not modelled. The customer id is an input.
- SubscriptionService.ExpireEndedTrials: the per-row updates are written to the tables once, at the end of the loop. The final state is the one the sequential updates reach.
- RotationService.ResetDailyImpressions: the same single write at the end of the loop.
- FeaturedService.CreateBooking: the race between the availability check and the insert needs concurrency and is not modelled. Exclusivity is proved for sequential calls only.
- FeaturedService.CancelBooking: refunds are a TODO in the source and are not modelled.
- PinModels.ApplyPinUpdate: an explicit null `title`, `image_url`, `status` or `featured` in an update is not modelled. These columns are not nullable.
- PinService.GetAll: pins created at the same instant come in an order the model fixes; the database leaves it open.
- AnalyticsService.GetPinStats: the `days` argument and the midnight cutoff are computed but never applied by the source, so they are not parameters. A response without `count` is not modelled.
- Dates are day numbers and instants are seconds. ISO string formatting and time zones are not modelled.
