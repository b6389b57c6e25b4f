/**
 * The booking HTTP handlers: `createBooking`, `updateBookingStatus`,
 * `confirmPayment` and `getAvailableSlots`. Each handler is a method on the
 * booking store, proved against a function that states its whole outcome;
 * the lemmas state what those outcomes guarantee.
 *
 * The payment gateway, the current instant and the ids the database assigns
 * are parameters; e-mail notifications are not modelled.
 */
module BookingController {
  import opened Common
  import opened Clock
  import Courts
  import Facilities
  import opened Bookings

  /** The responses other than success, one per message the handlers send. */
  datatype HttpError =
    | ValidationFailed          // 400 'Validation failed'
    | CourtNotFound             // 404
    | CourtFacilityMismatch     // 400 'Court does not belong to the specified facility'
    | CourtUnavailable          // 400 'Court is not available at the requested time'
    | SlotAlreadyBooked         // 400 'Time slot is already booked'
    | PaymentSetupFailed(message: string)         // 400
    | InvalidStatus             // 400
    | BookingNotFound           // 404
    | NotAuthorized             // 403
    | NotCancellable            // 400 'Booking cannot be cancelled at this time'
    | InvalidSignature          // 400
    | PaymentConfirmationFailed(message: string)  // 400
    | DateRequired              // 400
    | ServerError               // 500, any exception caught by the handler

  /** The court and facility documents the handlers look up, keyed by id. */
  predicate CatalogWellFormed(courts: map<Id, Courts.Court>, facilities: map<Id, Facilities.Facility>) {
    (forall id :: id in courts ==> Courts.WellFormed(courts[id])) &&
    (forall id :: id in facilities ==> Facilities.WellFormed(facilities[id]))
  }

  // ---------------------------------------------------------------------------
  // createBooking
  // ---------------------------------------------------------------------------

  /**
   * The body of `POST /api/bookings`; `equipment` may be absent, and so may
   * `paymentMethod`, which is passed on as text without any check.
   */
  datatype BookingRequest = BookingRequest(
    facility: Id,
    court: Id,
    day: int,
    startTime: string,
    endTime: string,
    participants: int,
    equipment: Option<seq<Equipment>>,
    paymentMethod: Option<string>)

  /** `paymentMethod = 'razorpay'`: the method's text, with the destructuring default when it is absent. */
  function MethodText(req: BookingRequest): string {
    match req.paymentMethod
    case None => "razorpay"
    case Some(name) => name
  }

  /** The request pays through Razorpay, so the handler creates a gateway order first. */
  predicate PaysByRazorpay(req: BookingRequest) {
    MethodText(req) == "razorpay"
  }

  /** The method the booking document gets, when the schema's enum accepts the text. */
  function MethodOf(req: BookingRequest): (m: Option<PaymentMethod>)
    ensures PaysByRazorpay(req) <==> m == Some(Razorpay)
    ensures req.paymentMethod.None? ==> m == Some(Razorpay)
  {
    ParsePaymentMethod(MethodText(req))
  }

  /** The route's validators: both times match the HH:MM pattern and there is at least one participant. */
  predicate RequestValid(req: BookingRequest) {
    IsTimeString(req.startTime) && IsTimeString(req.endTime) && req.participants >= 1
  }

  /** `equipment || []`. */
  function ItemsOf(equipment: Option<seq<Equipment>>): seq<Equipment> {
    match equipment
    case None => []
    case Some(items) => items
  }

  /** The rental cost of the equipment: the sum of `rentalPrice * quantity`. */
  function EquipmentSum(items: seq<Equipment>): (total: real)
    ensures (forall k :: 0 <= k < |items| ==> items[k].quantity >= 0 && items[k].rentalPrice >= 0.0) ==> total >= 0.0
    decreases |items|
  {
    if |items| == 0 then 0.0
    else
      var last := items[|items| - 1];
      EquipmentSum(items[..|items| - 1]) + last.rentalPrice * last.quantity as real
  }

  /** The cost of two lists of items is the sum of their costs, so the order of summing does not matter. */
  lemma {:induction false} EquipmentSumAppend(a: seq<Equipment>, b: seq<Equipment>)
    ensures EquipmentSum(a + b) == EquipmentSum(a) + EquipmentSum(b)
    decreases |b|
  {
    if |b| == 0 {
      assert a + b == a;
    } else {
      var b' := b[..|b| - 1];
      assert (a + b)[..|a + b| - 1] == a + b';
      assert (a + b)[|a + b| - 1] == b[|b| - 1];
      EquipmentSumAppend(a, b');
    }
  }

  /** The `equipment.forEach` loop of the handler. */
  method EquipmentCost(items: seq<Equipment>) returns (cost: real)
    ensures cost == EquipmentSum(items)
  {
    cost := 0.0;
    var k := 0;
    while k < |items|
      invariant 0 <= k <= |items|
      invariant cost == EquipmentSum(items[..k])
    {
      assert items[..k + 1][..k] == items[..k];
      cost := cost + items[k].rentalPrice * items[k].quantity as real;
      k := k + 1;
    }
    assert items[..k] == items;
  }

  /** The multiplier of a booking: the facility's when its start minute is in the peak window, else 1. */
  function PeakMultiplier(f: Facilities.Facility, startMinute: int): real
    requires Facilities.WellFormed(f)
  {
    if Facilities.IsPeakMinute(f, startMinute) then f.peakHourMultiplier else 1.0
  }

  /** `basePrice * duration * peakMultiplier`: the court time's share of the total. */
  function CourtCharge(hourlyRate: real, hours: real, multiplier: real): real {
    hourlyRate * hours * multiplier
  }

  /** The `bookingData` document the handler passes to `Booking.create`. */
  function RequestedBooking(req: BookingRequest, c: Courts.Court, f: Facilities.Facility, user: Id, newId: Id,
                            orderId: Option<string>): Booking
    requires RequestValid(req) && Facilities.WellFormed(f) && MethodOf(req).Some?
  {
    var duration := SlotHours(req.startTime, req.endTime);
    var multiplier := PeakMultiplier(f, Minutes(req.startTime));
    var items := ItemsOf(req.equipment);
    Booking(newId, user, req.facility, req.court, req.day,
            TimeSlot(req.startTime, req.endTime, duration),
            Pricing(c.hourlyRate, multiplier, CourtCharge(c.hourlyRate, duration, multiplier) + EquipmentSum(items)),
            Payment(MethodOf(req).value, PaymentPending, None, orderId, 0.0, None, 0.0, None),
            Pending, req.participants, items, None)
  }

  /** The `findOne` of the handler: an active booking of the court on the date overlapping the window. */
  predicate SlotTakenIn(bs: seq<Booking>, req: BookingRequest) {
    exists i :: 0 <= i < |bs| && ConflictsWith(bs[i], req.court, req.day, req.startTime, req.endTime)
  }

  /** The handler's checks before pricing, in order; `None` when all pass. */
  function Precheck(bs: seq<Booking>, courts: map<Id, Courts.Court>, facilities: map<Id, Facilities.Facility>,
                    req: BookingRequest): (r: Option<HttpError>)
    requires CatalogWellFormed(courts, facilities)
    ensures r.None? ==> RequestValid(req) && req.court in courts && courts[req.court].facility == req.facility &&
                        req.facility in facilities
    ensures r.None? ==> !SlotTakenIn(bs, req)
  {
    if !RequestValid(req) then Some(ValidationFailed)
    else if req.court !in courts then Some(CourtNotFound)
    else if courts[req.court].facility !in facilities then Some(ServerError)
    else if courts[req.court].facility != req.facility then Some(CourtFacilityMismatch)
    else if !Courts.IsAvailableAt(courts[req.court], req.day, req.startTime, req.endTime) then Some(CourtUnavailable)
    else if SlotTakenIn(bs, req) then Some(SlotAlreadyBooked)
    else None
  }

  /** The document passed to `Booking.create` once the checks have passed and the order exists. */
  function PricedBooking(courts: map<Id, Courts.Court>, facilities: map<Id, Facilities.Facility>,
                         user: Id, req: BookingRequest, newId: Id, order: Result<string, string>): Booking
    requires CatalogWellFormed(courts, facilities)
    requires RequestValid(req) && req.court in courts && req.facility in facilities
    requires MethodOf(req).Some? && (PaysByRazorpay(req) ==> order.Ok?)
  {
    var orderId := if PaysByRazorpay(req) then Some(order.value) else None;
    RequestedBooking(req, courts[req.court], facilities[req.facility], user, newId, orderId)
  }

  /**
   * The outcome of `createBooking` for a user, a fresh id, the current instant and
   * the outcome of creating the payment-gateway order (its id or its error message).
   */
  function PlanBooking(bs: seq<Booking>, courts: map<Id, Courts.Court>, facilities: map<Id, Facilities.Facility>,
                       user: Id, req: BookingRequest, newId: Id, now: int, order: Result<string, string>)
    : (r: Result<Booking, HttpError>)
    requires CatalogWellFormed(courts, facilities)
    ensures r.Ok? ==> Precheck(bs, courts, facilities, req).None?
    ensures r.Ok? ==> MethodOf(req).Some? && (PaysByRazorpay(req) ==> order.Ok?)
    ensures r.Ok? ==> CreateOutcome(bs, PricedBooking(courts, facilities, user, req, newId, order), now) == Ok(r.value)
  {
    match Precheck(bs, courts, facilities, req)
    case Some(e) => Err(e)
    case None =>
      if PaysByRazorpay(req) && order.Err? then Err(PaymentSetupFailed(order.error))
      else if MethodOf(req).None? then Err(ServerError)
      else
        match CreateOutcome(bs, PricedBooking(courts, facilities, user, req, newId, order), now)
        case Err(_) => Err(ServerError)
        case Ok(d) => Ok(d)
  }

  /** What a created booking holds: the requested slot, pending status and payment, and its price. */
  lemma CreatedBookingIsPriced(bs: seq<Booking>, courts: map<Id, Courts.Court>,
                               facilities: map<Id, Facilities.Facility>, user: Id,
                               req: BookingRequest, newId: Id, now: int, order: Result<string, string>)
    requires CatalogWellFormed(courts, facilities)
    requires PlanBooking(bs, courts, facilities, user, req, newId, now, order).Ok?
    ensures var b := PlanBooking(bs, courts, facilities, user, req, newId, now, order).value;
      && b.id == newId && b.user == user && b.court == req.court && b.facility == req.facility
      && b.day == req.day && b.day >= Today(now)
      && b.timeSlot.startTime == req.startTime && b.timeSlot.endTime == req.endTime
      && b.status == Pending && b.payment.status == PaymentPending
      && b.timeSlot.duration >= 0.5
      && b.timeSlot.duration * 60.0 == (Minutes(req.endTime) - Minutes(req.startTime)) as real
      && b.pricing.peakHourMultiplier == PeakMultiplier(facilities[req.facility], Minutes(req.startTime))
      && b.pricing.totalAmount ==
           CourtCharge(courts[req.court].hourlyRate, b.timeSlot.duration, b.pricing.peakHourMultiplier)
           + EquipmentSum(ItemsOf(req.equipment))
      && Some(b.payment.paymentMethod) == MethodOf(req)
      && (req.paymentMethod.None? ==> b.payment.paymentMethod == Razorpay)
      && (b.payment.razorpayOrderId.Some? <==> PaysByRazorpay(req))
  {
    var doc := PricedBooking(courts, facilities, user, req, newId, order);
    var b := PlanBooking(bs, courts, facilities, user, req, newId, now, order).value;
    assert Validate(doc, Today(now)) == Ok(b);
    assert b.timeSlot.duration == doc.timeSlot.duration && b.pricing == doc.pricing;
  }

  /** A created booking never overlaps an active one, so the collection stays free of double bookings. */
  lemma CreateBookingKeepsNoDoubleBooking(bs: seq<Booking>, courts: map<Id, Courts.Court>,
                                          facilities: map<Id, Facilities.Facility>, user: Id,
                                          req: BookingRequest, newId: Id, now: int, order: Result<string, string>)
    requires CatalogWellFormed(courts, facilities)
    requires NoDoubleBooking(bs)
    requires PlanBooking(bs, courts, facilities, user, req, newId, now, order).Ok?
    ensures NoDoubleBooking(bs + [PlanBooking(bs, courts, facilities, user, req, newId, now, order).value])
  {
    CreateKeepsNoDoubleBooking(bs, PricedBooking(courts, facilities, user, req, newId, order), now);
  }

  /**
   * A request whose end is not after its start passes the route's validators,
   * so it is never a validation failure; once the handler's own checks and the
   * payment order succeed, `Booking.create` refuses it and the answer is a
   * server error.
   */
  lemma EndNotAfterStartIsServerError(bs: seq<Booking>, courts: map<Id, Courts.Court>,
                                      facilities: map<Id, Facilities.Facility>, user: Id,
                                      req: BookingRequest, newId: Id, now: int, order: Result<string, string>)
    requires CatalogWellFormed(courts, facilities)
    requires RequestValid(req) && Minutes(req.endTime) <= Minutes(req.startTime)
    ensures PlanBooking(bs, courts, facilities, user, req, newId, now, order).Err?
    ensures PlanBooking(bs, courts, facilities, user, req, newId, now, order) != Err(ValidationFailed)
    ensures Precheck(bs, courts, facilities, req).None? && (PaysByRazorpay(req) ==> order.Ok?) ==>
              PlanBooking(bs, courts, facilities, user, req, newId, now, order) == Err(ServerError)
  {
  }

  /**
   * A payment method outside the schema's enum passes every check of the
   * handler, creates no gateway order, and is refused by `Booking.create`:
   * the answer is a server error and nothing is stored.
   */
  lemma UnknownPaymentMethodIsServerError(bs: seq<Booking>, courts: map<Id, Courts.Court>,
                                          facilities: map<Id, Facilities.Facility>, user: Id,
                                          req: BookingRequest, newId: Id, now: int, order: Result<string, string>)
    requires CatalogWellFormed(courts, facilities)
    requires Precheck(bs, courts, facilities, req).None?
    requires req.paymentMethod.Some? && ParsePaymentMethod(req.paymentMethod.value).None?
    ensures !PaysByRazorpay(req)
    ensures PlanBooking(bs, courts, facilities, user, req, newId, now, order) == Err(ServerError)
  {
  }

  /** Only the start minute decides the peak rate: a booking that starts before the peak window pays the base rate throughout. */
  lemma StartBeforePeakIsOffPeak(bs: seq<Booking>, courts: map<Id, Courts.Court>,
                                 facilities: map<Id, Facilities.Facility>, user: Id,
                                 req: BookingRequest, newId: Id, now: int, order: Result<string, string>)
    requires CatalogWellFormed(courts, facilities)
    requires PlanBooking(bs, courts, facilities, user, req, newId, now, order).Ok?
    requires Minutes(req.startTime) < Minutes(facilities[req.facility].peakStart)
    ensures PlanBooking(bs, courts, facilities, user, req, newId, now, order).value.pricing.totalAmount ==
            CourtCharge(courts[req.court].hourlyRate, SlotHours(req.startTime, req.endTime), 1.0) + EquipmentSum(ItemsOf(req.equipment))
  {
    CreatedBookingIsPriced(bs, courts, facilities, user, req, newId, now, order);
  }

  /** The handler's `findOne` for an active booking of the court on the date whose window meets the request's. */
  method FindConflict(bs: seq<Booking>, req: BookingRequest) returns (taken: bool)
    ensures taken == SlotTakenIn(bs, req)
  {
    taken := false;
    var k := 0;
    while k < |bs| && !taken
      invariant 0 <= k <= |bs|
      invariant taken <==> exists i :: 0 <= i < k && ConflictsWith(bs[i], req.court, req.day, req.startTime, req.endTime)
    {
      taken := ConflictsWith(bs[k], req.court, req.day, req.startTime, req.endTime);
      k := k + 1;
    }
  }

  /** The handler's checks, in order, up to the conflict query. */
  method CheckRequest(bs: seq<Booking>, courts: map<Id, Courts.Court>, facilities: map<Id, Facilities.Facility>,
                      req: BookingRequest) returns (e: Option<HttpError>)
    requires CatalogWellFormed(courts, facilities)
    ensures e == Precheck(bs, courts, facilities, req)
  {
    if !RequestValid(req) {
      return Some(ValidationFailed);
    }
    if req.court !in courts {
      return Some(CourtNotFound);
    }
    var c := courts[req.court];
    if c.facility !in facilities {
      return Some(ServerError);
    }
    if c.facility != req.facility {
      return Some(CourtFacilityMismatch);
    }
    if !Courts.IsAvailableAt(c, req.day, req.startTime, req.endTime) {
      return Some(CourtUnavailable);
    }
    var taken := FindConflict(bs, req);
    if taken {
      return Some(SlotAlreadyBooked);
    }
    return None;
  }

  /** `createBooking`: the handler's checks, the pricing, the payment order, then `Booking.create`. */
  method CreateBooking(store: Store, courts: map<Id, Courts.Court>, facilities: map<Id, Facilities.Facility>,
                       user: Id, req: BookingRequest, newId: Id, now: int, order: Result<string, string>)
    returns (r: Result<Booking, HttpError>)
    requires CatalogWellFormed(courts, facilities)
    modifies store
    ensures r == PlanBooking(old(store.bookings), courts, facilities, user, req, newId, now, order)
    ensures store.bookings == if r.Ok? then old(store.bookings) + [r.value] else old(store.bookings)
    ensures store.facilityTotals == old(store.facilityTotals) && store.courtTotals == old(store.courtTotals)
  {
    var check := CheckRequest(store.bookings, courts, facilities, req);
    if check.Some? {
      return Err(check.value);
    }
    var c := courts[req.court];
    var f := facilities[req.facility];
    var duration := SlotHours(req.startTime, req.endTime);
    var multiplier := if Facilities.IsPeakMinute(f, Minutes(req.startTime)) then f.peakHourMultiplier else 1.0;
    var items := ItemsOf(req.equipment);
    var equipmentCost := EquipmentCost(items);
    var finalAmount := CourtCharge(c.hourlyRate, duration, multiplier) + equipmentCost;
    var orderId: Option<string> := None;
    if PaysByRazorpay(req) {
      if order.Err? {
        return Err(PaymentSetupFailed(order.error));
      }
      orderId := Some(order.value);
    }
    var paidBy := ParsePaymentMethod(MethodText(req));
    if paidBy.None? {
      // `Booking.create` refuses a method outside the schema's enum.
      return Err(ServerError);
    }
    var doc := Booking(newId, user, req.facility, req.court, req.day,
                       TimeSlot(req.startTime, req.endTime, duration),
                       Pricing(c.hourlyRate, multiplier, finalAmount),
                       Payment(paidBy.value, PaymentPending, None, orderId, 0.0, None, 0.0, None),
                       Pending, req.participants, items, None);
    assert doc == PricedBooking(courts, facilities, user, req, newId, order);
    var created := store.Create(doc, now);
    match created {
      case Err(_) => r := Err(ServerError);
      case Ok(d) => r := Ok(d);
    }
  }

  // ---------------------------------------------------------------------------
  // updateBookingStatus
  // ---------------------------------------------------------------------------

  /** The schema's spelling of a status. */
  function StatusName(s: Status): string {
    match s
    case Pending => "pending"
    case Confirmed => "confirmed"
    case Cancelled => "cancelled"
    case Completed => "completed"
    case NoShow => "no_show"
  }

  /** The handler's `validStatuses`: every status but "pending". */
  function ParseStatus(text: string): (r: Option<Status>)
    ensures r.Some? ==> r.value != Pending && StatusName(r.value) == text
  {
    if text == "confirmed" then Some(Confirmed)
    else if text == "cancelled" then Some(Cancelled)
    else if text == "completed" then Some(Completed)
    else if text == "no_show" then Some(NoShow)
    else None
  }

  /** Every status but "pending" is accepted under its own name, and "pending" is refused. */
  lemma StatusNamesRoundTrip(s: Status)
    ensures ParseStatus(StatusName(s)) == if s == Pending then None else Some(s)
  {
  }

  /** `Booking.findById`: the position of the booking with the id, if any. */
  function FindBooking(bs: seq<Booking>, id: Id): (r: Option<nat>)
    ensures r.Some? ==> r.value < |bs| && bs[r.value].id == id
    ensures r.None? ==> forall i :: 0 <= i < |bs| ==> bs[i].id != id
    decreases |bs|
  {
    if |bs| == 0 then None
    else if bs[0].id == id then Some(0)
    else match FindBooking(bs[1..], id)
      case None => None
      case Some(k) => Some(k + 1)
  }

  /** The authenticated user of the request. */
  datatype Actor = Actor(id: Id, isAdmin: bool)

  const DefaultCancellationReason: string := "User requested cancellation"

  /** The cancellation branch: refund, payment update when the payment was completed, and the cancellation record. */
  function CancelledBooking(b: Booking, actor: Actor, reason: string, now: int): Booking
    requires IsTimeString(b.timeSlot.startTime)
  {
    var refund := CalculateRefund(b, now);
    var payment := if b.payment.status == PaymentCompleted && refund > 0.0
                   then b.payment.(status := Refunded, refundAmount := refund, refundedAt := Some(now))
                   else b.payment;
    b.(payment := payment,
       cancellation := Some(Cancellation(now, actor.id, if reason == "" then DefaultCancellationReason else reason, refund)),
       status := Cancelled)
  }

  /**
   * The document `updateBookingStatus` saves and its position, or the response
   * that ends the request first. `owners` maps each facility to its owner;
   * an empty `reason` is an absent one.
   */
  function PlanStatusUpdate(bs: seq<Booking>, owners: map<Id, Id>, bookingId: Id, statusText: string,
                            reason: string, actor: Actor, now: int): (r: Result<(nat, Booking), HttpError>)
    requires AllWellTimed(bs)
    ensures r.Ok? ==> FindBooking(bs, bookingId) == Some(r.value.0)
    ensures r.Ok? ==> ParseStatus(statusText) == Some(r.value.1.status)
  {
    match ParseStatus(statusText)
    case None => Err(InvalidStatus)
    case Some(status) =>
      match FindBooking(bs, bookingId)
      case None => Err(BookingNotFound)
      case Some(i) =>
        var b := bs[i];
        if b.facility !in owners then Err(ServerError)
        else if b.user != actor.id && owners[b.facility] != actor.id && !actor.isAdmin then Err(NotAuthorized)
        else if status == Cancelled then
          if !CanCancel(b, now) then Err(NotCancellable)
          else Ok((i, CancelledBooking(b, actor, reason, now)))
        else Ok((i, b.(status := status)))
  }

  /** The response of `updateBookingStatus`: the planned document, saved. */
  function StatusUpdateOutcome(bs: seq<Booking>, owners: map<Id, Id>, bookingId: Id, statusText: string,
                               reason: string, actor: Actor, now: int): (r: Result<Booking, HttpError>)
    requires AllWellTimed(bs)
    ensures r.Ok? ==> PlanStatusUpdate(bs, owners, bookingId, statusText, reason, actor, now).Ok?
  {
    match PlanStatusUpdate(bs, owners, bookingId, statusText, reason, actor, now)
    case Err(e) => Err(e)
    case Ok((i, doc)) =>
      match SaveOutcome(bs, i, doc, now)
      case Err(_) => Err(ServerError)
      case Ok(d) => Ok(d)
  }

  /**
   * A cancellation goes through only while `canCancel` holds, records the refund
   * `calculateRefund` gives, and marks the payment refunded exactly when it was
   * completed and the refund is positive.
   */
  lemma CancellationFollowsRefundPolicy(bs: seq<Booking>, owners: map<Id, Id>, bookingId: Id, reason: string,
                                        actor: Actor, now: int)
    requires AllWellTimed(bs)
    requires PlanStatusUpdate(bs, owners, bookingId, "cancelled", reason, actor, now).Ok?
    ensures var (i, doc) := PlanStatusUpdate(bs, owners, bookingId, "cancelled", reason, actor, now).value;
      var refund := CalculateRefund(bs[i], now);
      && CanCancel(bs[i], now)
      && doc.status == Cancelled
      && doc.cancellation.Some? && doc.cancellation.value.refundAmount == refund
      && doc.cancellation.value.cancelledBy == actor.id && doc.cancellation.value.cancelledAt == now
      && (doc.cancellation.value.reason == DefaultCancellationReason <==> reason == "" || reason == DefaultCancellationReason)
      && (doc.payment.status == Refunded && doc.payment.refundAmount == refund
          <==> (bs[i].payment.status == PaymentCompleted && refund > 0.0) ||
               (bs[i].payment.status == Refunded && bs[i].payment.refundAmount == refund))
      && (doc.payment != bs[i].payment ==> bs[i].payment.status == PaymentCompleted && refund > 0.0)
      && doc.court == bs[i].court && doc.day == bs[i].day && doc.timeSlot == bs[i].timeSlot
  {
  }

  /**
   * No transition is refused for the status a booking is in: an authorized
   * request may set any stored booking, cancelled or completed included, to
   * confirmed, completed or no-show, changing nothing but the status.
   */
  lemma AnyStatusMayBeReopened(bs: seq<Booking>, owners: map<Id, Id>, i: nat, statusText: string,
                               reason: string, actor: Actor, now: int)
    requires AllWellTimed(bs) && UniqueIds(bs) && i < |bs|
    requires statusText == "confirmed" || statusText == "completed" || statusText == "no_show"
    requires bs[i].facility in owners
    requires actor.isAdmin || actor.id == bs[i].user || actor.id == owners[bs[i].facility]
    ensures PlanStatusUpdate(bs, owners, bs[i].id, statusText, reason, actor, now) ==
            Ok((i, bs[i].(status := ParseStatus(statusText).value)))
  {
    var j := FindBooking(bs, bs[i].id);
    assert j.Some?;
    assert j.value == i;
  }

  /**
   * An update that does not turn an inactive booking into an active one keeps
   * the collection free of double bookings.
   */
  lemma UpdateKeepsNoDoubleBooking(bs: seq<Booking>, owners: map<Id, Id>, bookingId: Id, statusText: string,
                                   reason: string, actor: Actor, now: int)
    requires AllWellTimed(bs) && NoDoubleBooking(bs)
    requires StatusUpdateOutcome(bs, owners, bookingId, statusText, reason, actor, now).Ok?
    requires statusText != "confirmed" || IsActive(bs[FindBooking(bs, bookingId).value].status)
    ensures var i := FindBooking(bs, bookingId).value;
            NoDoubleBooking(bs[i := StatusUpdateOutcome(bs, owners, bookingId, statusText, reason, actor, now).value])
  {
    var (i, doc) := PlanStatusUpdate(bs, owners, bookingId, statusText, reason, actor, now).value;
    var d := StatusUpdateOutcome(bs, owners, bookingId, statusText, reason, actor, now).value;
    assert SaveOutcome(bs, i, doc, now) == Ok(d);
    assert d == AfterValidateHook(doc);
    assert doc.court == bs[i].court && doc.day == bs[i].day;
    assert doc.timeSlot.startTime == bs[i].timeSlot.startTime && doc.timeSlot.endTime == bs[i].timeSlot.endTime;
    assert IsActive(d.status) ==> IsActive(bs[i].status);
    var bs' := bs[i := d];
    forall p, q | 0 <= p < |bs'| && 0 <= q < |bs'| && p != q && IsActive(bs'[q].status)
      ensures !ConflictsWith(bs'[p], bs'[q].court, bs'[q].day, bs'[q].timeSlot.startTime, bs'[q].timeSlot.endTime)
    {
      if p == i {
        assert !ConflictsWith(bs[p], bs[q].court, bs[q].day, bs[q].timeSlot.startTime, bs[q].timeSlot.endTime);
      } else if q == i {
        assert IsActive(bs[q].status);
        assert !ConflictsWith(bs[p], bs[q].court, bs[q].day, bs[q].timeSlot.startTime, bs[q].timeSlot.endTime);
      }
    }
  }

  function PairBooking(id: Id, status: Status): Booking {
    Booking(id, 7, 1, 1, 20000, TimeSlot("10:00", "11:00", 1.0), Pricing(0.0, 1.0, 0.0),
            Payment(Cash, PaymentPending, None, None, 0.0, None, 0.0, None), status, 1, [], None)
  }

  /** The fixture's slot, 10:00 to 11:00, is a well-formed hour. */
  lemma PairSlotIsAnHour()
    ensures IsTimeString("10:00") && IsTimeString("11:00")
    ensures Minutes("10:00") == 600 && Minutes("11:00") == 660
  {
    assert "10:00"[..2] == "10" && "10:00"[3..] == "00";
    assert "11:00"[..2] == "11" && "11:00"[3..] == "00";
  }

  /** The pair, one booking cancelled, is well-timed and holds no double booking. */
  lemma PairIsConsistent()
    ensures var bs := [PairBooking(1, Cancelled), PairBooking(2, Confirmed)];
            AllWellTimed(bs) && NoDoubleBooking(bs) && FindBooking(bs, 1) == Some(0)
  {
    PairSlotIsAnHour();
  }

  /** The re-confirmed document passes validation unchanged. */
  lemma PairDocumentValidates()
    ensures Validate(PairBooking(1, Confirmed), Today(0)) == Ok(PairBooking(1, Confirmed))
  {
    PairSlotIsAnHour();
    assert AfterValidateHook(PairBooking(1, Confirmed)) == PairBooking(1, Confirmed);
  }

  /** The owner's request to re-confirm the cancelled booking of the fixture is saved as asked. */
  lemma PairReconfirmSucceeds()
    ensures var bs := [PairBooking(1, Cancelled), PairBooking(2, Confirmed)];
            StatusUpdateOutcome(bs, map[1 := 7], 1, "confirmed", "", Actor(7, false), 0) == Ok(PairBooking(1, Confirmed))
  {
    PairIsConsistent();
    PairDocumentValidates();
    var bs := [PairBooking(1, Cancelled), PairBooking(2, Confirmed)];
    var doc := PairBooking(1, Confirmed);
    assert PlanStatusUpdate(bs, map[1 := 7], 1, "confirmed", "", Actor(7, false), 0) == Ok((0, doc));
    assert !SlotModified(bs[0], doc);
    assert SaveOutcome(bs, 0, doc, 0) == Ok(doc);
  }

  /**
   * Re-confirming a cancelled booking runs no conflict check: with a confirmed
   * booking holding the same court and hour, the update succeeds and leaves two
   * active bookings of one slot.
   */
  lemma ReconfirmingCancelledBookingDoubleBooks()
    ensures var bs := [PairBooking(1, Cancelled), PairBooking(2, Confirmed)];
            var r := StatusUpdateOutcome(bs, map[1 := 7], 1, "confirmed", "", Actor(7, false), 0);
            && NoDoubleBooking(bs)
            && r.Ok? && r.value.status == Confirmed
            && !NoDoubleBooking(bs[0 := r.value])
  {
    PairIsConsistent();
    PairReconfirmSucceeds();
    var bs' := [PairBooking(1, Confirmed), PairBooking(2, Confirmed)];
    assert [PairBooking(1, Cancelled), PairBooking(2, Confirmed)][0 := PairBooking(1, Confirmed)] == bs';
    assert StrLt("10:00", "11:00");
    assert ConflictsWith(bs'[0], bs'[1].court, bs'[1].day, bs'[1].timeSlot.startTime, bs'[1].timeSlot.endTime);
  }

  /** `updateBookingStatus`: find, authorize, apply the cancellation rules, set the status and save. */
  method UpdateBookingStatus(store: Store, owners: map<Id, Id>, bookingId: Id, statusText: string,
                             reason: string, actor: Actor, now: int) returns (r: Result<Booking, HttpError>)
    requires AllWellTimed(store.bookings)
    modifies store
    ensures r == StatusUpdateOutcome(old(store.bookings), owners, bookingId, statusText, reason, actor, now)
    ensures store.bookings == if r.Ok? then old(store.bookings)[FindBooking(old(store.bookings), bookingId).value := r.value]
                              else old(store.bookings)
    ensures store.facilityTotals == old(store.facilityTotals) && store.courtTotals == old(store.courtTotals)
  {
    var status := ParseStatus(statusText);
    if status.None? {
      return Err(InvalidStatus);
    }
    var found := FindBooking(store.bookings, bookingId);
    if found.None? {
      return Err(BookingNotFound);
    }
    var i := found.value;
    var b := store.bookings[i];
    if b.facility !in owners {
      return Err(ServerError);
    }
    if b.user != actor.id && owners[b.facility] != actor.id && !actor.isAdmin {
      return Err(NotAuthorized);
    }
    var doc := b;
    if status.value == Cancelled {
      if !CanCancel(b, now) {
        return Err(NotCancellable);
      }
      var refund := CalculateRefund(b, now);
      if b.payment.status == PaymentCompleted && refund > 0.0 {
        doc := doc.(payment := doc.payment.(status := Refunded, refundAmount := refund, refundedAt := Some(now)));
      }
      doc := doc.(cancellation := Some(Cancellation(now, actor.id, if reason == "" then DefaultCancellationReason else reason, refund)));
    }
    doc := doc.(status := status.value);
    var saved := store.Save(i, doc, now);
    match saved {
      case Err(_) => r := Err(ServerError);
      case Ok(d) => r := Ok(d);
    }
  }

  // ---------------------------------------------------------------------------
  // confirmPayment
  // ---------------------------------------------------------------------------

  /** The body of `POST /api/bookings/:id/confirm-payment`; an empty string is an absent field. */
  datatype PaymentProof = PaymentProof(paymentId: string, orderId: string, signature: string)

  /** What `fetchPayment` gives: a captured payment, another state, or an error with its message. */
  datatype FetchOutcome = Captured | NotCaptured | FetchFailed(message: string)

  /** The payment gateway's answers for this request. */
  datatype Gateway = Gateway(signatureValid: bool, fetched: FetchOutcome)

  /** The response, the booking collection afterwards, and whether the two `totalBookings` counters were incremented. */
  datatype PaymentEffect = PaymentEffect(response: Result<Booking, HttpError>, bookings: seq<Booking>, counted: bool)

  /** The final `booking.save()` followed by the counter increments. */
  function SaveAndCount(bs: seq<Booking>, i: nat, doc: Booking, now: int): (e: PaymentEffect)
    requires i < |bs|
    ensures e.counted <==> e.response.Ok?
  {
    match SaveOutcome(bs, i, doc, now)
    case Err(_) => PaymentEffect(Err(ServerError), bs, false)
    case Ok(d) => PaymentEffect(Ok(d), bs[i := d], true)
  }

  /** The document after a captured payment. */
  function CapturedBooking(b: Booking, paymentId: string, now: int): Booking {
    b.(payment := b.payment.(status := PaymentCompleted, transactionId := Some(paymentId),
                             paidAmount := b.pricing.totalAmount, paidAt := Some(now)),
       status := Confirmed)
  }

  /** The whole effect of `confirmPayment` for the owner's request. */
  function ConfirmPaymentOutcome(bs: seq<Booking>, bookingId: Id, actor: Id, proof: PaymentProof,
                                 gateway: Gateway, now: int): (e: PaymentEffect)
    ensures e.counted ==> e.response.Ok?
    ensures e.response.Ok? ==> FindBooking(bs, bookingId).Some?
  {
    match FindBooking(bs, bookingId)
    case None => PaymentEffect(Err(BookingNotFound), bs, false)
    case Some(i) =>
      var b := bs[i];
      if b.user != actor then PaymentEffect(Err(NotAuthorized), bs, false)
      else if b.payment.paymentMethod == Razorpay && proof.paymentId != "" && proof.orderId != "" && proof.signature != "" then
        if !gateway.signatureValid then
          match SaveOutcome(bs, i, b.(payment := b.payment.(status := PaymentFailed)), now)
          case Err(e) => PaymentEffect(Err(PaymentConfirmationFailed(SaveErrorMessage(e))), bs, false)
          case Ok(d) => PaymentEffect(Err(InvalidSignature), bs[i := d], false)
        else
          match gateway.fetched
          case FetchFailed(m) => PaymentEffect(Err(PaymentConfirmationFailed(m)), bs, false)
          case Captured => SaveAndCount(bs, i, CapturedBooking(b, proof.paymentId, now), now)
          case NotCaptured => SaveAndCount(bs, i, b.(payment := b.payment.(status := PaymentFailed)), now)
      else SaveAndCount(bs, i, b, now)
  }

  /** The counters move exactly when the handler answers with success. */
  lemma CountedExactlyOnSuccess(bs: seq<Booking>, bookingId: Id, actor: Id, proof: PaymentProof, gateway: Gateway, now: int)
    ensures var e := ConfirmPaymentOutcome(bs, bookingId, actor, proof, gateway, now);
            e.counted <==> e.response.Ok?
  {
  }

  /** A captured payment confirms the booking and records the whole total as paid. */
  lemma CapturedPaymentConfirms(bs: seq<Booking>, bookingId: Id, actor: Id, proof: PaymentProof, now: int)
    requires FindBooking(bs, bookingId).Some?
    requires bs[FindBooking(bs, bookingId).value].payment.paymentMethod == Razorpay
    requires proof.paymentId != "" && proof.orderId != "" && proof.signature != ""
    requires ConfirmPaymentOutcome(bs, bookingId, actor, proof, Gateway(true, Captured), now).response.Ok?
    ensures var b := ConfirmPaymentOutcome(bs, bookingId, actor, proof, Gateway(true, Captured), now).response.value;
            && b.status == Confirmed && b.payment.status == PaymentCompleted
            && b.payment.paidAmount == b.pricing.totalAmount
            && b.payment.transactionId == Some(proof.paymentId) && b.payment.paidAt == Some(now)
  {
    var i := FindBooking(bs, bookingId).value;
    var doc := CapturedBooking(bs[i], proof.paymentId, now);
    var d := ConfirmPaymentOutcome(bs, bookingId, actor, proof, Gateway(true, Captured), now).response.value;
    assert SaveOutcome(bs, i, doc, now) == Ok(d);
    assert d == AfterValidateHook(doc);
  }

  /**
   * A payment the gateway reports as not captured still gets the success
   * response and is counted, with the payment marked failed.
   */
  lemma UncapturedPaymentIsCounted(bs: seq<Booking>, bookingId: Id, actor: Id, proof: PaymentProof, now: int)
    requires FindBooking(bs, bookingId).Some?
    requires bs[FindBooking(bs, bookingId).value].payment.paymentMethod == Razorpay
    requires proof.paymentId != "" && proof.orderId != "" && proof.signature != ""
    requires bs[FindBooking(bs, bookingId).value].user == actor
    requires var b := bs[FindBooking(bs, bookingId).value]; Validate(b, Today(now)) == Ok(b)
    ensures var e := ConfirmPaymentOutcome(bs, bookingId, actor, proof, Gateway(true, NotCaptured), now);
            && e.counted && e.response.Ok?
            && e.response.value.payment.status == PaymentFailed
            && e.response.value.status == bs[FindBooking(bs, bookingId).value].status
  {
    var i := FindBooking(bs, bookingId).value;
    var b := bs[i];
    var doc := b.(payment := b.payment.(status := PaymentFailed));
    assert AfterValidateHook(doc) == AfterValidateHook(b).(payment := doc.payment);
    assert Validate(doc, Today(now)) == Ok(doc);
    assert !SlotModified(b, doc);
  }

  /** A failure to fetch the payment answers with an error and leaves the stored booking untouched. */
  lemma FetchFailureChangesNothing(bs: seq<Booking>, bookingId: Id, actor: Id, proof: PaymentProof, m: string, now: int)
    requires FindBooking(bs, bookingId).Some?
    requires bs[FindBooking(bs, bookingId).value].payment.paymentMethod == Razorpay
    requires proof.paymentId != "" && proof.orderId != "" && proof.signature != ""
    requires bs[FindBooking(bs, bookingId).value].user == actor
    ensures ConfirmPaymentOutcome(bs, bookingId, actor, proof, Gateway(true, FetchFailed(m)), now)
            == PaymentEffect(Err(PaymentConfirmationFailed(m)), bs, false)
  {
  }

  /**
   * A rejected signature marks the stored payment failed although the
   * response is an error, and nothing is counted. When that save itself
   * fails, the inner `catch` answers with the save's message and nothing is
   * stored.
   */
  lemma InvalidSignatureStoresFailure(bs: seq<Booking>, bookingId: Id, actor: Id, proof: PaymentProof,
                                      fetched: FetchOutcome, now: int)
    requires FindBooking(bs, bookingId).Some?
    requires bs[FindBooking(bs, bookingId).value].payment.paymentMethod == Razorpay
    requires proof.paymentId != "" && proof.orderId != "" && proof.signature != ""
    requires bs[FindBooking(bs, bookingId).value].user == actor
    ensures var e := ConfirmPaymentOutcome(bs, bookingId, actor, proof, Gateway(false, fetched), now);
            var i := FindBooking(bs, bookingId).value;
            && !e.counted && e.response.Err?
            && (e.response == Err(InvalidSignature) ==> e.bookings[i].payment.status == PaymentFailed)
            && (e.response == Err(InvalidSignature) <==>
                  SaveOutcome(bs, i, bs[i].(payment := bs[i].payment.(status := PaymentFailed)), now).Ok?)
            && (e.response != Err(InvalidSignature) ==>
                  var saved := SaveOutcome(bs, i, bs[i].(payment := bs[i].payment.(status := PaymentFailed)), now);
                  e.response == Err(PaymentConfirmationFailed(SaveErrorMessage(saved.error))) && e.bookings == bs)
  {
  }

  /** The final save and, when it succeeds, the counter increments for the booking's facility and court. */
  method SaveThenCount(store: Store, i: nat, doc: Booking, facility: Id, court: Id, now: int)
    returns (r: Result<Booking, HttpError>)
    requires i < |store.bookings|
    modifies store
    ensures var e := SaveAndCount(old(store.bookings), i, doc, now);
            && r == e.response && store.bookings == e.bookings
            && store.facilityTotals == (if e.counted then Bumped(old(store.facilityTotals), facility) else old(store.facilityTotals))
            && store.courtTotals == (if e.counted then Bumped(old(store.courtTotals), court) else old(store.courtTotals))
  {
    var saved := store.Save(i, doc, now);
    if saved.Err? {
      return Err(ServerError);
    }
    store.IncrementTotals(facility, court);
    r := Ok(saved.value);
  }

  /** `confirmPayment`: the gateway checks for a Razorpay booking, the save, then the counters. */
  method ConfirmPayment(store: Store, bookingId: Id, actor: Id, proof: PaymentProof, gateway: Gateway, now: int)
    returns (r: Result<Booking, HttpError>)
    modifies store
    ensures var e := ConfirmPaymentOutcome(old(store.bookings), bookingId, actor, proof, gateway, now);
            && r == e.response && store.bookings == e.bookings
            && (e.counted ==>
                  var b := old(store.bookings)[FindBooking(old(store.bookings), bookingId).value];
                  && store.facilityTotals == Bumped(old(store.facilityTotals), b.facility)
                  && store.courtTotals == Bumped(old(store.courtTotals), b.court))
            && (!e.counted ==> store.facilityTotals == old(store.facilityTotals) && store.courtTotals == old(store.courtTotals))
  {
    var found := FindBooking(store.bookings, bookingId);
    if found.None? {
      return Err(BookingNotFound);
    }
    var i := found.value;
    var b := store.bookings[i];
    if b.user != actor {
      return Err(NotAuthorized);
    }
    var doc := b;
    if b.payment.paymentMethod == Razorpay && proof.paymentId != "" && proof.orderId != "" && proof.signature != "" {
      if !gateway.signatureValid {
        doc := doc.(payment := doc.payment.(status := PaymentFailed));
        var saved := store.Save(i, doc, now);
        if saved.Err? {
          return Err(PaymentConfirmationFailed(SaveErrorMessage(saved.error)));
        }
        return Err(InvalidSignature);
      }
      match gateway.fetched {
        case FetchFailed(m) =>
          return Err(PaymentConfirmationFailed(m));
        case Captured =>
          doc := CapturedBooking(b, proof.paymentId, now);
        case NotCaptured =>
          doc := doc.(payment := doc.payment.(status := PaymentFailed));
      }
    }
    r := SaveThenCount(store, i, doc, b.facility, b.court, now);
  }

  // ---------------------------------------------------------------------------
  // getAvailableSlots
  // ---------------------------------------------------------------------------

  /** The handler's `Booking.find`: the court's pending and confirmed bookings on the date, in stored order. */
  function DayBookings(bs: seq<Booking>, court: Id, day: int): (r: seq<Booking>)
    ensures forall k :: 0 <= k < |r| ==> r[k] in bs && r[k].court == court && r[k].day == day && IsActive(r[k].status)
    ensures forall k :: 0 <= k < |bs| && bs[k].court == court && bs[k].day == day && IsActive(bs[k].status) ==> bs[k] in r
    decreases |bs|
  {
    if |bs| == 0 then []
    else
      var rest := DayBookings(bs[1..], court, day);
      assert forall k :: 0 <= k < |rest| ==> rest[k] in bs by {
        forall k | 0 <= k < |rest| ensures rest[k] in bs {
          assert rest[k] in bs[1..];
        }
      }
      assert forall k :: 1 <= k < |bs| ==> bs[k] == bs[1..][k - 1];
      (if bs[0].court == court && bs[0].day == day && IsActive(bs[0].status) then [bs[0]] else []) + rest
  }

  /** The `existingBookings.some(...)` test: the three-clause overlap with any of them. */
  predicate SlotBooked(existing: seq<Booking>, startTime: string, endTime: string) {
    exists k :: 0 <= k < |existing| &&
      ThreeClauseOverlap(startTime, endTime, existing[k].timeSlot.startTime, existing[k].timeSlot.endTime)
  }

  /** The price shown for the hour starting at minute `t`: the hourly rate, times the multiplier in the peak window. */
  function SlotPrice(c: Courts.Court, f: Facilities.Facility, t: nat): real
    requires Facilities.WellFormed(f)
  {
    if Facilities.IsPeakMinute(f, t) then c.hourlyRate * f.peakHourMultiplier else c.hourlyRate
  }

  /** The entry pushed for the hour starting at minute `t`. */
  function SlotAt(c: Courts.Court, f: Facilities.Facility, t: nat): Courts.Slot
    requires Facilities.WellFormed(f) && t < 1440
  {
    Courts.Slot(Format(t), Format(t + 60), 1, SlotPrice(c, f, t), Facilities.IsPeakMinute(f, t))
  }

  /** Whether the loop pushes the hour starting at minute `t`. */
  predicate SlotOffered(c: Courts.Court, existing: seq<Booking>, day: int, t: nat)
    requires Courts.WellFormed(c) && t < 1440
  {
    !SlotBooked(existing, Format(t), Format(t + 60)) && Courts.IsAvailableAt(c, day, Format(t), Format(t + 60))
  }

  /** What one iteration pushes: the hour starting at `t` when it is offered, else nothing. */
  function HourSlots(c: Courts.Court, f: Facilities.Facility, existing: seq<Booking>, day: int, t: nat): seq<Courts.Slot>
    requires Courts.WellFormed(c) && Facilities.WellFormed(f) && t < 1440
  {
    if SlotOffered(c, existing, day, t) then [SlotAt(c, f, t)] else []
  }

  /** The loop's skeleton: what `entry` gives at `t`, `t + 60`, ... while before `close`. */
  function Grid(entry: nat -> seq<Courts.Slot>, t: nat, close: nat): seq<Courts.Slot>
    decreases close - t
  {
    if t >= close then [] else entry(t) + Grid(entry, t + 60, close)
  }

  /** What one iteration pushes, as a function of the hour's start minute. */
  function HourEntries(c: Courts.Court, f: Facilities.Facility, existing: seq<Booking>, day: int): nat -> seq<Courts.Slot>
    requires Courts.WellFormed(c) && Facilities.WellFormed(f)
  {
    (t: nat) => if t < 1440 then HourSlots(c, f, existing, day, t) else []
  }

  /** The slots the loop pushes from minute `t` up to the closing minute. */
  function SlotsFrom(c: Courts.Court, f: Facilities.Facility, existing: seq<Booking>, day: int, t: nat, close: nat)
    : seq<Courts.Slot>
    requires Courts.WellFormed(c) && Facilities.WellFormed(f)
  {
    Grid(HourEntries(c, f, existing, day), t, close)
  }

  /** The response of `getAvailableSlots` for a court and an optional date. */
  function AvailableSlots(bs: seq<Booking>, courts: map<Id, Courts.Court>, facilities: map<Id, Facilities.Facility>,
                          courtId: Id, date: Option<int>): (r: Result<seq<Courts.Slot>, HttpError>)
    requires CatalogWellFormed(courts, facilities)
    ensures date.None? ==> r == Err(DateRequired)
    ensures r.Ok? ==> courtId in courts && courts[courtId].facility in facilities
    ensures r.Ok? && !facilities[courts[courtId].facility].operatingHours[Courts.Weekday(date.value)].isOpen ==> r.value == []
  {
    match date
    case None => Err(DateRequired)
    case Some(day) =>
      if courtId !in courts then Err(CourtNotFound)
      else if courts[courtId].facility !in facilities then Err(ServerError)
      else
        var c := courts[courtId];
        var f := facilities[c.facility];
        var hours := f.operatingHours[Courts.Weekday(day)];
        if !hours.isOpen then Ok([])
        else Ok(SlotsFrom(c, f, DayBookings(bs, courtId, day), day, Minutes(hours.openTime), Minutes(hours.closeTime)))
  }

  /** `u` is a whole number of hours after `t`. */
  predicate OnGrid(t: int, u: int) {
    t <= u && (u - t) % 60 == 0
  }

  /** `s` is pushed by the iteration at `u`, on the grid from `t` and before `close`. */
  predicate PushedAt(entry: nat -> seq<Courts.Slot>, t: nat, close: nat, s: Courts.Slot, u: nat) {
    OnGrid(t, u) && u < close && s in entry(u)
  }

  /** Everything the loop pushes comes from an iteration on the grid before closing. */
  lemma {:induction false} GridSound(entry: nat -> seq<Courts.Slot>, t: nat, close: nat, s: Courts.Slot)
    requires s in Grid(entry, t, close)
    ensures exists u: nat :: PushedAt(entry, t, close, s, u)
    decreases close - t
  {
    if t >= close {
      assert false;
    }
    if s in entry(t) {
      assert PushedAt(entry, t, close, s, t);
    } else {
      GridSound(entry, t + 60, close, s);
      var u: nat :| PushedAt(entry, t + 60, close, s, u);
      assert PushedAt(entry, t, close, s, u);
    }
  }

  /** Every iteration on the grid before closing contributes what it pushes. */
  lemma {:induction false} GridComplete(entry: nat -> seq<Courts.Slot>, t: nat, close: nat, u: nat, s: Courts.Slot)
    requires OnGrid(t, u) && u < close && s in entry(u)
    ensures s in Grid(entry, t, close)
    decreases u - t
  {
    if u != t {
      assert OnGrid(t + 60, u);
      GridComplete(entry, t + 60, close, u, s);
    }
  }

  /** Every slot offered is the free hour starting at some minute `u`, a whole number of hours after opening and before closing. */
  lemma SlotsFromSound(c: Courts.Court, f: Facilities.Facility, existing: seq<Booking>, day: int,
                       open: nat, close: nat, s: Courts.Slot)
    requires Courts.WellFormed(c) && Facilities.WellFormed(f) && close < 1440
    requires s in SlotsFrom(c, f, existing, day, open, close)
    ensures exists u: nat :: OnGrid(open, u) && u < close && SlotOffered(c, existing, day, u) && s == SlotAt(c, f, u)
  {
    var entry := HourEntries(c, f, existing, day);
    GridSound(entry, open, close, s);
    var u: nat :| PushedAt(entry, open, close, s, u);
    assert entry(u) == HourSlots(c, f, existing, day, u);
  }

  /** Every free hour a whole number of hours after opening and before closing is offered. */
  lemma SlotsFromComplete(c: Courts.Court, f: Facilities.Facility, existing: seq<Booking>, day: int,
                          open: nat, close: nat, u: nat)
    requires Courts.WellFormed(c) && Facilities.WellFormed(f) && close < 1440
    requires OnGrid(open, u) && u < close && SlotOffered(c, existing, day, u)
    ensures SlotAt(c, f, u) in SlotsFrom(c, f, existing, day, open, close)
  {
    var entry := HourEntries(c, f, existing, day);
    assert entry(u) == [SlotAt(c, f, u)];
    GridComplete(entry, open, close, u, SlotAt(c, f, u));
  }

  /** A slot hour ending before midnight is a window of two padded times, earlier before later. */
  lemma SlotTimesArePadded(t: nat)
    requires t + 60 < 1440
    ensures IsPadded(Format(t)) && IsPadded(Format(t + 60))
    ensures Minutes(Format(t)) == t && Minutes(Format(t + 60)) == t + 60
    ensures StrLt(Format(t), Format(t + 60))
  {
    FormatThenParse(t);
    FormatThenParse(t + 60);
    PaddedOrderIsMinuteOrder(Format(t), Format(t + 60));
  }

  /**
   * An offered slot passes the create handler's conflict query: no active
   * booking of the court on that date meets it in the string order, stored
   * one-digit-hour bookings included.
   */
  lemma OfferedSlotIsNotTaken(bs: seq<Booking>, c: Courts.Court, courtId: Id, day: int, t: nat)
    requires Courts.WellFormed(c) && t + 60 < 1440
    requires SlotOffered(c, DayBookings(bs, courtId, day), day, t)
    ensures forall k :: 0 <= k < |bs| ==> !ConflictsWith(bs[k], courtId, day, Format(t), Format(t + 60))
  {
    SlotTimesArePadded(t);
    var existing := DayBookings(bs, courtId, day);
    forall k | 0 <= k < |bs|
      ensures !ConflictsWith(bs[k], courtId, day, Format(t), Format(t + 60))
    {
      var b := bs[k];
      if b.court == courtId && b.day == day && IsActive(b.status) {
        assert b in existing;
        var j :| 0 <= j < |existing| && existing[j] == b;
        assert !ThreeClauseOverlap(Format(t), Format(t + 60), b.timeSlot.startTime, b.timeSlot.endTime);
        if StrOverlap(Format(t), Format(t + 60), b.timeSlot.startTime, b.timeSlot.endTime) {
          OverlapIsThreeClause(Format(t), Format(t + 60), b.timeSlot.startTime, b.timeSlot.endTime);
        }
      }
    }
  }

  /**
   * Where the stored times are zero-padded, an offered slot shares no minute
   * with any active booking of the court on that date.
   */
  lemma OfferedSlotIsFreeInMinutes(bs: seq<Booking>, c: Courts.Court, courtId: Id, day: int, t: nat)
    requires Courts.WellFormed(c) && t + 60 < 1440
    requires AllPadded(bs)
    requires forall k :: 0 <= k < |bs| ==> Minutes(bs[k].timeSlot.startTime) < Minutes(bs[k].timeSlot.endTime)
    requires SlotOffered(c, DayBookings(bs, courtId, day), day, t)
    ensures forall k :: 0 <= k < |bs| && bs[k].court == courtId && bs[k].day == day && IsActive(bs[k].status) ==>
              t + 60 <= Minutes(bs[k].timeSlot.startTime) || Minutes(bs[k].timeSlot.endTime) <= t
  {
    SlotTimesArePadded(t);
    forall k | 0 <= k < |bs|
      ensures StrLt(bs[k].timeSlot.startTime, bs[k].timeSlot.endTime)
    {
      PaddedOrderIsMinuteOrder(bs[k].timeSlot.startTime, bs[k].timeSlot.endTime);
    }
    OfferedSlotIsNotTaken(bs, c, courtId, day, t);
    forall k | 0 <= k < |bs| && bs[k].court == courtId && bs[k].day == day && IsActive(bs[k].status)
      ensures t + 60 <= Minutes(bs[k].timeSlot.startTime) || Minutes(bs[k].timeSlot.endTime) <= t
    {
      PaddedOverlapIsMinuteOverlap(Format(t), Format(t + 60), bs[k].timeSlot.startTime, bs[k].timeSlot.endTime);
    }
  }

  /**
   * A one-hour booking without equipment costs the price the slot list shows
   * for the hour starting at the same minute: the same rate and the same
   * start-minute peak rule.
   */
  lemma SlotPriceIsBookingPrice(bs: seq<Booking>, courts: map<Id, Courts.Court>,
                                facilities: map<Id, Facilities.Facility>, user: Id,
                                req: BookingRequest, newId: Id, now: int, order: Result<string, string>, t: nat)
    requires CatalogWellFormed(courts, facilities)
    requires PlanBooking(bs, courts, facilities, user, req, newId, now, order).Ok?
    requires Minutes(req.startTime) == t && Minutes(req.endTime) == t + 60 && ItemsOf(req.equipment) == []
    ensures PlanBooking(bs, courts, facilities, user, req, newId, now, order).value.pricing.totalAmount ==
            SlotPrice(courts[req.court], facilities[req.facility], t)
  {
    CreatedBookingIsPriced(bs, courts, facilities, user, req, newId, now, order);
    var b := PlanBooking(bs, courts, facilities, user, req, newId, now, order).value;
    OneHourCharge(courts[req.court].hourlyRate, b.timeSlot.duration, b.pricing.peakHourMultiplier);
  }

  lemma OneHourCharge(rate: real, hours: real, multiplier: real)
    requires hours * 60.0 == 60.0
    ensures CourtCharge(rate, hours, multiplier) == rate * multiplier
  {
    assert hours == 1.0;
  }


  /** The `.some(...)` over the day's bookings. */
  method AnyOverlap(existing: seq<Booking>, startTime: string, endTime: string) returns (booked: bool)
    ensures booked == SlotBooked(existing, startTime, endTime)
  {
    booked := false;
    var k := 0;
    while k < |existing| && !booked
      invariant 0 <= k <= |existing|
      invariant booked <==> exists j :: 0 <= j < k && ThreeClauseOverlap(startTime, endTime, existing[j].timeSlot.startTime, existing[j].timeSlot.endTime)
    {
      booked := ThreeClauseOverlap(startTime, endTime, existing[k].timeSlot.startTime, existing[k].timeSlot.endTime);
      k := k + 1;
    }
  }

  /** One iteration of the loop: format the hour, test it, price it. */
  method HourEntry(c: Courts.Court, f: Facilities.Facility, existing: seq<Booking>, day: int, time: nat)
    returns (entry: seq<Courts.Slot>)
    requires Courts.WellFormed(c) && Facilities.WellFormed(f) && time < 1440
    ensures entry == HourSlots(c, f, existing, day, time)
  {
    var startTime := Format(time);
    var endTime := Format(time + 60);
    var booked := AnyOverlap(existing, startTime, endTime);
    entry := [];
    assert SlotOffered(c, existing, day, time) <==> !booked && Courts.IsAvailableAt(c, day, startTime, endTime);
    if !booked && Courts.IsAvailableAt(c, day, startTime, endTime) {
      var peak := Facilities.IsPeakMinute(f, time);
      var price := if peak then c.hourlyRate * f.peakHourMultiplier else c.hourlyRate;
      assert price == SlotPrice(c, f, time);
      entry := [Courts.Slot(startTime, endTime, 1, price, peak)];
      assert entry == [SlotAt(c, f, time)];
    }
  }

  /** `getAvailableSlots`: the hourly loop from opening to closing time. */
  method GetAvailableSlots(bs: seq<Booking>, courts: map<Id, Courts.Court>, facilities: map<Id, Facilities.Facility>,
                           courtId: Id, date: Option<int>) returns (r: Result<seq<Courts.Slot>, HttpError>)
    requires CatalogWellFormed(courts, facilities)
    ensures r == AvailableSlots(bs, courts, facilities, courtId, date)
  {
    if date.None? {
      return Err(DateRequired);
    }
    var day := date.value;
    if courtId !in courts {
      return Err(CourtNotFound);
    }
    var c := courts[courtId];
    if c.facility !in facilities {
      return Err(ServerError);
    }
    var f := facilities[c.facility];
    var hours := f.operatingHours[Courts.Weekday(day)];
    if !hours.isOpen {
      return Ok([]);
    }
    var slots := SlotsBetween(c, f, DayBookings(bs, courtId, day), day, Minutes(hours.openTime), Minutes(hours.closeTime));
    r := Ok(slots);
  }

  /** The `for` loop of `getAvailableSlots`, one hour per iteration from `open` while before `close`. */
  method SlotsBetween(c: Courts.Court, f: Facilities.Facility, existing: seq<Booking>, day: int, open: nat, close: nat)
    returns (slots: seq<Courts.Slot>)
    requires Courts.WellFormed(c) && Facilities.WellFormed(f) && close < 1440
    ensures slots == SlotsFrom(c, f, existing, day, open, close)
  {
    var time := open;
    slots := [];
    ghost var entries := HourEntries(c, f, existing, day);
    while time < close
      invariant slots + Grid(entries, time, close) == Grid(entries, open, close)
      decreases close as int - time as int
    {
      var entry := HourEntry(c, f, existing, day, time);
      assert entry == entries(time);
      assert Grid(entries, time, close) == entry + Grid(entries, time + 60, close);
      assert slots + entry + Grid(entries, time + 60, close) == slots + (entry + Grid(entries, time + 60, close));
      slots := slots + entry;
      time := time + 60;
    }
    assert slots + Grid(entries, time, close) == slots;
  }
}
