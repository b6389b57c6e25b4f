/**
 * The booking document: its schema constraints, the `pre('validate')` duration
 * hook, the `pre('save')` conflict hook, the `isPast` and `canCancel` virtuals,
 * `calculateRefund`, and the booking collection those hooks guard.
 *
 * Instants are milliseconds; a booking's `date` is a local day number, so the
 * instant of "date at HH:MM" is `day * DayMs + minutes * MinuteMs`.
 */
module Bookings {
  import opened Common
  import opened Clock

  datatype Status = Pending | Confirmed | Cancelled | Completed | NoShow

  datatype PaymentStatus = PaymentPending | PaymentCompleted | PaymentFailed | Refunded | PartiallyRefunded

  datatype PaymentMethod = Stripe | Razorpay | Cash | Wallet

  /** The schema's spelling of a payment method. */
  function PaymentMethodName(m: PaymentMethod): string {
    match m
    case Stripe => "stripe"
    case Razorpay => "razorpay"
    case Cash => "cash"
    case Wallet => "wallet"
  }

  /** The `payment.method` enum: exactly the four spellings are accepted, each as itself. */
  function ParsePaymentMethod(name: string): (m: Option<PaymentMethod>)
    ensures m.Some? <==> name == "stripe" || name == "razorpay" || name == "cash" || name == "wallet"
    ensures m.Some? ==> PaymentMethodName(m.value) == name
  {
    if name == "stripe" then Some(Stripe)
    else if name == "razorpay" then Some(Razorpay)
    else if name == "cash" then Some(Cash)
    else if name == "wallet" then Some(Wallet)
    else None
  }

  /** Every method is accepted under its own name. */
  lemma PaymentMethodNamesRoundTrip(m: PaymentMethod)
    ensures ParsePaymentMethod(PaymentMethodName(m)) == Some(m)
  {
  }

  datatype TimeSlot = TimeSlot(startTime: string, endTime: string, duration: real)

  datatype Pricing = Pricing(basePrice: real, peakHourMultiplier: real, totalAmount: real)

  datatype Payment = Payment(
    paymentMethod: PaymentMethod,
    status: PaymentStatus,
    transactionId: Option<string>,
    razorpayOrderId: Option<string>,
    paidAmount: real,
    paidAt: Option<int>,
    refundAmount: real,
    refundedAt: Option<int>)

  datatype Equipment = Equipment(name: string, quantity: int, rentalPrice: real)

  datatype Cancellation = Cancellation(cancelledAt: int, cancelledBy: Id, reason: string, refundAmount: real)

  datatype Booking = Booking(
    id: Id,
    user: Id,
    facility: Id,
    court: Id,
    day: int,
    timeSlot: TimeSlot,
    pricing: Pricing,
    payment: Payment,
    status: Status,
    participants: int,
    equipment: seq<Equipment>,
    cancellation: Option<Cancellation>)

  /** Why validation rejected a document: the hook's error, or a schema validator. */
  datatype ValidationError = EndNotAfterStart | SchemaViolation

  /** Why a save was refused. */
  datatype SaveError = Invalid(reason: ValidationError) | SlotTaken | DuplicateId

  /**
   * The `message` of the error a failed save throws: the hooks' own messages,
   * and the head of Mongoose's validation and duplicate-key messages (the
   * per-field details that follow are not modelled).
   */
  function SaveErrorMessage(e: SaveError): string {
    match e
    case Invalid(EndNotAfterStart) => "End time must be after start time"
    case Invalid(SchemaViolation) => "Booking validation failed"
    case SlotTaken => "Time slot is already booked"
    case DuplicateId => "E11000 duplicate key error"
  }

  /** The local day of an instant: `new Date().setHours(0, 0, 0, 0)` as a day number. */
  function Today(now: int): int {
    now / DayMs
  }

  predicate TimesWellFormed(b: Booking) {
    IsTimeString(b.timeSlot.startTime) && IsTimeString(b.timeSlot.endTime)
  }

  /** `(endMinutes - startMinutes) / 60`. */
  function SlotHours(startTime: string, endTime: string): real
    requires IsTimeString(startTime) && IsTimeString(endTime)
  {
    (Minutes(endTime) - Minutes(startTime)) as real / 60.0
  }

  /**
   * The document after the `pre('validate')` hook: with both times present it
   * stores the duration. The hook calls `next(err)` without returning, so the
   * duration is stored even when it then reports an error.
   */
  function AfterValidateHook(b: Booking): Booking {
    if TimesWellFormed(b) then b.(timeSlot := b.timeSlot.(duration := SlotHours(b.timeSlot.startTime, b.timeSlot.endTime)))
    else b
  }

  /** The hook reports "End time must be after start time". */
  predicate HookRejects(b: Booking) {
    TimesWellFormed(b) && Minutes(b.timeSlot.endTime) <= Minutes(b.timeSlot.startTime)
  }

  /** The schema validators, run on the document the hook produced. */
  predicate SchemaValid(b: Booking, today: int) {
    TimesWellFormed(b) &&
    b.day >= today &&
    b.timeSlot.duration >= 0.5 &&
    b.pricing.basePrice >= 0.0 &&
    b.pricing.totalAmount >= 0.0 &&
    b.participants >= 1 &&
    forall k :: 0 <= k < |b.equipment| ==> b.equipment[k].quantity >= 1 && b.equipment[k].rentalPrice >= 0.0
  }

  /** Mongoose validation of a document: the hook, then the schema validators. */
  function Validate(b: Booking, today: int): (r: Result<Booking, ValidationError>)
    ensures r == Err(EndNotAfterStart) <==> HookRejects(b)
    ensures r.Ok? ==> TimesWellFormed(b) && r.value == AfterValidateHook(b)
    ensures r.Ok? ==> Minutes(b.timeSlot.endTime) - Minutes(b.timeSlot.startTime) >= 30
    ensures r.Ok? ==> r.value.timeSlot.duration * 60.0 == (Minutes(b.timeSlot.endTime) - Minutes(b.timeSlot.startTime)) as real
    ensures r.Ok? ==> b.day >= today
  {
    var doc := AfterValidateHook(b);
    if HookRejects(b) then Err(EndNotAfterStart)
    else if !SchemaValid(doc, today) then Err(SchemaViolation)
    else Ok(doc)
  }

  /** The instant of the booking date at `startTime`. */
  function StartInstant(b: Booking): int
    requires IsTimeString(b.timeSlot.startTime)
  {
    b.day * DayMs + Minutes(b.timeSlot.startTime) * MinuteMs
  }

  /** The instant of the booking date at `endTime`. */
  function EndInstant(b: Booking): int
    requires IsTimeString(b.timeSlot.endTime)
  {
    b.day * DayMs + Minutes(b.timeSlot.endTime) * MinuteMs
  }

  /** The `isPast` virtual: the end instant is strictly before now. */
  predicate IsPast(b: Booking, now: int)
    requires IsTimeString(b.timeSlot.endTime)
  {
    EndInstant(b) < now
  }

  predicate IsActive(s: Status) {
    s == Pending || s == Confirmed
  }

  /**
   * The `canCancel` virtual: pending or confirmed, and now strictly before the
   * deadline two hours ahead of the start.
   */
  predicate CanCancel(b: Booking, now: int)
    requires IsTimeString(b.timeSlot.startTime)
  {
    IsActive(b.status) && now < StartInstant(b) - 2 * HourMs
  }

  /** The refund tier for the time left until the start, in milliseconds. */
  function RefundPercentage(msUntilStart: int): (p: nat)
    ensures p <= 100
  {
    if msUntilStart >= 24 * HourMs then 100
    else if msUntilStart >= 12 * HourMs then 75
    else if msUntilStart >= 6 * HourMs then 50
    else if msUntilStart >= 2 * HourMs then 25
    else 0
  }

  /** `calculateRefund()`: nothing when the booking cannot be cancelled, otherwise the tier's share. */
  function CalculateRefund(b: Booking, now: int): (r: real)
    requires IsTimeString(b.timeSlot.startTime)
    ensures !CanCancel(b, now) ==> r == 0.0
    ensures b.pricing.totalAmount >= 0.0 ==> 0.0 <= r <= b.pricing.totalAmount
    ensures CanCancel(b, now) && b.pricing.totalAmount >= 0.0 ==> r >= b.pricing.totalAmount / 4.0
  {
    if !CanCancel(b, now) then 0.0
    else b.pricing.totalAmount * (RefundPercentage(StartInstant(b) - now) as real) / 100.0
  }

  lemma {:induction false} RefundPercentageMonotone(less: int, more: int)
    requires less <= more
    ensures RefundPercentage(less) <= RefundPercentage(more)
  {
  }

  /** Asking later never yields a larger refund: the refund is non-decreasing in the time left. */
  lemma RefundNonIncreasingOverTime(b: Booking, earlier: int, later: int)
    requires IsTimeString(b.timeSlot.startTime)
    requires b.pricing.totalAmount >= 0.0
    requires earlier <= later
    ensures CalculateRefund(b, later) <= CalculateRefund(b, earlier)
  {
    if CanCancel(b, later) {
      assert CanCancel(b, earlier);
      var pl := RefundPercentage(StartInstant(b) - later) as real;
      var pe := RefundPercentage(StartInstant(b) - earlier) as real;
      RefundPercentageMonotone(StartInstant(b) - later, StartInstant(b) - earlier);
      assert b.pricing.totalAmount * pl <= b.pricing.totalAmount * pe;
    }
  }

  /** A booking whose end has passed cannot be cancelled. */
  lemma PastBookingsCannotBeCancelled(b: Booking, now: int)
    requires TimesWellFormed(b)
    requires Minutes(b.timeSlot.startTime) < Minutes(b.timeSlot.endTime)
    requires IsPast(b, now)
    ensures !CanCancel(b, now)
    ensures CalculateRefund(b, now) == 0.0
  {
  }

  /** A booking of the same court, on the same date, pending or confirmed, whose window meets the given one. */
  predicate ConflictsWith(other: Booking, court: Id, day: int, startTime: string, endTime: string) {
    other.court == court && other.day == day && IsActive(other.status) &&
    StrOverlap(startTime, endTime, other.timeSlot.startTime, other.timeSlot.endTime)
  }

  /** The `findOne` query of the `pre('save')` hook: a conflicting booking with a different id. */
  predicate HasConflict(bs: seq<Booking>, doc: Booking) {
    exists i :: 0 <= i < |bs| && bs[i].id != doc.id &&
      ConflictsWith(bs[i], doc.court, doc.day, doc.timeSlot.startTime, doc.timeSlot.endTime)
  }

  /** No two pending/confirmed bookings of one court and date overlap (in the string order the hook uses). */
  predicate NoDoubleBooking(bs: seq<Booking>) {
    forall i, j :: 0 <= i < |bs| && 0 <= j < |bs| && i != j && IsActive(bs[j].status) ==>
      !ConflictsWith(bs[i], bs[j].court, bs[j].day, bs[j].timeSlot.startTime, bs[j].timeSlot.endTime)
  }

  /** Every stored booking's times match the schema pattern, which every save enforces. */
  predicate AllWellTimed(bs: seq<Booking>) {
    forall i :: 0 <= i < |bs| ==> TimesWellFormed(bs[i])
  }

  predicate UniqueIds(bs: seq<Booking>) {
    forall i, j :: 0 <= i < j < |bs| ==> bs[i].id != bs[j].id
  }

  predicate AllPadded(bs: seq<Booking>) {
    forall i :: 0 <= i < |bs| ==> IsPadded(bs[i].timeSlot.startTime) && IsPadded(bs[i].timeSlot.endTime)
  }

  /** Where every stored time is zero-padded, no two active bookings of a court and date share a minute. */
  lemma PaddedStoreHasNoMinuteOverlap(bs: seq<Booking>, i: nat, j: nat)
    requires NoDoubleBooking(bs) && AllPadded(bs)
    requires i < |bs| && j < |bs| && i != j
    requires IsActive(bs[i].status) && IsActive(bs[j].status)
    requires bs[i].court == bs[j].court && bs[i].day == bs[j].day
    ensures Minutes(bs[j].timeSlot.endTime) <= Minutes(bs[i].timeSlot.startTime) ||
            Minutes(bs[i].timeSlot.endTime) <= Minutes(bs[j].timeSlot.startTime)
  {
    var a, b := bs[i].timeSlot, bs[j].timeSlot;
    assert !ConflictsWith(bs[i], bs[j].court, bs[j].day, b.startTime, b.endTime);
    PaddedOverlapIsMinuteOverlap(b.startTime, b.endTime, a.startTime, a.endTime);
  }

  function SampleBooking(id: Id, startTime: string, endTime: string): Booking {
    Booking(id, 0, 0, 0, 0, TimeSlot(startTime, endTime, 1.0), Pricing(0.0, 1.0, 0.0),
            Payment(Cash, PaymentPending, None, None, 0.0, None, 0.0, None), Pending, 1, [], None)
  }

  /**
   * With a one-digit hour the string test lets a double booking through:
   * "9:00"-"10:00" and "09:30"-"10:30" on the same court and date both pass,
   * although they share the half hour from 9:30.
   */
  lemma OneDigitHourDoubleBooking()
    ensures var bs := [SampleBooking(1, "9:00", "10:00"), SampleBooking(2, "09:30", "10:30")];
            NoDoubleBooking(bs) &&
            IsTimeString("9:00") && IsTimeString("09:30") &&
            Minutes("09:30") < Minutes("10:00") && Minutes("9:00") < Minutes("10:30")
  {
    var bs := [SampleBooking(1, "9:00", "10:00"), SampleBooking(2, "09:30", "10:30")];
    assert "9:00"[..1] == "9" && "9:00"[2..] == "00";
    assert "09:30"[..2] == "09" && "09:30"[3..] == "30";
    assert "10:00"[..2] == "10" && "10:00"[3..] == "00";
    assert "10:30"[..2] == "10" && "10:30"[3..] == "30";
    assert !StrLt("9:00", "10:30");
    assert !ConflictsWith(bs[0], 0, 0, "09:30", "10:30");
    assert !ConflictsWith(bs[1], 0, 0, "9:00", "10:00");
  }

  /** Whether saving `doc` touches the paths that make the `pre('save')` hook query: date, time slot, court. */
  predicate SlotModified(stored: Booking, doc: Booking) {
    stored.day != doc.day || stored.timeSlot != doc.timeSlot || stored.court != doc.court
  }

  /**
   * `Booking.create(doc)`: validation, then the `pre('save')` conflict hook,
   * then the insert, where only the unique `_id` index can still refuse it.
   */
  function CreateOutcome(bs: seq<Booking>, doc: Booking, now: int): (r: Result<Booking, SaveError>)
    ensures r.Ok? ==> Validate(doc, Today(now)) == Ok(r.value) && !HasConflict(bs, r.value)
    ensures r.Ok? ==> forall i :: 0 <= i < |bs| ==> bs[i].id != doc.id
    ensures r.Ok? <==> Validate(doc, Today(now)).Ok? && (forall i :: 0 <= i < |bs| ==> bs[i].id != doc.id) &&
                       !HasConflict(bs, Validate(doc, Today(now)).value)
    ensures r == Err(SlotTaken) <==> Validate(doc, Today(now)).Ok? && HasConflict(bs, Validate(doc, Today(now)).value)
    ensures r == Err(DuplicateId) <==> Validate(doc, Today(now)).Ok? && !HasConflict(bs, Validate(doc, Today(now)).value) &&
                                       exists i :: 0 <= i < |bs| && bs[i].id == doc.id
  {
    match Validate(doc, Today(now))
    case Err(e) => Err(Invalid(e))
    case Ok(d) =>
      if HasConflict(bs, d) then Err(SlotTaken)
      else if exists i :: 0 <= i < |bs| && bs[i].id == d.id then Err(DuplicateId)
      else Ok(d)
  }

  /**
   * Back-to-back bookings are accepted: a valid document with a fresh id whose
   * window only touches those of the active bookings of its court and date,
   * ending where they start or starting where they end, is created.
   */
  lemma TouchingBookingIsCreated(bs: seq<Booking>, doc: Booking, now: int)
    requires Validate(doc, Today(now)).Ok?
    requires forall i :: 0 <= i < |bs| ==> bs[i].id != doc.id
    requires forall i :: 0 <= i < |bs| && bs[i].court == doc.court && bs[i].day == doc.day && IsActive(bs[i].status) ==>
               bs[i].timeSlot.endTime == doc.timeSlot.startTime || bs[i].timeSlot.startTime == doc.timeSlot.endTime
    ensures CreateOutcome(bs, doc, now) == Ok(AfterValidateHook(doc))
  {
    var d := Validate(doc, Today(now)).value;
    forall i | 0 <= i < |bs|
      ensures !ConflictsWith(bs[i], d.court, d.day, d.timeSlot.startTime, d.timeSlot.endTime)
    {
      var other := bs[i].timeSlot;
      TouchingWindowsDoNotOverlap(other.startTime, d.timeSlot.startTime, d.timeSlot.endTime);
      TouchingWindowsDoNotOverlap(d.timeSlot.startTime, d.timeSlot.endTime, other.endTime);
    }
  }

  /** `doc.save()` of the stored booking at position `i`. */
  function SaveOutcome(bs: seq<Booking>, i: nat, doc: Booking, now: int): (r: Result<Booking, SaveError>)
    requires i < |bs|
    ensures r.Ok? ==> Validate(doc, Today(now)) == Ok(r.value)
    ensures r.Ok? && SlotModified(bs[i], r.value) ==> !HasConflict(bs, r.value)
  {
    match Validate(doc, Today(now))
    case Err(e) => Err(Invalid(e))
    case Ok(d) => if SlotModified(bs[i], d) && HasConflict(bs, d) then Err(SlotTaken) else Ok(d)
  }

  /** Inserting a booking that passed the conflict hook keeps the collection free of double bookings. */
  lemma {:induction false} CreateKeepsNoDoubleBooking(bs: seq<Booking>, doc: Booking, now: int)
    requires NoDoubleBooking(bs)
    requires CreateOutcome(bs, doc, now).Ok?
    ensures NoDoubleBooking(bs + [CreateOutcome(bs, doc, now).value])
  {
    var d := CreateOutcome(bs, doc, now).value;
    var bs' := bs + [d];
    assert d.id == doc.id;
    forall i, j | 0 <= i < |bs'| && 0 <= j < |bs'| && i != j && IsActive(bs'[j].status)
      ensures !ConflictsWith(bs'[i], bs'[j].court, bs'[j].day, bs'[j].timeSlot.startTime, bs'[j].timeSlot.endTime)
    {
      if j == |bs| {
        assert bs'[i] == bs[i] && bs[i].id != d.id;
      } else if i == |bs| {
        var o := bs[j];
        assert bs'[j] == o && o.id != d.id;
        assert !ConflictsWith(o, d.court, d.day, d.timeSlot.startTime, d.timeSlot.endTime);
      } else {
        assert bs'[i] == bs[i] && bs'[j] == bs[j];
      }
    }
  }

  /** A `$inc` of one counter by one: a stored counter grows by one, a missing document changes nothing. */
  function Bumped(totals: map<Id, int>, key: Id): (r: map<Id, int>)
    ensures r.Keys == totals.Keys
    ensures key in totals ==> r[key] == totals[key] + 1
    ensures forall k :: k in totals && k != key ==> r[k] == totals[k]
  {
    if key in totals then totals[key := totals[key] + 1] else totals
  }

  /**
   * The booking collection, with the per-facility and per-court `totalBookings`
   * counters the payment handler increments.
   */
  class Store {
    var bookings: seq<Booking>
    var facilityTotals: map<Id, int>
    var courtTotals: map<Id, int>

    constructor (bookings: seq<Booking>, facilityTotals: map<Id, int>, courtTotals: map<Id, int>)
      ensures this.bookings == bookings
      ensures this.facilityTotals == facilityTotals && this.courtTotals == courtTotals
    {
      this.bookings := bookings;
      this.facilityTotals := facilityTotals;
      this.courtTotals := courtTotals;
    }

    /** `Booking.create(doc)`: run the hooks and insert the document when they pass. */
    method Create(doc: Booking, now: int) returns (r: Result<Booking, SaveError>)
      modifies this
      ensures r == CreateOutcome(old(bookings), doc, now)
      ensures bookings == if r.Ok? then old(bookings) + [r.value] else old(bookings)
      ensures facilityTotals == old(facilityTotals) && courtTotals == old(courtTotals)
      ensures old(NoDoubleBooking(bookings)) ==> NoDoubleBooking(bookings)
      ensures old(AllWellTimed(bookings)) ==> AllWellTimed(bookings)
      ensures old(UniqueIds(bookings)) ==> UniqueIds(bookings)
    {
      var d := doc;
      if TimesWellFormed(d) {
        d := d.(timeSlot := d.timeSlot.(duration := SlotHours(d.timeSlot.startTime, d.timeSlot.endTime)));
      }
      if HookRejects(doc) {
        r := Err(Invalid(EndNotAfterStart));
        return;
      }
      if !SchemaValid(d, Today(now)) {
        r := Err(Invalid(SchemaViolation));
        return;
      }
      if HasConflict(bookings, d) {
        r := Err(SlotTaken);
        return;
      }
      if exists i :: 0 <= i < |bookings| && bookings[i].id == d.id {
        r := Err(DuplicateId);
        return;
      }
      if NoDoubleBooking(bookings) {
        CreateKeepsNoDoubleBooking(bookings, doc, now);
      }
      bookings := bookings + [d];
      r := Ok(d);
    }

    /** `doc.save()` for the stored booking at position `i`. */
    method Save(i: nat, doc: Booking, now: int) returns (r: Result<Booking, SaveError>)
      requires i < |bookings|
      modifies this
      ensures r == SaveOutcome(old(bookings), i, doc, now)
      ensures bookings == if r.Ok? then old(bookings)[i := r.value] else old(bookings)
      ensures facilityTotals == old(facilityTotals) && courtTotals == old(courtTotals)
      ensures old(AllWellTimed(bookings)) ==> AllWellTimed(bookings)
    {
      var d := doc;
      if TimesWellFormed(d) {
        d := d.(timeSlot := d.timeSlot.(duration := SlotHours(d.timeSlot.startTime, d.timeSlot.endTime)));
      }
      if HookRejects(doc) {
        r := Err(Invalid(EndNotAfterStart));
        return;
      }
      if !SchemaValid(d, Today(now)) {
        r := Err(Invalid(SchemaViolation));
        return;
      }
      if SlotModified(bookings[i], d) && HasConflict(bookings, d) {
        r := Err(SlotTaken);
        return;
      }
      bookings := bookings[i := d];
      r := Ok(d);
    }

    /** `findByIdAndUpdate(id, { $inc: { totalBookings: 1 } })` on a facility and on a court; a missing id is a no-op. */
    method IncrementTotals(facility: Id, court: Id)
      modifies this
      ensures facilityTotals == Bumped(old(facilityTotals), facility)
      ensures courtTotals == Bumped(old(courtTotals), court)
      ensures bookings == old(bookings)
    {
      if facility in facilityTotals {
        facilityTotals := facilityTotals[facility := facilityTotals[facility] + 1];
      }
      if court in courtTotals {
        courtTotals := courtTotals[court := courtTotals[court] + 1];
      }
    }
  }
}
