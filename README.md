# QuickCourt booking engine, modelled in Dafny

QuickCourt is a sports-venue booking service: an Express/Mongoose backend and
a React/Redux client. This project models its court-booking engine and the
small state machines around it, and proves what they guarantee:

- **Clock strings** (`clock.dfy`). These are the `HH:MM` strings of the booking schema and the
  `split(':').map(Number)` parse. They include the zero-padded rendering of the slot loop and
  JavaScript's string order, which every conflict test uses. Both interval tests built on that
  order are modelled: the two-clause booking test and the three-clause maintenance and slot test.
- **Courts and facilities** (`court.dfy`). The court model covers `isAvailableAt` (weekday flag
  and same-date maintenance), the court schema bounds and the `getAvailableSlots` stub. The
  facility model keeps the fields the engine reads: operating hours, the peak window and the
  approval state.
- **Bookings** (`booking.dfy`). This covers the schema validators and the `pre('validate')`
  duration hook, plus the `pre('save')` conflict hook. It also covers `isPast`, `canCancel`,
  `calculateRefund` and a booking store (`Bookings.Store`) that runs the hooks on create and save.
- **Booking handlers** (`booking_controller.dfy`). These are `createBooking`,
  `updateBookingStatus`, `confirmPayment` and the hourly slot loop of `getAvailableSlots`. Each
  handler is a method on the store, proved equal to a function that states its whole outcome.
- **Reviews** (`review.dfy`). This covers the `averageRating` virtual, helpful votes
  (`markHelpful`, `unmarkHelpful`) and reports with the moderation threshold (`report`).
- **Users** (`user.dfy`). This covers the phone, password and role constraints, and OTP issue,
  check and clear.
- **Local image upload** (`image_upload.dfy`). This covers the type and size check, the `data:`
  URL and the records of a batch.
- **Admin handlers** (`admin.dfy`). These are `approveFacility` (with the auto-activation loop
  over the facility's pending courts), `approveCourt` and `updateUserStatus`.
- **Redux slices** (`admin_slice.dfy`, `booking_slice.dfy`, `facility_slice.dfy`,
  `auth_slice.dfy`). Every reducer is a method that changes the slice's fields in place. The
  list operations they share live in `lists.dfy`.

The clock, the random draw, the payment gateway's answers, browser storage and
the ids the database assigns are parameters. Times are milliseconds, and a
booking date is a local day number (day 0 is Thursday 1 January 1970). Money
is a Dafny `real`.

Several quirks of the source are modelled as written, not fixed:

- All conflict tests compare time strings, not minutes. One-digit hours therefore let double
  bookings through.
- The validation hook stores a duration even when it reports an error.
- `updateBookingStatus` guards no transition except cancellation, so re-confirming a cancelled
  booking can double-book a slot.
- `confirmPayment` increments the counters even for an uncaptured payment.
- `approveCourt` writes a status that the court schema refuses (see Findings).
- Court creation writes `pending`, which the court schema's status enum also refuses. No stored court is ever pending, so the auto-activation loop of `approveFacility` never fires on stored data.

## Model

| member | source | states |
|---|---|---|
| Clock.Minutes | backend/models/Booking.js:226-230 | the `h * 60 + m` parse of a time string matching the schema pattern is a minute of the day, below 1440 |
| Clock.FormatThenParse | backend/controllers/bookingController.js:607-614 | each minute of the day the slot loop renders becomes a zero-padded time string that parses back to that minute |
| Clock.ParseThenFormat | backend/controllers/bookingController.js:608-614 | a zero-padded time string, parsed and rendered again, comes back unchanged |
| Clock.OneDigitHourDrifts | backend/models/Booking.js:33 | the pattern accepts "9:00", which does not survive the round trip: it comes back as "09:00" |
| Clock.PaddedOrderIsMinuteOrder | backend/models/Booking.js:250-255 | on zero-padded strings JavaScript's string order is exactly the order of the minutes they denote |
| Clock.OneDigitHourMisorders | backend/models/Booking.js:33 | with a one-digit hour the orders disagree: 9:00 is earlier than 10:00, yet "10:00" < "9:00" |
| Clock.ThreeClauseIsOverlap | backend/models/Court.js:278-280 | for windows that are non-empty in string order, the three-clause maintenance/slot test holds iff the two-clause booking conflict test holds |
| Clock.OverlapIsThreeClause | backend/controllers/bookingController.js:617-621 | with no condition on the windows, meeting in the two-clause test implies meeting in the three-clause test |
| Clock.TouchingWindowsDoNotOverlap | backend/models/Booking.js:250-255 | windows that only share an endpoint never conflict, in either order |
| Clock.PaddedOverlapIsMinuteOverlap | backend/models/Booking.js:250-255 | on zero-padded strings the conflict test is the half-open minute-interval overlap |
| Courts.Weekday | backend/models/Court.js:267 | the `getDay()` index of a day number is in 0..6 |
| Courts.IsAvailableAt | backend/models/Court.js:266-284 | false when the weekday flag is off; true iff the flag is on and no maintenance entry on that date passes the three-clause test |
| Courts.OtherDatesNeverBlock | backend/models/Court.js:275-281 | adding maintenance entries on other dates never changes availability |
| Courts.CompletionIsIgnored | backend/models/Court.js:185-188 | setting any entries' `isCompleted` flags leaves availability unchanged |
| Courts.AvailabilityUsesBookingOverlap | backend/models/Court.js:275-283 | for non-empty windows, availability is the weekday flag plus the absence of a same-date entry meeting the booking conflict test |
| Courts.CourtAvailableSlots | backend/models/Court.js:287-317 | every path of the model method returns the empty list |
| Bookings.Validate | backend/models/Booking.js:224-240 | the hook error is reported iff the end minute is not after the start; an accepted document spans at least 30 minutes, has duration (end - start) / 60 and a date not before today |
| Bookings.ParsePaymentMethod | backend/models/Booking.js:77-80 | the `payment.method` enum accepts exactly "stripe", "razorpay", "cash" and "wallet", each as itself |
| Bookings.PaymentMethodNamesRoundTrip | backend/models/Booking.js:77-80 | every method is accepted under its own spelling |
| Bookings.RefundPercentage | backend/models/Booking.js:300-309 | the refund tier is at most 100 percent |
| Bookings.CalculateRefund | backend/models/Booking.js:289-312 | 0 when the booking cannot be cancelled; otherwise between a quarter of the total and the total |
| Bookings.RefundPercentageMonotone | backend/models/Booking.js:300-309 | more time left until the start never gives a lower tier |
| Bookings.RefundNonIncreasingOverTime | backend/models/Booking.js:289-311 | asking later (one clock reading per call) never gives a larger refund |
| Bookings.PastBookingsCannotBeCancelled | backend/models/Booking.js:266-286 | a booking whose end has passed cannot be cancelled and is refunded nothing |
| Bookings.CreateOutcome | backend/models/Booking.js:224-263 | a document is created iff it passes validation, meets no active booking of its court and date, and has a fresh id; a valid document is refused as taken iff it meets one (the save hook runs before the insert), and as a duplicate id iff only the id is stored |
| Bookings.TouchingBookingIsCreated | backend/models/Booking.js:243-262 | a valid document with a fresh id whose window only touches the active bookings of its court and date (ending where they start, or starting where they end) is created |
| Bookings.SaveOutcome | backend/models/Booking.js:243-262 | a saved document passed validation, and it was checked for conflicts whenever its date, slot or court changed |
| Bookings.CreateKeepsNoDoubleBooking | backend/models/Booking.js:243-262 | inserting a document the hooks accept keeps the collection free of overlapping active bookings |
| Bookings.PaddedStoreHasNoMinuteOverlap | backend/models/Booking.js:243-262 | where all stored times are zero-padded, no two active bookings of a court and date share a minute |
| Bookings.OneDigitHourDoubleBooking | backend/models/Booking.js:250-255 | "9:00"-"10:00" and "09:30"-"10:30" pass the conflict test together although they share half an hour |
| Bookings.Store.Create | backend/models/Booking.js:224-263 | `Booking.create` inserts exactly the document `CreateOutcome` accepts and keeps no-double-booking, well-formed times and unique ids |
| Bookings.Store.Save | backend/models/Booking.js:224-263 | `save()` replaces the stored booking exactly when `SaveOutcome` accepts |
| Bookings.Bumped | backend/controllers/bookingController.js:453-461 | a `$inc` by one keeps the counters' keys, adds one to the named stored counter and leaves every other counter alone |
| Bookings.Store.IncrementTotals | backend/controllers/bookingController.js:453-461 | each `$inc` adds one to a stored counter; a missing id changes nothing |
| BookingController.EquipmentSum | backend/controllers/bookingController.js:102-108 | the equipment cost is non-negative when every quantity and price is |
| BookingController.EquipmentSumAppend | backend/controllers/bookingController.js:103-108 | the cost of two item lists is the sum of their costs |
| BookingController.EquipmentCost | backend/controllers/bookingController.js:103-108 | the `forEach` accumulation computes the equipment sum |
| BookingController.MethodOf | backend/controllers/bookingController.js:31 | an absent method defaults to Razorpay, and the request pays by Razorpay iff its method text is "razorpay" |
| BookingController.Precheck | backend/controllers/bookingController.js:14-77 | when all checks pass, the request is valid, the court exists and belongs to the facility, and no active booking conflicts |
| BookingController.CheckRequest | backend/controllers/bookingController.js:14-77 | the handler's checks, in order, give exactly the `Precheck` outcome |
| BookingController.FindConflict | backend/controllers/bookingController.js:60-70 | the conflict query finds a booking iff some active booking of the court and date meets the window |
| BookingController.PlanBooking | backend/controllers/bookingController.js:12-183 | a created booking passed every check, had its payment order when paying by Razorpay, and is what `Booking.create` accepts |
| BookingController.CreatedBookingIsPriced | backend/controllers/bookingController.js:79-157 | a created booking has the requested slot and method (Razorpay when absent), pending status and payment, at least 30 minutes, the start-minute peak multiplier, total = rate x hours x multiplier + equipment, and an order id iff it pays by Razorpay |
| BookingController.StartBeforePeakIsOffPeak | backend/controllers/bookingController.js:86-100 | a booking starting before the peak window pays the base rate for its whole duration |
| BookingController.EndNotAfterStartIsServerError | backend/controllers/bookingController.js:159-182 | an end not after the start is never a validation failure, and once the handler's checks and the payment order succeed it is answered as a server error by `Booking.create` |
| BookingController.UnknownPaymentMethodIsServerError | backend/controllers/bookingController.js:112-182 | a method outside the schema enum creates no gateway order and, once the handler's checks pass, is answered as a server error with nothing stored |
| BookingController.CreateBookingKeepsNoDoubleBooking | backend/controllers/bookingController.js:59-77 | a created booking keeps the collection free of overlapping active bookings |
| BookingController.CreateBooking | backend/controllers/bookingController.js:12-183 | the handler returns the `PlanBooking` outcome and appends exactly the created booking |
| BookingController.ParseStatus | backend/controllers/bookingController.js:282-289 | an accepted status is never "pending" and is spelled as the schema spells it |
| BookingController.StatusNamesRoundTrip | backend/controllers/bookingController.js:282-284 | every status except "pending" is accepted under its own name |
| BookingController.FindBooking | backend/controllers/bookingController.js:291-300 | the position found holds the id; none is found iff no booking has it |
| BookingController.PlanStatusUpdate | backend/controllers/bookingController.js:279-354 | a planned update is for the booking with the id and sets the requested status |
| BookingController.StatusUpdateOutcome | backend/controllers/bookingController.js:279-389 | a successful response comes from a successful plan |
| BookingController.CancellationFollowsRefundPolicy | backend/controllers/bookingController.js:316-352 | a cancellation needs `canCancel`, records `calculateRefund`'s amount, actor, time and reason, and marks the payment refunded iff it was completed and the refund is positive |
| BookingController.AnyStatusMayBeReopened | backend/controllers/bookingController.js:315-355 | an authorized request may set any booking, cancelled or completed included, to confirmed, completed or no-show, changing only the status |
| BookingController.UpdateKeepsNoDoubleBooking | backend/controllers/bookingController.js:354-355 | an update that does not re-confirm an inactive booking keeps the collection free of double bookings |
| BookingController.ReconfirmingCancelledBookingDoubleBooks | backend/controllers/bookingController.js:354-355 | re-confirming a cancelled booking whose hour another confirmed booking holds succeeds and double-books it |
| BookingController.UpdateBookingStatus | backend/controllers/bookingController.js:279-389 | the handler returns the `StatusUpdateOutcome` and stores exactly the saved document |
| BookingController.SaveAndCount | backend/controllers/bookingController.js:451-461 | the counters move iff the final save succeeds |
| BookingController.ConfirmPaymentOutcome | backend/controllers/bookingController.js:394-475 | counting implies a success response, which implies the booking exists; a failing save after a bad signature is caught by the inner handler as a payment-confirmation failure |
| BookingController.CountedExactlyOnSuccess | backend/controllers/bookingController.js:451-467 | the counters are incremented exactly when the handler answers with success |
| BookingController.CapturedPaymentConfirms | backend/controllers/bookingController.js:433-438 | a captured payment confirms the booking, marks the payment completed and records the whole total, the payment id and the time |
| BookingController.UncapturedPaymentIsCounted | backend/controllers/bookingController.js:439-467 | an uncaptured payment is marked failed yet answered with success and counted |
| BookingController.FetchFailureChangesNothing | backend/controllers/bookingController.js:442-448 | a failed payment fetch answers with its message and stores nothing |
| BookingController.InvalidSignatureStoresFailure | backend/controllers/bookingController.js:417-448 | a bad signature counts nothing; it answers "invalid signature" iff the save of the failed payment succeeds, which stores it, and otherwise answers "payment confirmation failed" with the save error's message and stores nothing |
| BookingController.SaveThenCount | backend/controllers/bookingController.js:451-461 | the response and stored bookings are `SaveAndCount`'s, and both counters are bumped exactly when it counts |
| BookingController.ConfirmPayment | backend/controllers/bookingController.js:394-475 | the handler's response, stored bookings and counters are those of `ConfirmPaymentOutcome` |
| BookingController.DayBookings | backend/controllers/bookingController.js:590-597 | the query yields exactly the stored active bookings of the court and date |
| BookingController.AvailableSlots | backend/controllers/bookingController.js:551-656 | a missing date is refused; a closed weekday yields no slots |
| BookingController.SlotsFromSound | backend/controllers/bookingController.js:607-643 | every offered slot is the free hour starting a whole number of hours after opening and before closing |
| BookingController.SlotsFromComplete | backend/controllers/bookingController.js:607-643 | every free hour on that grid before closing is offered |
| BookingController.SlotTimesArePadded | backend/controllers/bookingController.js:608-614 | a slot's two times are zero-padded, denote its minutes and are ordered |
| BookingController.OfferedSlotIsNotTaken | backend/controllers/bookingController.js:617-623 | an offered slot passes the create handler's conflict query, whatever the stored bookings' times |
| BookingController.OfferedSlotIsFreeInMinutes | backend/controllers/bookingController.js:617-623 | with zero-padded stored times an offered slot shares no minute with an active booking of the court and date |
| BookingController.SlotPriceIsBookingPrice | backend/controllers/bookingController.js:625-633 | booking an offered hour without equipment costs the price the slot list shows |
| BookingController.AnyOverlap | backend/controllers/bookingController.js:617-621 | the `.some` loop finds an overlap iff one exists |
| BookingController.HourEntry | backend/controllers/bookingController.js:607-642 | one iteration pushes the hour's slot iff it is free and the court is available |
| BookingController.SlotsBetween | backend/controllers/bookingController.js:607-643 | the hourly loop builds exactly the grid of offered slots |
| BookingController.GetAvailableSlots | backend/controllers/bookingController.js:551-656 | the handler returns the `AvailableSlots` response |
| Reviews.PresentRatings | backend/models/Review.js:163-169 | the list of defined ratings starts with the required overall rating and has one to five entries |
| Reviews.AverageWithinScale | backend/models/Review.js:161-174 | ratings within the schema's 1..5 bounds average to a value within 1..5 |
| Reviews.AverageOfOverallOnly | backend/models/Review.js:161-174 | with only the overall rating present, the average is that rating |
| Reviews.IndexOf | backend/models/Review.js:188 | `indexOf` is -1 iff the user is absent, else the first position holding the user |
| Reviews.MarkHelpful | backend/models/Review.js:177-184 | refused iff the user already voted; otherwise the user is appended to the voters and the counter grows by one |
| Reviews.UnmarkHelpful | backend/models/Review.js:187-195 | refused iff the user has not voted; otherwise the first occurrence of the user is removed and the counter drops by one, but not below zero |
| Reviews.MarkKeepsVotesConsistent | backend/models/Review.js:177-184 | marking keeps count == number of voters and no duplicate voters |
| Reviews.UnmarkKeepsVotesConsistent | backend/models/Review.js:187-195 | unmarking keeps count == number of voters and no duplicate voters |
| Reviews.MarkThenUnmarkRestores | backend/models/Review.js:177-195 | unmarking right after a first mark restores the votes exactly |
| Reviews.Reported | backend/models/Review.js:198-221 | refused iff the user already reported; otherwise exactly one report is appended, and the status is pending moderation iff it was or there are now at least three reports |
| Reviews.ReportKeepsOneReportPerUser | backend/models/Review.js:198-214 | reporting keeps one report per user |
| Reviews.ThirdReportOverridesStatus | backend/models/Review.js:215-218 | the third report sends the review to moderation from any status |
| Reviews.EarlyReportsKeepStatus | backend/models/Review.js:215-218 | with fewer than three reports the status is unchanged |
| Reviews.Review.constructor | backend/models/Review.js:92-121 | a new review has no votes, no reports and status active |
| Reviews.Review.MarkHelpfulBy | backend/models/Review.js:177-184 | the method stores `MarkHelpful`'s result or throws, changing nothing else |
| Reviews.Review.UnmarkHelpfulBy | backend/models/Review.js:187-195 | the method stores `UnmarkHelpful`'s result or throws, changing nothing else |
| Reviews.Review.ReportBy | backend/models/Review.js:198-221 | the method applies `Reported`, and the save fails iff some report's reason is outside the enum |
| Users.ParseRole | backend/models/User.js:32-36 | exactly the three role names are accepted, each as itself |
| Users.SchemaErrors | backend/models/User.js:21-36 | the password is refused iff shorter than 6, the phone iff not exactly ten digits, the role iff not one of the three |
| Users.PhoneNeedsTenDigits | backend/models/User.js:27-31 | nine digits and a dashed number are refused, ten digits accepted |
| Users.DecimalString | backend/models/User.js:127 | `toString()` of a number is non-empty digits without a leading zero |
| Users.DecimalRoundTrip | backend/models/User.js:127 | reading a rendered number back gives the number |
| Users.DecimalLength | backend/models/User.js:127 | a number with k + 1 digits renders as k + 1 characters |
| Users.OtpNumber | backend/models/User.js:127 | `Math.floor(100000 + draw * 900000)` lies in 100000..999999 for any draw in [0, 1) |
| Users.OtpCode | backend/models/User.js:127 | the code has six digits, no leading zero, and denotes the drawn number |
| Users.User.constructor | backend/models/User.js:45-56 | a new account is active and holds no OTP |
| Users.User.GenerateOtp | backend/models/User.js:126-136 | the returned six-digit code is stored with expiry now + 600000 ms, and a code verifies at a time iff it is that code and the time is before the expiry |
| Users.User.ClearOtp | backend/models/User.js:139-142 | after clearing, no code verifies at any time |
| ImageUpload.ValidateImageFile | backend/utils/localImageUpload.js:22-35 | the type error iff the type is not allowed; the size error iff allowed but over 5 MiB; `true` iff both checks pass |
| ImageUpload.ConvertToBase64 | backend/utils/localImageUpload.js:4-6 | the URL is "data:", the media type, ";base64," and the encoded text, in that order |
| ImageUpload.DataUrlRoundTrip | backend/utils/localImageUpload.js:4-6 | a media type without ';' and the base64 text are recovered from the URL |
| ImageUpload.AcceptedTypesRoundTrip | backend/utils/localImageUpload.js:22-35 | the URL of every accepted file splits back into its type and text |
| ImageUpload.ProcessLocalImages | backend/utils/localImageUpload.js:8-20 | no files give no records; otherwise one record per file, in order, copying name, type and size, with the file's data URL |
| ImageUpload.ValidatedImagesDecode | backend/utils/localImageUpload.js:8-20 | every URL of a validated batch splits back into its file's type and text |
| AdminController.CommentsOrEmpty | backend/controllers/adminController.js:122 | `adminComments || ''`: the comment when present and non-empty, else empty |
| AdminController.FacilityIndex | backend/controllers/adminController.js:110-116 | the position found holds the id; -1 iff no facility has it |
| AdminController.CourtIndex | backend/controllers/adminController.js:230-236 | the position found holds the id; -1 iff no court has it |
| AdminController.UserIndex | backend/controllers/adminController.js:319-325 | the position found holds the id; -1 iff no user has it |
| AdminController.ActivatePending | backend/controllers/adminController.js:135-147 | the auto-activation loop keeps the number of courts |
| AdminController.ActivatePendingAppend | backend/controllers/adminController.js:138-142 | before the first failing save, the loop works court by court |
| AdminController.ActivationTouchesOnlyPendingCourts | backend/controllers/adminController.js:135-142 | each court is either unchanged or a pending court of the facility made active |
| AdminController.ActivationCompletes | backend/controllers/adminController.js:135-142 | when no save fails, every pending court of the facility becomes active and no other court changes |
| AdminController.FacilityDecision | backend/controllers/adminController.js:103-108 | only "approved" and "rejected" are accepted |
| AdminController.ApproveFacilityOutcome | backend/controllers/adminController.js:89-161 | errors store nothing; a success stores the found facility with the decided status and approval details (the admin, the time and the comment or '') and nothing else changed; an approval leaves the courts as the activation loop does; a rejection needs comments and touches no court |
| AdminController.RejectionNeedsComments | backend/controllers/adminController.js:118-132 | a rejection without comments is refused before the save and changes nothing |
| AdminController.ApprovalTouchesOnlyThatFacility | backend/controllers/adminController.js:118-147 | an approval changes only that facility, and of the courts only pending courts of it, which it activates |
| AdminController.ApprovalActivatesPendingCourts | backend/controllers/adminController.js:134-142 | an approval in which no court save fails leaves no pending court of the facility: each is stored activated |
| AdminController.SchemaValidCourtsAreNeverActivated | backend/models/Court.js:217-221 | the status enum has no `pending`, so the activation loop leaves every schema-valid court unchanged |
| AdminController.ApproveCourtOutcome | backend/controllers/adminController.js:209-262 | errors store nothing; a success is an activation of a stored court, active and `isActive` |
| AdminController.CourtRejectionAlwaysFails | backend/controllers/adminController.js:238-248 | as written every court rejection fails, and a commented rejection of a stored court fails in the save |
| AdminController.ApproveCourtIntended | backend/controllers/adminController.js:209-262 | with `rejected` in the enum, errors still store nothing |
| AdminController.IntendedRejectionIsSaved | backend/controllers/adminController.js:238-248 | with `rejected` in the enum, a commented rejection of a valid court is stored as rejected and inactive |
| AdminController.IntendedAgreesOnActivation | backend/controllers/adminController.js:223-248 | the corrected and as-written handlers agree on activations |
| AdminController.AdminStore.ActivateCourtsOf | backend/controllers/adminController.js:135-147 | the loop leaves the courts as `ActivatePending` says and touches nothing else |
| AdminController.AdminStore.ApproveFacility | backend/controllers/adminController.js:89-161 | the handler's response and stored facilities and courts are `ApproveFacilityOutcome`'s |
| AdminController.AdminStore.ApproveCourt | backend/controllers/adminController.js:209-262 | the handler's response and stored courts are `ApproveCourtOutcome`'s |
| AdminController.AdminStore.UpdateUserStatus | backend/controllers/adminController.js:314-342 | unknown user: not found; an uncastable value: the save fails and nothing changes; otherwise only the user's `isActive` is set |
| AdminSlice.DecrementCount | frontend/src/redux/slices/adminSlice.js:169-171 | `Math.max(0, n - 1)` is never negative and is n - 1 from 1 upward |
| AdminSlice.WithUserActive | frontend/src/redux/slices/adminSlice.js:215-220 | only the first user with the id gets the flag; every other row and every id are unchanged |
| AdminSlice.AdminState.constructor | frontend/src/redux/slices/adminSlice.js:5-12 | the initial state: no stats, empty lists, not loading, no error |
| AdminSlice.AdminState.ClearError | frontend/src/redux/slices/adminSlice.js:128-130 | the error is cleared and nothing else changes |
| AdminSlice.AdminState.FetchPending | frontend/src/redux/slices/adminSlice.js:135-138 | loading, the error cleared, data unchanged |
| AdminSlice.AdminState.FetchRejected | frontend/src/redux/slices/adminSlice.js:143-146 | not loading, the message kept, data unchanged |
| AdminSlice.AdminState.FetchStatsFulfilled | frontend/src/redux/slices/adminSlice.js:139-142 | the stats are the payload |
| AdminSlice.AdminState.FetchPendingFacilitiesFulfilled | frontend/src/redux/slices/adminSlice.js:153-156 | the pending facilities are the payload's |
| AdminSlice.AdminState.FetchPendingCourtsFulfilled | frontend/src/redux/slices/adminSlice.js:179-182 | the pending courts are the payload's |
| AdminSlice.AdminState.FetchUsersFulfilled | frontend/src/redux/slices/adminSlice.js:205-208 | the users are the payload's |
| AdminSlice.AdminState.ApproveFacilityFulfilled | frontend/src/redux/slices/adminSlice.js:163-172 | exactly the facilities with the id leave the queue, and the counter drops by one but not below zero; nothing changes without stats |
| AdminSlice.AdminState.ApproveCourtFulfilled | frontend/src/redux/slices/adminSlice.js:189-198 | the same for the court queue and its counter |
| AdminSlice.AdminState.UpdateUserStatusFulfilled | frontend/src/redux/slices/adminSlice.js:215-220 | the users become `WithUserActive` of the old list |
| Lists.FindIndex | frontend/src/redux/slices/bookingSlice.js:181 | `findIndex` is -1 iff no entry has the id, else the first entry with it |
| Lists.WithoutId | frontend/src/redux/slices/facilitySlice.js:249 | the filter keeps exactly the entries with another id |
| Lists.WithoutIdAppend | frontend/src/redux/slices/facilitySlice.js:249 | filtering distributes over concatenation, so the kept entries keep their order |
| Lists.WithoutAbsentId | frontend/src/redux/slices/adminSlice.js:165-167 | a list without the id is left exactly as it was |
| Lists.WithoutIdIdempotent | frontend/src/redux/slices/adminSlice.js:165-167 | filtering twice by an id is filtering once |
| Lists.ReplaceFirst | frontend/src/redux/slices/bookingSlice.js:181-184 | replacing keeps the length |
| Lists.ReplaceFirstChangesOnlyFirstMatch | frontend/src/redux/slices/bookingSlice.js:181-184 | only the first entry with the id changes, into the new one; ids are kept; no match changes nothing |
| Lists.ReplaceFirstIdempotent | frontend/src/redux/slices/bookingSlice.js:181-184 | replacing with the same document twice is replacing once |
| BookingSlice.WithCreated | frontend/src/redux/slices/bookingSlice.js:135-144 | a present booking goes first and the rest follow unchanged; no booking, no change |
| BookingSlice.CurrentAfter | frontend/src/redux/slices/bookingSlice.js:185-187 | the booking on screen is replaced iff it has the returned id |
| BookingSlice.BookingState.constructor | frontend/src/redux/slices/bookingSlice.js:5-16 | the initial state and pagination |
| BookingSlice.BookingState.ClearCurrentBooking | frontend/src/redux/slices/bookingSlice.js:118-120 | the booking on screen is cleared, nothing else changes |
| BookingSlice.BookingState.ClearError | frontend/src/redux/slices/bookingSlice.js:121-123 | the error is cleared, nothing else changes |
| BookingSlice.BookingState.ClearAvailableSlots | frontend/src/redux/slices/bookingSlice.js:124-126 | no slots remain, nothing else changes |
| BookingSlice.BookingState.RequestPending | frontend/src/redux/slices/bookingSlice.js:131-134 | loading and the error cleared |
| BookingSlice.BookingState.RequestRejected | frontend/src/redux/slices/bookingSlice.js:145-148 | not loading and the message kept |
| BookingSlice.BookingState.CreateBookingFulfilled | frontend/src/redux/slices/bookingSlice.js:135-144 | the bookings become `WithCreated` of the old list |
| BookingSlice.BookingState.FetchUserBookingsFulfilled | frontend/src/redux/slices/bookingSlice.js:155-159 | the list and pagination are the payload's |
| BookingSlice.BookingState.FetchBookingFulfilled | frontend/src/redux/slices/bookingSlice.js:170-173 | the booking on screen is the payload |
| BookingSlice.BookingState.BookingReturned | frontend/src/redux/slices/bookingSlice.js:180-199 | the first booking with the id is replaced and the one on screen follows `CurrentAfter`; the loading flag is untouched |
| BookingSlice.BookingState.FetchAvailableSlotsFulfilled | frontend/src/redux/slices/bookingSlice.js:206-209 | the slots are the payload |
| BookingSlice.BookingState.FetchAvailableSlotsRejected | frontend/src/redux/slices/bookingSlice.js:210-214 | the message is kept and no stale slots remain |
| BookingSlice.ReturnedBookingKeepsOthers | frontend/src/redux/slices/bookingSlice.js:180-199 | a returned booking keeps the length and every other booking; one not held changes nothing |
| FacilitySlice.CurrentAfterDelete | frontend/src/redux/slices/facilitySlice.js:250-252 | the facility on screen is cleared iff it is the deleted one |
| FacilitySlice.FacilityState.constructor | frontend/src/redux/slices/facilitySlice.js:5-19 | the initial state and pagination |
| FacilitySlice.FacilityState.ClearCurrentFacility | frontend/src/redux/slices/facilitySlice.js:146-148 | the facility on screen is cleared |
| FacilitySlice.FacilityState.ClearError | frontend/src/redux/slices/facilitySlice.js:149-151 | the error is cleared |
| FacilitySlice.FacilityState.ResetFacilities | frontend/src/redux/slices/facilitySlice.js:152-155 | an empty listing on the initial pagination; the owner's list is kept |
| FacilitySlice.FacilityState.RequestPending | frontend/src/redux/slices/facilitySlice.js:160-163 | loading and the error cleared |
| FacilitySlice.FacilityState.RequestRejected | frontend/src/redux/slices/facilitySlice.js:169-172 | not loading and the message kept |
| FacilitySlice.FacilityState.FetchFacilitiesFulfilled | frontend/src/redux/slices/facilitySlice.js:164-168 | the listing and pagination are the payload's |
| FacilitySlice.FacilityState.FetchFacilityFulfilled | frontend/src/redux/slices/facilitySlice.js:179-182 | the facility on screen is the payload |
| FacilitySlice.FacilityState.FetchPopularFulfilled | frontend/src/redux/slices/facilitySlice.js:189-191 | the popular list is the payload; the loading flag is untouched |
| FacilitySlice.FacilityState.FetchMyFacilitiesFulfilled | frontend/src/redux/slices/facilitySlice.js:198-202 | the owner's list and the shared pagination are the payload's |
| FacilitySlice.FacilityState.CreateFacilityFulfilled | frontend/src/redux/slices/facilitySlice.js:213-216 | the new facility goes first in the owner's list |
| FacilitySlice.FacilityState.UpdateFacilityFulfilled | frontend/src/redux/slices/facilitySlice.js:227-236 | only the first matching entry is replaced, and the facility on screen iff it matches |
| FacilitySlice.FacilityState.DeleteFacilityFulfilled | frontend/src/redux/slices/facilitySlice.js:247-253 | every entry with the id goes, and the facility on screen iff it is that one |
| FacilitySlice.CreateThenDelete | frontend/src/redux/slices/facilitySlice.js:213-253 | creating then deleting a facility leaves the owner's list as it was, when the id was new |
| AuthSlice.ContainsAt | frontend/src/redux/slices/authSlice.js:308 | an occurrence anywhere makes `includes` hold |
| AuthSlice.NotContains | frontend/src/redux/slices/authSlice.js:308 | without an occurrence anywhere `includes` fails |
| AuthSlice.SessionEndingMessages | frontend/src/redux/slices/authSlice.js:308 | "Not authorized, token failed" and "Unauthorized" both end the session |
| AuthSlice.MissingFirstLetter | frontend/src/redux/slices/authSlice.js:308 | a message lacking a word's first letter does not contain the word |
| AuthSlice.OtherFailuresKeepSession | frontend/src/redux/slices/authSlice.js:304-316 | "Server error" keeps the session |
| AuthSlice.AuthState.constructor | frontend/src/redux/slices/authSlice.js:20-27 | the stored user and token are adopted, and the state is signed in iff the stored token is truthy |
| AuthSlice.AuthState.InitializeAuth | frontend/src/redux/slices/authSlice.js:209-220 | the stored session is adopted iff both token and user are stored; otherwise nothing changes |
| AuthSlice.AuthState.ClearError | frontend/src/redux/slices/authSlice.js:196-198 | the error is cleared |
| AuthSlice.AuthState.ClearOtpSent | frontend/src/redux/slices/authSlice.js:199-201 | the OTP flag is cleared |
| AuthSlice.AuthState.SetRegistrationData | frontend/src/redux/slices/authSlice.js:202-207 | the registration data is set, or cleared |
| AuthSlice.AuthState.RequestPending | frontend/src/redux/slices/authSlice.js:225-228 | loading and the error cleared, the session untouched |
| AuthSlice.AuthState.ProfilePending | frontend/src/redux/slices/authSlice.js:295-297 | loading, the error kept |
| AuthSlice.AuthState.SignedIn | frontend/src/redux/slices/authSlice.js:229-236 | the payload's user and token, signed in, OTP flag and registration data reset |
| AuthSlice.AuthState.SignInRejected | frontend/src/redux/slices/authSlice.js:237-241 | signed out, with user and token left in place |
| AuthSlice.AuthState.RequestRejected | frontend/src/redux/slices/authSlice.js:275-278 | the message kept and the sign-in state untouched |
| AuthSlice.AuthState.OtpResent | frontend/src/redux/slices/authSlice.js:285-288 | the OTP flag set |
| AuthSlice.AuthState.ProfileReceived | frontend/src/redux/slices/authSlice.js:298-303 | the returned user replaces the held one |
| AuthSlice.AuthState.PasswordChanged | frontend/src/redux/slices/authSlice.js:337-339 | not loading, nothing else changes |
| AuthSlice.AuthState.ProfileRejected | frontend/src/redux/slices/authSlice.js:304-316 | the session is dropped iff the message contains "token" or "authorized"; otherwise it is kept |
| AuthSlice.AuthState.LoggedOut | frontend/src/redux/slices/authSlice.js:346-354 | every session field back to signed out |

## Left out

- Persistence is a sequence or map held by a store class. Mongo queries, `populate`, indexes and aggregation are not modelled.
- The race between the create handler's conflict query and the save hook is not modelled: each insertion is one sequential step.
- The payment providers are parameters: signature validity, the fetched payment state and the order-creation outcome. HMAC checks, order creation and refunds are not modelled.
- The refund call never runs: `createRefund` is not imported and `stripePaymentIntentId` is not a schema field. The cancellation model marks the payment refunded without any provider call.
- E-mail notifications are left out because they are I/O, and their failures are caught.
- Password hashing and comparison (bcrypt) are left out because they are foreign calls. This covers the `pre('save')` password hook, `matchPassword` and `updateLastLogin`.
- Time zones and `Date` arithmetic are abstracted: a date is a local day number and a time is a minute count. Daylight-saving shifts are not modelled.
- `canCancel` and `calculateRefund` each read the clock; the model uses one `now` for both.
- Money is a Dafny `real`, so IEEE rounding of prices and the average rating is not modelled.
- A time string the pattern refuses never reaches the parse in the model, so the `NaN` arithmetic of such strings is not modelled.
- Facility operating hours and peak times are assumed to be well-formed `HH:MM` strings.
- Booking fields that no modelled operation reads are not modelled. These are discount, taxes, recurring details, participant details, check-in/out, notifications and the 500-character special requests.
- Base64 encoding itself (section 4 of RFC 4648) comes from Node's `Buffer`. A file's base64 text is an input, not computed.
- The random `public_id` of an image record is not modelled.
- The review `post('save')` hook recomputes the facility rating through another model, and is not modelled.
- The review model does not cover schema fields other than the ratings, the report reasons and the status.
- Authorization middleware is not modelled. The per-booking owner/facility-owner/admin checks inside the booking handlers are modelled.
- A malformed id (a Mongoose `CastError`) is not modelled: every lookup by id either finds a document or finds none.
- The facility save in `approveFacility` is assumed to succeed.
- The Redux thunks' network calls, `localStorage` writes, axios headers and toasts are side effects and are not modelled. The reducers are modelled.
- The React pages, `userSlice.js` (whose reducers only copy payloads), the seed and debug scripts, and the other controllers are not modelled.
- Courts.SchemaValid: the court schema is reduced to the bounds the engine relies on: rates, minimum duration, players and the status enum.
- Bookings.SchemaValid: the booking schema is reduced to the time pattern, the date, the duration, the price bounds, the participants and the equipment bounds.
- Bookings.SaveErrorMessage: only the head of each Mongoose message is modelled. The path-by-path detail of a validation error and the collection and key named in a duplicate-key error are left out.
- A report with no reason is not modelled. An undefined reason skips the enum validator, but the model's report always carries a reason from the enum.
- A sub-rating set to `null` is not modelled. The `!== undefined` filter keeps it and it enters the average as 0; the model's ratings are either absent or numbers.
- AdminController.AdminStore.UpdateUserStatus: an absent `isActive` is not modelled. Assigning `undefined` would unset the field, and the model's account always has a flag.

## Findings

| source | as written | input that shows it | evidently intended | confidence | as-written member | corrected member |
|---|---|---|---|---|---|---|
| backend/controllers/adminController.js:238 | `approveCourt` assigns `court.status = 'rejected'`, but the court schema's status enum (backend/models/Court.js:217-221) has no `rejected`, so the save throws and the handler answers 500 | a stored, schema-valid court; body `{ status: 'rejected', adminComments: 'blurry photos' }` | the court is stored as rejected and inactive, and the handler answers with success | not executed | AdminController.CourtRejectionAlwaysFails | AdminController.IntendedRejectionIsSaved |
