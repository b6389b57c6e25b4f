/**
 * The client's `bookings` slice: the user's bookings, the booking on screen,
 * the slots offered for a court, and the loading flag and error of the
 * requests. Each reducer is a method that changes the slice in place.
 */
module BookingSlice {
  import opened Common
  import opened Lists

  datatype Pagination = Pagination(currentPage: int, totalPages: int, totalBookings: int)

  const InitialPagination: Pagination := Pagination(1, 1, 0)

  /** `unshift` of the created booking when the payload carries one. */
  function WithCreated(bookings: seq<Entry<Json>>, created: Option<Entry<Json>>): (r: seq<Entry<Json>>)
    ensures created.None? ==> r == bookings
    ensures created.Some? ==> |r| == |bookings| + 1 && r[0] == created.value && r[1..] == bookings
  {
    if created.Some? then [created.value] + bookings else bookings
  }

  /** The booking on screen after a booking document comes back: replaced only when it is the same booking. */
  function CurrentAfter(current: Option<Entry<Json>>, b: Entry<Json>): (r: Option<Entry<Json>>)
    ensures HasId(current, b.id) ==> r == Some(b)
    ensures !HasId(current, b.id) ==> r == current
  {
    if HasId(current, b.id) then Some(b) else current
  }

  class BookingState {
    var bookings: seq<Entry<Json>>
    var currentBooking: Option<Entry<Json>>
    var availableSlots: seq<Json>
    var isLoading: bool
    var error: Option<string>
    var pagination: Pagination

    /** The slice's `initialState`. */
    constructor ()
      ensures bookings == [] && currentBooking == None && availableSlots == []
      ensures !isLoading && error == None && pagination == InitialPagination
    {
      bookings := [];
      currentBooking := None;
      availableSlots := [];
      isLoading := false;
      error := None;
      pagination := InitialPagination;
    }

    /** `clearCurrentBooking`. */
    method ClearCurrentBooking()
      modifies this
      ensures currentBooking == None
      ensures bookings == old(bookings) && availableSlots == old(availableSlots)
      ensures isLoading == old(isLoading) && error == old(error) && pagination == old(pagination)
    {
      currentBooking := None;
    }

    /** `clearError`. */
    method ClearError()
      modifies this
      ensures error == None
      ensures bookings == old(bookings) && currentBooking == old(currentBooking) && availableSlots == old(availableSlots)
      ensures isLoading == old(isLoading) && pagination == old(pagination)
    {
      error := None;
    }

    /** `clearAvailableSlots`. */
    method ClearAvailableSlots()
      modifies this
      ensures availableSlots == []
      ensures bookings == old(bookings) && currentBooking == old(currentBooking)
      ensures isLoading == old(isLoading) && error == old(error) && pagination == old(pagination)
    {
      availableSlots := [];
    }

    /** The `pending` case of createBooking, fetchUserBookings, fetchBooking and fetchAvailableSlots. */
    method RequestPending()
      modifies this
      ensures isLoading && error == None
      ensures bookings == old(bookings) && currentBooking == old(currentBooking) && availableSlots == old(availableSlots)
      ensures pagination == old(pagination)
    {
      isLoading := true;
      error := None;
    }

    /** The `rejected` case of createBooking, fetchUserBookings and fetchBooking. */
    method RequestRejected(message: string)
      modifies this
      ensures !isLoading && error == Some(message)
      ensures bookings == old(bookings) && currentBooking == old(currentBooking) && availableSlots == old(availableSlots)
      ensures pagination == old(pagination)
    {
      isLoading := false;
      error := Some(message);
    }

    /** `createBooking.fulfilled`: the new booking goes first when the payload has one. */
    method CreateBookingFulfilled(created: Option<Entry<Json>>)
      modifies this
      ensures !isLoading && bookings == WithCreated(old(bookings), created)
      ensures currentBooking == old(currentBooking) && availableSlots == old(availableSlots)
      ensures error == old(error) && pagination == old(pagination)
    {
      isLoading := false;
      if created.Some? {
        bookings := [created.value] + bookings;
      }
    }

    /** `fetchUserBookings.fulfilled`. */
    method FetchUserBookingsFulfilled(list: seq<Entry<Json>>, page: Pagination)
      modifies this
      ensures !isLoading && bookings == list && pagination == page
      ensures currentBooking == old(currentBooking) && availableSlots == old(availableSlots) && error == old(error)
    {
      isLoading := false;
      bookings := list;
      pagination := page;
    }

    /** `fetchBooking.fulfilled`. */
    method FetchBookingFulfilled(b: Entry<Json>)
      modifies this
      ensures !isLoading && currentBooking == Some(b)
      ensures bookings == old(bookings) && availableSlots == old(availableSlots)
      ensures error == old(error) && pagination == old(pagination)
    {
      isLoading := false;
      currentBooking := Some(b);
    }

    /**
     * `updateBookingStatus.fulfilled` and `confirmPayment.fulfilled`, which are
     * the same reducer: the first booking with the returned `_id` is replaced,
     * and so is the booking on screen when it is that booking. The loading flag
     * is not touched: neither request has a `pending` case.
     */
    method BookingReturned(b: Entry<Json>)
      modifies this
      ensures bookings == ReplaceFirst(old(bookings), b)
      ensures currentBooking == CurrentAfter(old(currentBooking), b)
      ensures availableSlots == old(availableSlots) && isLoading == old(isLoading)
      ensures error == old(error) && pagination == old(pagination)
    {
      var index := FindIndex(bookings, b.id);
      if index != -1 {
        bookings := bookings[index := b];
      }
      if currentBooking.Some? && currentBooking.value.id == b.id {
        currentBooking := Some(b);
      }
    }

    /** `fetchAvailableSlots.fulfilled`. */
    method FetchAvailableSlotsFulfilled(slots: seq<Json>)
      modifies this
      ensures !isLoading && availableSlots == slots
      ensures bookings == old(bookings) && currentBooking == old(currentBooking)
      ensures error == old(error) && pagination == old(pagination)
    {
      isLoading := false;
      availableSlots := slots;
    }

    /** `fetchAvailableSlots.rejected`: the error is kept and no stale slots remain. */
    method FetchAvailableSlotsRejected(message: string)
      modifies this
      ensures !isLoading && error == Some(message) && availableSlots == []
      ensures bookings == old(bookings) && currentBooking == old(currentBooking) && pagination == old(pagination)
    {
      isLoading := false;
      error := Some(message);
      availableSlots := [];
    }
  }

  /**
   * A status update that comes back for a booking the list does not hold
   * leaves the list as it was, and one for a held booking keeps every other
   * booking and the list's length.
   */
  lemma ReturnedBookingKeepsOthers(bookings: seq<Entry<Json>>, b: Entry<Json>)
    ensures |ReplaceFirst(bookings, b)| == |bookings|
    ensures (forall k :: 0 <= k < |bookings| ==> bookings[k].id != b.id) ==> ReplaceFirst(bookings, b) == bookings
    ensures forall k :: 0 <= k < |bookings| && bookings[k].id != b.id ==> ReplaceFirst(bookings, b)[k] == bookings[k]
  {
    ReplaceFirstChangesOnlyFirstMatch(bookings, b);
  }
}
