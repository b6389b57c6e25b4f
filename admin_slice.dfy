/**
 * The client's `admin` slice: dashboard counters, the pending facility and
 * court queues, the user list, and the loading flag and error the fetches
 * maintain. Each reducer is a method that changes the slice in place, as the
 * Immer draft does.
 */
module AdminSlice {
  import opened Common
  import opened Lists

  /** The two dashboard counters the approval reducers decrement. */
  datatype Stats = Stats(pendingFacilities: int, pendingCourts: int, rest: Json)

  /** A row of the admin's user list. */
  datatype UserRow = UserRow(name: string, email: string, isActive: bool)

  /** `Math.max(0, n - 1)`. */
  function DecrementCount(n: int): (m: int)
    ensures m >= 0
    ensures n >= 1 ==> m == n - 1
    ensures n <= 1 ==> m == 0
  {
    if n - 1 > 0 then n - 1 else 0
  }

  /** `users[findIndex(u => u._id === id)].isActive = isActive` when some user has that id. */
  function WithUserActive(users: seq<Entry<UserRow>>, id: Id, isActive: bool): (r: seq<Entry<UserRow>>)
    ensures |r| == |users|
    ensures forall k :: 0 <= k < |users| ==> r[k].id == users[k].id
    ensures forall k :: 0 <= k < |users| && k != FindIndex(users, id) ==> r[k] == users[k]
    ensures FindIndex(users, id) >= 0 ==>
              var i := FindIndex(users, id);
              r[i].body == users[i].body.(isActive := isActive)
  {
    var i := FindIndex(users, id);
    if i == -1 then users else users[i := users[i].(body := users[i].body.(isActive := isActive))]
  }

  class AdminState {
    var stats: Option<Stats>
    var pendingFacilities: seq<Entry<Json>>
    var pendingCourts: seq<Entry<Json>>
    var users: seq<Entry<UserRow>>
    var isLoading: bool
    var error: Option<string>

    /** The slice's `initialState`. */
    constructor ()
      ensures stats == None && pendingFacilities == [] && pendingCourts == [] && users == []
      ensures !isLoading && error == None
    {
      stats := None;
      pendingFacilities := [];
      pendingCourts := [];
      users := [];
      isLoading := false;
      error := None;
    }

    /** `clearError`. */
    method ClearError()
      modifies this
      ensures error == None
      ensures stats == old(stats) && pendingFacilities == old(pendingFacilities) && pendingCourts == old(pendingCourts)
      ensures users == old(users) && isLoading == old(isLoading)
    {
      error := None;
    }

    /** The `pending` case of every fetch: loading, and the previous error cleared. */
    method FetchPending()
      modifies this
      ensures isLoading && error == None
      ensures stats == old(stats) && pendingFacilities == old(pendingFacilities) && pendingCourts == old(pendingCourts)
      ensures users == old(users)
    {
      isLoading := true;
      error := None;
    }

    /** The `rejected` case of every fetch: not loading, and the message kept. */
    method FetchRejected(message: string)
      modifies this
      ensures !isLoading && error == Some(message)
      ensures stats == old(stats) && pendingFacilities == old(pendingFacilities) && pendingCourts == old(pendingCourts)
      ensures users == old(users)
    {
      isLoading := false;
      error := Some(message);
    }

    /** `fetchDashboardStats.fulfilled`. */
    method FetchStatsFulfilled(payload: Stats)
      modifies this
      ensures !isLoading && stats == Some(payload)
      ensures pendingFacilities == old(pendingFacilities) && pendingCourts == old(pendingCourts)
      ensures users == old(users) && error == old(error)
    {
      isLoading := false;
      stats := Some(payload);
    }

    /** `fetchPendingFacilities.fulfilled`. */
    method FetchPendingFacilitiesFulfilled(facilities: seq<Entry<Json>>)
      modifies this
      ensures !isLoading && pendingFacilities == facilities
      ensures stats == old(stats) && pendingCourts == old(pendingCourts) && users == old(users) && error == old(error)
    {
      isLoading := false;
      pendingFacilities := facilities;
    }

    /** `fetchPendingCourts.fulfilled`. */
    method FetchPendingCourtsFulfilled(courts: seq<Entry<Json>>)
      modifies this
      ensures !isLoading && pendingCourts == courts
      ensures stats == old(stats) && pendingFacilities == old(pendingFacilities) && users == old(users)
      ensures error == old(error)
    {
      isLoading := false;
      pendingCourts := courts;
    }

    /** `fetchAllUsers.fulfilled`. */
    method FetchUsersFulfilled(rows: seq<Entry<UserRow>>)
      modifies this
      ensures !isLoading && users == rows
      ensures stats == old(stats) && pendingFacilities == old(pendingFacilities) && pendingCourts == old(pendingCourts)
      ensures error == old(error)
    {
      isLoading := false;
      users := rows;
    }

    /**
     * `approveFacility.fulfilled`: the decided facility leaves the queue and the
     * pending counter drops by one but not below zero.
     */
    method ApproveFacilityFulfilled(facilityId: Id)
      modifies this
      ensures pendingFacilities == WithoutId(old(pendingFacilities), facilityId)
      ensures old(stats).None? ==> stats == None
      ensures old(stats).Some? ==>
                stats == Some(old(stats).value.(pendingFacilities := DecrementCount(old(stats).value.pendingFacilities)))
      ensures pendingCourts == old(pendingCourts) && users == old(users)
      ensures isLoading == old(isLoading) && error == old(error)
    {
      pendingFacilities := WithoutId(pendingFacilities, facilityId);
      if stats.Some? {
        stats := Some(stats.value.(pendingFacilities := DecrementCount(stats.value.pendingFacilities)));
      }
    }

    /** `approveCourt.fulfilled`: the same for the court queue and its counter. */
    method ApproveCourtFulfilled(courtId: Id)
      modifies this
      ensures pendingCourts == WithoutId(old(pendingCourts), courtId)
      ensures old(stats).None? ==> stats == None
      ensures old(stats).Some? ==>
                stats == Some(old(stats).value.(pendingCourts := DecrementCount(old(stats).value.pendingCourts)))
      ensures pendingFacilities == old(pendingFacilities) && users == old(users)
      ensures isLoading == old(isLoading) && error == old(error)
    {
      pendingCourts := WithoutId(pendingCourts, courtId);
      if stats.Some? {
        stats := Some(stats.value.(pendingCourts := DecrementCount(stats.value.pendingCourts)));
      }
    }

    /** `updateUserStatus.fulfilled`: only the first user with the id gets the new flag. */
    method UpdateUserStatusFulfilled(id: Id, isActive: bool)
      modifies this
      ensures users == WithUserActive(old(users), id, isActive)
      ensures stats == old(stats) && pendingFacilities == old(pendingFacilities) && pendingCourts == old(pendingCourts)
      ensures isLoading == old(isLoading) && error == old(error)
    {
      var index := FindIndex(users, id);
      if index != -1 {
        users := users[index := users[index].(body := users[index].body.(isActive := isActive))];
      }
    }
  }
}
