/**
 * The client's `facilities` slice: the public listing with its pagination,
 * the facility on screen, the popular list, and the owner's own facilities.
 * Each reducer is a method that changes the slice in place.
 */
module FacilitySlice {
  import opened Common
  import opened Lists

  datatype Pagination = Pagination(
    currentPage: int, totalPages: int, totalFacilities: int, hasNextPage: bool, hasPrevPage: bool)

  const InitialPagination: Pagination := Pagination(1, 1, 0, false, false)

  /** The facility on screen after a delete: cleared exactly when it is the deleted one. */
  function CurrentAfterDelete(current: Option<Entry<Json>>, id: Id): (r: Option<Entry<Json>>)
    ensures r.None? <==> current.None? || current.value.id == id
    ensures r.Some? ==> r == current
  {
    if HasId(current, id) then None else current
  }

  class FacilityState {
    var facilities: seq<Entry<Json>>
    var currentFacility: Option<Entry<Json>>
    var popularFacilities: seq<Json>
    var myFacilities: seq<Entry<Json>>
    var isLoading: bool
    var error: Option<string>
    var pagination: Pagination

    /** The slice's `initialState`. */
    constructor ()
      ensures facilities == [] && currentFacility == None && popularFacilities == [] && myFacilities == []
      ensures !isLoading && error == None && pagination == InitialPagination
    {
      facilities := [];
      currentFacility := None;
      popularFacilities := [];
      myFacilities := [];
      isLoading := false;
      error := None;
      pagination := InitialPagination;
    }

    /** `clearCurrentFacility`. */
    method ClearCurrentFacility()
      modifies this
      ensures currentFacility == None
      ensures facilities == old(facilities) && popularFacilities == old(popularFacilities)
      ensures myFacilities == old(myFacilities) && isLoading == old(isLoading) && error == old(error)
      ensures pagination == old(pagination)
    {
      currentFacility := None;
    }

    /** `clearError`. */
    method ClearError()
      modifies this
      ensures error == None
      ensures facilities == old(facilities) && currentFacility == old(currentFacility)
      ensures popularFacilities == old(popularFacilities) && myFacilities == old(myFacilities)
      ensures isLoading == old(isLoading) && pagination == old(pagination)
    {
      error := None;
    }

    /** `resetFacilities`: an empty listing on the first page; the owner's list is kept. */
    method ResetFacilities()
      modifies this
      ensures facilities == [] && pagination == InitialPagination
      ensures currentFacility == old(currentFacility) && popularFacilities == old(popularFacilities)
      ensures myFacilities == old(myFacilities) && isLoading == old(isLoading) && error == old(error)
    {
      facilities := [];
      pagination := InitialPagination;
    }

    /** The `pending` case of the fetch, create, update and delete requests. */
    method RequestPending()
      modifies this
      ensures isLoading && error == None
      ensures facilities == old(facilities) && currentFacility == old(currentFacility)
      ensures popularFacilities == old(popularFacilities) && myFacilities == old(myFacilities)
      ensures pagination == old(pagination)
    {
      isLoading := true;
      error := None;
    }

    /** The `rejected` case of the same requests. */
    method RequestRejected(message: string)
      modifies this
      ensures !isLoading && error == Some(message)
      ensures facilities == old(facilities) && currentFacility == old(currentFacility)
      ensures popularFacilities == old(popularFacilities) && myFacilities == old(myFacilities)
      ensures pagination == old(pagination)
    {
      isLoading := false;
      error := Some(message);
    }

    /** `fetchFacilities.fulfilled`. */
    method FetchFacilitiesFulfilled(list: seq<Entry<Json>>, page: Pagination)
      modifies this
      ensures !isLoading && facilities == list && pagination == page
      ensures currentFacility == old(currentFacility) && popularFacilities == old(popularFacilities)
      ensures myFacilities == old(myFacilities) && error == old(error)
    {
      isLoading := false;
      facilities := list;
      pagination := page;
    }

    /** `fetchFacility.fulfilled`. */
    method FetchFacilityFulfilled(f: Entry<Json>)
      modifies this
      ensures !isLoading && currentFacility == Some(f)
      ensures facilities == old(facilities) && popularFacilities == old(popularFacilities)
      ensures myFacilities == old(myFacilities) && error == old(error) && pagination == old(pagination)
    {
      isLoading := false;
      currentFacility := Some(f);
    }

    /** `fetchPopularFacilities.fulfilled`, the one request without a loading flag. */
    method FetchPopularFulfilled(list: seq<Json>)
      modifies this
      ensures popularFacilities == list
      ensures facilities == old(facilities) && currentFacility == old(currentFacility)
      ensures myFacilities == old(myFacilities) && isLoading == old(isLoading) && error == old(error)
      ensures pagination == old(pagination)
    {
      popularFacilities := list;
    }

    /** `fetchMyFacilities.fulfilled`: the owner's list and the shared pagination. */
    method FetchMyFacilitiesFulfilled(list: seq<Entry<Json>>, page: Pagination)
      modifies this
      ensures !isLoading && myFacilities == list && pagination == page
      ensures facilities == old(facilities) && currentFacility == old(currentFacility)
      ensures popularFacilities == old(popularFacilities) && error == old(error)
    {
      isLoading := false;
      myFacilities := list;
      pagination := page;
    }

    /** `createFacility.fulfilled`: the new facility goes first in the owner's list. */
    method CreateFacilityFulfilled(f: Entry<Json>)
      modifies this
      ensures !isLoading && myFacilities == [f] + old(myFacilities)
      ensures facilities == old(facilities) && currentFacility == old(currentFacility)
      ensures popularFacilities == old(popularFacilities) && error == old(error) && pagination == old(pagination)
    {
      isLoading := false;
      myFacilities := [f] + myFacilities;
    }

    /** `updateFacility.fulfilled`: the first matching entry, and the facility on screen if it matches. */
    method UpdateFacilityFulfilled(f: Entry<Json>)
      modifies this
      ensures !isLoading && myFacilities == ReplaceFirst(old(myFacilities), f)
      ensures HasId(old(currentFacility), f.id) ==> currentFacility == Some(f)
      ensures !HasId(old(currentFacility), f.id) ==> currentFacility == old(currentFacility)
      ensures facilities == old(facilities) && popularFacilities == old(popularFacilities)
      ensures error == old(error) && pagination == old(pagination)
    {
      isLoading := false;
      var index := FindIndex(myFacilities, f.id);
      if index != -1 {
        myFacilities := myFacilities[index := f];
      }
      if currentFacility.Some? && currentFacility.value.id == f.id {
        currentFacility := Some(f);
      }
    }

    /** `deleteFacility.fulfilled`: every entry with the id goes, and the facility on screen if it is that one. */
    method DeleteFacilityFulfilled(id: Id)
      modifies this
      ensures !isLoading && myFacilities == WithoutId(old(myFacilities), id)
      ensures currentFacility == CurrentAfterDelete(old(currentFacility), id)
      ensures facilities == old(facilities) && popularFacilities == old(popularFacilities)
      ensures error == old(error) && pagination == old(pagination)
    {
      isLoading := false;
      myFacilities := WithoutId(myFacilities, id);
      if currentFacility.Some? && currentFacility.value.id == id {
        currentFacility := None;
      }
    }
  }

  /** Creating a facility and then deleting it leaves the owner's list without it and otherwise in order. */
  lemma CreateThenDelete(mine: seq<Entry<Json>>, f: Entry<Json>)
    ensures WithoutId([f] + mine, f.id) == WithoutId(mine, f.id)
    ensures (forall k :: 0 <= k < |mine| ==> mine[k].id != f.id) ==> WithoutId([f] + mine, f.id) == mine
  {
    WithoutIdAppend([f], mine, f.id);
    assert WithoutId([f], f.id) == [];
    if forall k :: 0 <= k < |mine| ==> mine[k].id != f.id {
      WithoutAbsentId(mine, f.id);
    }
  }
}
