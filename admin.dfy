/**
 * The admin endpoints that move facilities, courts and users between states:
 * `approveFacility` (which also activates the facility's pending courts),
 * `approveCourt` and `updateUserStatus`. The collections are fields of a store
 * that the handlers change; the signed-in admin and the clock are parameters.
 */
module AdminController {
  import opened Common
  import opened Courts
  import opened Facilities
  import opened Users

  datatype AdminError =
    | ValidationFailed          // 400 from the route's validators
    | InvalidApprovalStatus     // 400 "Status must be either ..."
    | FacilityNotFound          // 404
    | CourtNotFound             // 404
    | UserNotFound              // 404
    | CommentsRequired          // 400 "Admin comments are required when rejecting ..."
    | ServerError               // 500: the save threw

  /** The route validator `body('status').isIn(['approved', 'rejected', 'active'])`. */
  predicate PassesStatusValidator(status: string) {
    status == "approved" || status == "rejected" || status == "active"
  }

  /** JavaScript truthiness of an optional comment: absent and empty both count as missing. */
  predicate HasComments(comments: Option<string>) {
    comments.Some? && comments.value != ""
  }

  /** `adminComments || ''`. */
  function CommentsOrEmpty(comments: Option<string>): (c: string)
    ensures HasComments(comments) ==> c == comments.value
    ensures !HasComments(comments) ==> c == ""
  {
    if HasComments(comments) then comments.value else ""
  }

  /** `Facility.findById(id)` as a position in the collection, or -1. */
  function FacilityIndex(fs: seq<Facility>, id: Id): (i: int)
    ensures -1 <= i < |fs|
    ensures i >= 0 ==> fs[i].id == id
    ensures i == -1 ==> forall k :: 0 <= k < |fs| ==> fs[k].id != id
    decreases |fs|
  {
    if |fs| == 0 then -1
    else if fs[|fs| - 1].id == id then |fs| - 1
    else FacilityIndex(fs[..|fs| - 1], id)
  }

  /** `Court.findById(id)` as a position in the collection, or -1. */
  function CourtIndex(cs: seq<Court>, id: Id): (i: int)
    ensures -1 <= i < |cs|
    ensures i >= 0 ==> cs[i].id == id
    ensures i == -1 ==> forall k :: 0 <= k < |cs| ==> cs[k].id != id
    decreases |cs|
  {
    if |cs| == 0 then -1
    else if cs[|cs| - 1].id == id then |cs| - 1
    else CourtIndex(cs[..|cs| - 1], id)
  }

  /** `User.findById(id)` as a position in the collection, or -1. */
  function UserIndex(us: seq<User>, id: Id): (i: int)
    ensures -1 <= i < |us|
    ensures i >= 0 ==> us[i].id == id
    ensures i == -1 ==> forall k :: 0 <= k < |us| ==> us[k].id != id
    decreases |us|
  {
    if |us| == 0 then -1
    else if us[|us| - 1].id == id then |us| - 1
    else UserIndex(us[..|us| - 1], id)
  }

  // ---------------------------------------------------------------------------
  // approveFacility: the courts of an approved facility
  // ---------------------------------------------------------------------------

  /** A court the approval loop picks up: `Court.find({ facility, status: 'pending' })`. */
  predicate AwaitsActivation(c: Court, facility: Id) {
    c.facility == facility && c.status == PendingApproval
  }

  /** The loop body's change: `status = 'active'` and `isActive = true`. */
  function Activated(c: Court): Court {
    c.(status := Active, isActive := true)
  }

  /** A court whose save throws once activated; the loop is left at that court. */
  predicate ActivationFails(c: Court, facility: Id) {
    AwaitsActivation(c, facility) && !SchemaValid(Activated(c))
  }

  /**
   * The courts after the auto-approval loop: each pending court of the facility
   * is activated and saved in turn, and the first save that throws ends the
   * loop (the error is caught), leaving that court and all later ones as they
   * were.
   */
  function ActivatePending(cs: seq<Court>, facility: Id): (r: seq<Court>)
    ensures |r| == |cs|
    decreases |cs|
  {
    if |cs| == 0 then []
    else if !AwaitsActivation(cs[0], facility) then [cs[0]] + ActivatePending(cs[1..], facility)
    else if SchemaValid(Activated(cs[0])) then [Activated(cs[0])] + ActivatePending(cs[1..], facility)
    else cs
  }

  /** Before the first failing save, the loop works court by court. */
  lemma {:induction false} ActivatePendingAppend(a: seq<Court>, b: seq<Court>, facility: Id)
    requires forall j :: 0 <= j < |a| ==> !ActivationFails(a[j], facility)
    ensures ActivatePending(a + b, facility) == ActivatePending(a, facility) + ActivatePending(b, facility)
    decreases |a|
  {
    if |a| > 0 {
      assert (a + b)[0] == a[0];
      assert (a + b)[1..] == a[1..] + b;
      assert !ActivationFails(a[0], facility);
      forall j | 0 <= j < |a[1..]|
        ensures !ActivationFails(a[1..][j], facility)
      {
        assert a[1..][j] == a[j + 1];
      }
      ActivatePendingAppend(a[1..], b, facility);
      var first := if AwaitsActivation(a[0], facility) then Activated(a[0]) else a[0];
      assert ActivatePending(a, facility) == [first] + ActivatePending(a[1..], facility);
      assert ActivatePending(a + b, facility) == [first] + ActivatePending(a[1..] + b, facility);
    } else {
      assert a + b == b;
    }
  }

  /** One more court processed without a failure: the loop's running state grows by that court. */
  lemma ActivationStep(cs: seq<Court>, k: nat, facility: Id)
    requires k < |cs| && forall j :: 0 <= j < k ==> !ActivationFails(cs[j], facility)
    requires !ActivationFails(cs[k], facility)
    ensures ActivatePending(cs[..k + 1], facility) + cs[k + 1..] ==
            (ActivatePending(cs[..k], facility) + cs[k..])[k := if AwaitsActivation(cs[k], facility) then Activated(cs[k]) else cs[k]]
  {
    ActivatePendingAppend(cs[..k], [cs[k]], facility);
    assert cs[..k + 1] == cs[..k] + [cs[k]];
  }

  /** At the first failing court, the loop's running state is already the final one. */
  lemma ActivationStopsAt(cs: seq<Court>, k: nat, facility: Id)
    requires k < |cs| && forall j :: 0 <= j < k ==> !ActivationFails(cs[j], facility)
    requires ActivationFails(cs[k], facility)
    ensures ActivatePending(cs[..k], facility) + cs[k..] == ActivatePending(cs, facility)
  {
    assert ActivatePending(cs[k..], facility) == cs[k..];
    ActivatePendingAppend(cs[..k], cs[k..], facility);
    assert cs[..k] + cs[k..] == cs;
  }

  /** The loop changes only pending courts of the facility, and only by activating them. */
  lemma {:induction false} ActivationTouchesOnlyPendingCourts(cs: seq<Court>, facility: Id)
    ensures forall i :: 0 <= i < |cs| ==>
              ActivatePending(cs, facility)[i] == cs[i] ||
              (AwaitsActivation(cs[i], facility) && ActivatePending(cs, facility)[i] == Activated(cs[i]))
    decreases |cs|
  {
    if |cs| > 0 {
      ActivationTouchesOnlyPendingCourts(cs[1..], facility);
      var r := ActivatePending(cs, facility);
      forall i | 1 <= i < |cs|
        ensures r[i] == cs[i] || (AwaitsActivation(cs[i], facility) && r[i] == Activated(cs[i]))
      {
        if !ActivationFails(cs[0], facility) {
          assert r[i] == ActivatePending(cs[1..], facility)[i - 1];
          assert cs[i] == cs[1..][i - 1];
        }
      }
    }
  }

  /**
   * The court schema's status enum has no `pending`, so no court that passes
   * it awaits activation, and over such courts the loop changes nothing.
   */
  lemma {:induction false} SchemaValidCourtsAreNeverActivated(cs: seq<Court>, facility: Id)
    requires forall i :: 0 <= i < |cs| ==> SchemaValid(cs[i])
    ensures ActivatePending(cs, facility) == cs
    decreases |cs|
  {
    if |cs| > 0 {
      assert !AwaitsActivation(cs[0], facility);
      SchemaValidCourtsAreNeverActivated(cs[1..], facility);
      assert [cs[0]] + cs[1..] == cs;
    }
  }

  /**
   * When every pending court of the facility can be saved once activated,
   * all of them end up active and every other court is unchanged.
   */
  lemma {:induction false} ActivationCompletes(cs: seq<Court>, facility: Id)
    requires forall i :: 0 <= i < |cs| ==> !ActivationFails(cs[i], facility)
    ensures forall i :: 0 <= i < |cs| ==>
              ActivatePending(cs, facility)[i] == if AwaitsActivation(cs[i], facility) then Activated(cs[i]) else cs[i]
    ensures forall i :: 0 <= i < |cs| ==> !AwaitsActivation(ActivatePending(cs, facility)[i], facility)
    decreases |cs|
  {
    if |cs| > 0 {
      ActivationCompletes(cs[1..], facility);
      var r := ActivatePending(cs, facility);
      forall i | 1 <= i < |cs|
        ensures r[i] == if AwaitsActivation(cs[i], facility) then Activated(cs[i]) else cs[i]
      {
        assert r[i] == ActivatePending(cs[1..], facility)[i - 1];
        assert cs[i] == cs[1..][i - 1];
      }
    }
  }

  // ---------------------------------------------------------------------------
  // approveFacility
  // ---------------------------------------------------------------------------

  /** The approval decision a status string names, for the two the handler accepts. */
  function FacilityDecision(status: string): (d: Option<FacilityStatus>)
    ensures d.Some? <==> status == "approved" || status == "rejected"
    ensures d == Some(Approved) <==> status == "approved"
  {
    if status == "approved" then Some(Approved)
    else if status == "rejected" then Some(FacilityRejected)
    else None
  }

  /** The response and the new collections of `approveFacility`. */
  datatype FacilityApproval = FacilityApproval(
    response: Result<Facility, AdminError>, facilities: seq<Facility>, courts: seq<Court>)

  function ApproveFacilityOutcome(fs: seq<Facility>, cs: seq<Court>, id: Id, status: string,
                                  comments: Option<string>, admin: Id, now: int): (o: FacilityApproval)
    ensures o.response.Err? ==> o.facilities == fs && o.courts == cs
    ensures o.response.Ok? ==> FacilityDecision(status).Some?
    ensures o.response.Ok? && status == "rejected" ==> HasComments(comments) && o.courts == cs
    ensures o.response.Ok? ==> o.response.value.approvalDetails == Some(ApprovalDetails(admin, now, CommentsOrEmpty(comments)))
    ensures o.response.Ok? ==>
              var i := FacilityIndex(fs, id);
              && 0 <= i
              && o.response.value.status == FacilityDecision(status).value
              && o.response.value == fs[i].(status := o.response.value.status, approvalDetails := o.response.value.approvalDetails)
              && o.facilities == fs[i := o.response.value]
    ensures o.response.Ok? && status == "approved" ==> o.courts == ActivatePending(cs, id)
  {
    if !PassesStatusValidator(status) then FacilityApproval(Err(ValidationFailed), fs, cs)
    else if FacilityDecision(status).None? then FacilityApproval(Err(InvalidApprovalStatus), fs, cs)
    else
      var i := FacilityIndex(fs, id);
      if i < 0 then FacilityApproval(Err(FacilityNotFound), fs, cs)
      else if status == "rejected" && !HasComments(comments) then FacilityApproval(Err(CommentsRequired), fs, cs)
      else
        var f := fs[i].(status := FacilityDecision(status).value,
                        approvalDetails := Some(ApprovalDetails(admin, now, CommentsOrEmpty(comments))));
        FacilityApproval(Ok(f), fs[i := f], if status == "approved" then ActivatePending(cs, id) else cs)
  }

  /** A rejection without comments is refused before anything is saved. */
  lemma RejectionNeedsComments(fs: seq<Facility>, cs: seq<Court>, id: Id, comments: Option<string>, admin: Id, now: int)
    requires !HasComments(comments)
    ensures var o := ApproveFacilityOutcome(fs, cs, id, "rejected", comments, admin, now);
            o.facilities == fs && o.courts == cs &&
            (o.response == Err(FacilityNotFound) || o.response == Err(CommentsRequired))
  {
  }

  /**
   * An approval touches one facility, and of the courts only pending courts of
   * that facility, which it activates.
   */
  lemma ApprovalTouchesOnlyThatFacility(fs: seq<Facility>, cs: seq<Court>, id: Id, comments: Option<string>,
                                        admin: Id, now: int)
    ensures var o := ApproveFacilityOutcome(fs, cs, id, "approved", comments, admin, now);
            |o.facilities| == |fs| && |o.courts| == |cs| &&
            (forall k :: 0 <= k < |fs| && fs[k].id != id ==> o.facilities[k] == fs[k]) &&
            (forall k :: 0 <= k < |cs| ==>
               o.courts[k] == cs[k] || (AwaitsActivation(cs[k], id) && o.courts[k] == Activated(cs[k])))
  {
    ActivationTouchesOnlyPendingCourts(cs, id);
  }

  /**
   * A successful approval in which no court save fails leaves no pending
   * court of the facility behind: each of them is stored activated.
   */
  lemma ApprovalActivatesPendingCourts(fs: seq<Facility>, cs: seq<Court>, id: Id, comments: Option<string>,
                                       admin: Id, now: int)
    requires ApproveFacilityOutcome(fs, cs, id, "approved", comments, admin, now).response.Ok?
    requires forall i :: 0 <= i < |cs| ==> !ActivationFails(cs[i], id)
    ensures var o := ApproveFacilityOutcome(fs, cs, id, "approved", comments, admin, now);
            |o.courts| == |cs| &&
            forall i :: 0 <= i < |cs| ==>
              !AwaitsActivation(o.courts[i], id) && (AwaitsActivation(cs[i], id) ==> o.courts[i] == Activated(cs[i]))
  {
    ActivationCompletes(cs, id);
  }

  // ---------------------------------------------------------------------------
  // approveCourt
  // ---------------------------------------------------------------------------

  /** The response and the new court collection of `approveCourt`, as written. */
  datatype CourtApproval = CourtApproval(response: Result<Court, AdminError>, courts: seq<Court>)

  /**
   * `approveCourt`: only `active` and `rejected` are accepted; the court gets
   * that status and `isActive` iff active; a rejection needs comments; then the
   * save runs the schema, whose status enum has no `rejected`.
   */
  function ApproveCourtOutcome(cs: seq<Court>, id: Id, status: string, comments: Option<string>): (o: CourtApproval)
    ensures o.response.Err? ==> o.courts == cs
    ensures o.response.Ok? ==> status == "active" && o.response.value.status == Active && o.response.value.isActive
    ensures o.response.Ok? ==> exists k :: 0 <= k < |cs| && cs[k].id == id && o.courts == cs[k := o.response.value]
  {
    if !PassesStatusValidator(status) then CourtApproval(Err(ValidationFailed), cs)
    else if status != "active" && status != "rejected" then CourtApproval(Err(InvalidApprovalStatus), cs)
    else
      var i := CourtIndex(cs, id);
      if i < 0 then CourtApproval(Err(CourtNotFound), cs)
      else
        var c := cs[i].(status := if status == "active" then Active else Rejected, isActive := status == "active");
        if status == "rejected" && !HasComments(comments) then CourtApproval(Err(CommentsRequired), cs)
        else if !SchemaValid(c) then CourtApproval(Err(ServerError), cs)
        else CourtApproval(Ok(c), cs[i := c])
  }

  /** As written, no court can be rejected: every rejection fails, and a commented one fails in the save. */
  lemma CourtRejectionAlwaysFails(cs: seq<Court>, id: Id, comments: Option<string>)
    ensures var o := ApproveCourtOutcome(cs, id, "rejected", comments);
            o.response.Err? && o.courts == cs
    ensures CourtIndex(cs, id) >= 0 && HasComments(comments) ==>
              ApproveCourtOutcome(cs, id, "rejected", comments).response == Err(ServerError)
  {
  }

  /** The court schema with `rejected` added to its status enum. */
  predicate IntendedSchemaValid(c: Court) {
    Courts.WellFormed(c) &&
    c.hourlyRate >= 0.0 && c.peakHourRate >= 0.0 &&
    c.minimumBookingDuration >= 0.5 && c.players >= 1 &&
    (InStatusEnum(c.status) || c.status == Rejected)
  }

  /** `approveCourt` as evidently intended: the save accepts a rejected court. */
  function ApproveCourtIntended(cs: seq<Court>, id: Id, status: string, comments: Option<string>): (o: CourtApproval)
    ensures o.response.Err? ==> o.courts == cs
  {
    if !PassesStatusValidator(status) then CourtApproval(Err(ValidationFailed), cs)
    else if status != "active" && status != "rejected" then CourtApproval(Err(InvalidApprovalStatus), cs)
    else
      var i := CourtIndex(cs, id);
      if i < 0 then CourtApproval(Err(CourtNotFound), cs)
      else
        var c := cs[i].(status := if status == "active" then Active else Rejected, isActive := status == "active");
        if status == "rejected" && !HasComments(comments) then CourtApproval(Err(CommentsRequired), cs)
        else if !IntendedSchemaValid(c) then CourtApproval(Err(ServerError), cs)
        else CourtApproval(Ok(c), cs[i := c])
  }

  /**
   * With the intended schema, a commented rejection of a stored court that
   * met the schema is saved: the court becomes rejected and inactive.
   */
  lemma IntendedRejectionIsSaved(cs: seq<Court>, id: Id, comments: Option<string>)
    requires HasComments(comments)
    requires var i := CourtIndex(cs, id); i >= 0 && SchemaValid(cs[i])
    ensures var i := CourtIndex(cs, id);
            var o := ApproveCourtIntended(cs, id, "rejected", comments);
            o.response.Ok? && o.response.value.status == Rejected && !o.response.value.isActive &&
            o.courts == cs[i := o.response.value]
  {
  }

  /** On approvals the two agree. */
  lemma IntendedAgreesOnActivation(cs: seq<Court>, id: Id, comments: Option<string>)
    ensures ApproveCourtIntended(cs, id, "active", comments) == ApproveCourtOutcome(cs, id, "active", comments)
  {
  }

  // ---------------------------------------------------------------------------
  // the store
  // ---------------------------------------------------------------------------

  /** The collections the admin handlers read and save. */
  class AdminStore {
    var facilities: seq<Facility>
    var courts: seq<Court>
    var users: seq<User>

    constructor (facilities: seq<Facility>, courts: seq<Court>, users: seq<User>)
      ensures this.facilities == facilities && this.courts == courts && this.users == users
    {
      this.facilities := facilities;
      this.courts := courts;
      this.users := users;
    }

    /** The auto-approval loop over the facility's pending courts. */
    method ActivateCourtsOf(facility: Id)
      modifies this
      ensures courts == ActivatePending(old(courts), facility)
      ensures facilities == old(facilities) && users == old(users)
    {
      ghost var cs := courts;
      var k := 0;
      while k < |courts|
        invariant 0 <= k <= |courts| == |cs|
        invariant facilities == old(facilities) && users == old(users)
        invariant forall j :: 0 <= j < k ==> !ActivationFails(cs[j], facility)
        invariant courts == ActivatePending(cs[..k], facility) + cs[k..]
      {
        var c := courts[k];
        if AwaitsActivation(c, facility) {
          var activated := c.(status := Active, isActive := true);
          if !SchemaValid(activated) {
            ActivationStopsAt(cs, k, facility);
            return;
          }
          courts := courts[k := activated];
        }
        ActivationStep(cs, k, facility);
        k := k + 1;
      }
      assert cs[..k] == cs;
    }

    /** `PUT /api/admin/facilities/:id/approve`. */
    method ApproveFacility(id: Id, status: string, comments: Option<string>, admin: Id, now: int)
      returns (r: Result<Facility, AdminError>)
      modifies this
      ensures var o := ApproveFacilityOutcome(old(facilities), old(courts), id, status, comments, admin, now);
              r == o.response && facilities == o.facilities && courts == o.courts
      ensures users == old(users)
    {
      if !(status == "approved" || status == "rejected" || status == "active") {
        return Err(ValidationFailed);
      }
      if !(status == "approved" || status == "rejected") {
        return Err(InvalidApprovalStatus);
      }
      var i := FacilityIndex(facilities, id);
      if i == -1 {
        return Err(FacilityNotFound);
      }
      var f := facilities[i].(status := if status == "approved" then Approved else FacilityRejected,
                              approvalDetails := Some(ApprovalDetails(admin, now, CommentsOrEmpty(comments))));
      if status == "rejected" && !HasComments(comments) {
        return Err(CommentsRequired);
      }
      facilities := facilities[i := f];
      if status == "approved" {
        ActivateCourtsOf(id);
      }
      r := Ok(f);
    }

    /** `PUT /api/admin/courts/:id/approve`. */
    method ApproveCourt(id: Id, status: string, comments: Option<string>) returns (r: Result<Court, AdminError>)
      modifies this
      ensures var o := ApproveCourtOutcome(old(courts), id, status, comments);
              r == o.response && courts == o.courts
      ensures facilities == old(facilities) && users == old(users)
    {
      if !(status == "approved" || status == "rejected" || status == "active") {
        return Err(ValidationFailed);
      }
      if !(status == "active" || status == "rejected") {
        return Err(InvalidApprovalStatus);
      }
      var i := CourtIndex(courts, id);
      if i == -1 {
        return Err(CourtNotFound);
      }
      var c := courts[i].(status := if status == "active" then Active else Rejected);
      c := c.(isActive := status == "active");
      if status == "rejected" && !HasComments(comments) {
        return Err(CommentsRequired);
      }
      if !SchemaValid(c) {
        return Err(ServerError);
      }
      courts := courts[i := c];
      r := Ok(c);
    }

    /**
     * `PUT /api/admin/users/:id/status`. The handler never reads the route's
     * `isBoolean` result: it looks the user up, assigns the body's `isActive`
     * and saves. `isActive` is that value as Mongoose casts it to a Boolean,
     * `None` when it cannot, in which case the save throws and nothing is
     * stored. Only the user's `isActive` field changes.
     */
    method UpdateUserStatus(id: Id, isActive: Option<bool>) returns (r: Result<User, AdminError>)
      modifies if 0 <= UserIndex(users, id) then {users[UserIndex(users, id)]} else {}
      ensures UserIndex(users, id) == -1 ==> r == Err(UserNotFound)
      ensures UserIndex(users, id) >= 0 && isActive.None? ==>
                r == Err(ServerError) && unchanged(users[UserIndex(users, id)])
      ensures UserIndex(users, id) >= 0 && isActive.Some? ==>
                var u := users[UserIndex(users, id)];
                r == Ok(u) && u.isActive == isActive.value &&
                u.password == old(u.password) && u.phone == old(u.phone) && u.role == old(u.role) &&
                u.otp == old(u.otp) && u.otpExpires == old(u.otpExpires)
    {
      var i := UserIndex(users, id);
      if i == -1 {
        return Err(UserNotFound);
      }
      if isActive.None? {
        return Err(ServerError);
      }
      var u := users[i];
      u.isActive := isActive.value;
      r := Ok(u);
    }
  }
}
