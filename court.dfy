/**
 * A court: its per-weekday availability flag, its maintenance schedule, its
 * pricing and capacity bounds, and the `isAvailableAt` check built on them.
 */
module Courts {
  import opened Common
  import opened Clock

  /** Every value the source writes into `status`; only the first four are in the schema enum. */
  datatype CourtStatus = Active | UnderMaintenance | Inactive | Damaged | PendingApproval | Rejected

  predicate InStatusEnum(s: CourtStatus) {
    s.Active? || s.UnderMaintenance? || s.Inactive? || s.Damaged?
  }

  /** One maintenance block; `day` is the local calendar day of its `date`. */
  datatype MaintenanceEntry = MaintenanceEntry(
    day: int, startTime: string, endTime: string, description: string, isCompleted: bool)

  /**
   * `weekdayAvailable[w]` is `availability.<weekday>.isAvailable` with w = 0 for
   * Sunday through 6 for Saturday, the order of `Date.getDay()`.
   */
  datatype Court = Court(
    id: Id,
    facility: Id,
    weekdayAvailable: seq<bool>,
    maintenanceSchedule: seq<MaintenanceEntry>,
    hourlyRate: real,
    peakHourRate: real,
    minimumBookingDuration: real,
    players: int,
    status: CourtStatus,
    isActive: bool)

  /** One entry of an available-slots list. */
  datatype Slot = Slot(startTime: string, endTime: string, duration: int, price: real, isPeakHour: bool)

  /** `date.getDay()` for a local day number, day 0 being Thursday 1 January 1970. */
  function Weekday(day: int): (w: nat)
    ensures w < 7
  {
    (day + 4) % 7
  }

  predicate WellFormed(c: Court) {
    |c.weekdayAvailable| == 7
  }

  /** The schema's bounds on a stored court. */
  predicate SchemaValid(c: Court) {
    WellFormed(c) &&
    c.hourlyRate >= 0.0 && c.peakHourRate >= 0.0 &&
    c.minimumBookingDuration >= 0.5 && c.players >= 1 &&
    InStatusEnum(c.status)
  }

  /** The callback of `maintenanceSchedule.some(...)`: same calendar date and the three-clause test. */
  predicate MaintenanceBlocks(m: MaintenanceEntry, day: int, startTime: string, endTime: string) {
    m.day == day && ThreeClauseOverlap(startTime, endTime, m.startTime, m.endTime)
  }

  /** `court.isAvailableAt(date, startTime, endTime)`. */
  function IsAvailableAt(c: Court, day: int, startTime: string, endTime: string): (r: bool)
    requires WellFormed(c)
    ensures !c.weekdayAvailable[Weekday(day)] ==> !r
    ensures r <==> c.weekdayAvailable[Weekday(day)] &&
                   forall i :: 0 <= i < |c.maintenanceSchedule| ==>
                     !MaintenanceBlocks(c.maintenanceSchedule[i], day, startTime, endTime)
  {
    c.weekdayAvailable[Weekday(day)] &&
    !exists i :: 0 <= i < |c.maintenanceSchedule| && MaintenanceBlocks(c.maintenanceSchedule[i], day, startTime, endTime)
  }

  /** Maintenance entries on other dates never make a court unavailable. */
  lemma OtherDatesNeverBlock(c: Court, extra: seq<MaintenanceEntry>, day: int, startTime: string, endTime: string)
    requires WellFormed(c)
    requires forall i :: 0 <= i < |extra| ==> extra[i].day != day
    ensures IsAvailableAt(c.(maintenanceSchedule := c.maintenanceSchedule + extra), day, startTime, endTime)
            == IsAvailableAt(c, day, startTime, endTime)
  {
    var c' := c.(maintenanceSchedule := c.maintenanceSchedule + extra);
    var n := |c.maintenanceSchedule|;
    if IsAvailableAt(c, day, startTime, endTime) {
      forall i | 0 <= i < |c'.maintenanceSchedule|
        ensures !MaintenanceBlocks(c'.maintenanceSchedule[i], day, startTime, endTime)
      {
        if i >= n { assert c'.maintenanceSchedule[i] == extra[i - n]; }
      }
    }
    if IsAvailableAt(c', day, startTime, endTime) {
      forall i | 0 <= i < n
        ensures !MaintenanceBlocks(c.maintenanceSchedule[i], day, startTime, endTime)
      {
        assert c'.maintenanceSchedule[i] == c.maintenanceSchedule[i];
      }
    }
  }

  /** Marking maintenance entries completed (or not) has no effect on availability. */
  lemma CompletionIsIgnored(c: Court, done: seq<bool>, day: int, startTime: string, endTime: string)
    requires WellFormed(c) && |done| == |c.maintenanceSchedule|
    ensures
      var ms := seq(|done|, i requires 0 <= i < |done| => c.maintenanceSchedule[i].(isCompleted := done[i]));
      IsAvailableAt(c.(maintenanceSchedule := ms), day, startTime, endTime) == IsAvailableAt(c, day, startTime, endTime)
  {
    var ms := seq(|done|, i requires 0 <= i < |done| => c.maintenanceSchedule[i].(isCompleted := done[i]));
    var c' := c.(maintenanceSchedule := ms);
    forall i | 0 <= i < |ms|
      ensures MaintenanceBlocks(ms[i], day, startTime, endTime) == MaintenanceBlocks(c.maintenanceSchedule[i], day, startTime, endTime)
    {
    }
    assert IsAvailableAt(c', day, startTime, endTime) == IsAvailableAt(c, day, startTime, endTime);
  }

  /**
   * For a window and maintenance entries that are non-empty in string order,
   * the maintenance test is the same relation as the booking conflict test.
   */
  lemma AvailabilityUsesBookingOverlap(c: Court, day: int, startTime: string, endTime: string)
    requires WellFormed(c) && StrLt(startTime, endTime)
    requires forall i :: 0 <= i < |c.maintenanceSchedule| ==>
               StrLt(c.maintenanceSchedule[i].startTime, c.maintenanceSchedule[i].endTime)
    ensures IsAvailableAt(c, day, startTime, endTime) <==>
              c.weekdayAvailable[Weekday(day)] &&
              forall i :: 0 <= i < |c.maintenanceSchedule| && c.maintenanceSchedule[i].day == day ==>
                !StrOverlap(startTime, endTime, c.maintenanceSchedule[i].startTime, c.maintenanceSchedule[i].endTime)
  {
    forall i | 0 <= i < |c.maintenanceSchedule|
      ensures MaintenanceBlocks(c.maintenanceSchedule[i], day, startTime, endTime) <==>
              c.maintenanceSchedule[i].day == day &&
              StrOverlap(startTime, endTime, c.maintenanceSchedule[i].startTime, c.maintenanceSchedule[i].endTime)
    {
      var m := c.maintenanceSchedule[i];
      ThreeClauseIsOverlap(startTime, endTime, m.startTime, m.endTime);
    }
  }

  /**
   * `court.getAvailableSlots(date)`: the closed-weekday path returns `[]`, and
   * the open path queries the bookings but never fills its result, so every
   * path returns the empty list.
   */
  function CourtAvailableSlots(c: Court, day: int): (slots: seq<Slot>)
    requires WellFormed(c)
    ensures |slots| == 0
  {
    []
  }
}

/**
 * The parts of a facility the booking engine reads: per-weekday operating
 * hours, the peak window and multiplier, and the approval state.
 */
module Facilities {
  import opened Common
  import opened Clock

  datatype OperatingDay = OperatingDay(isOpen: bool, openTime: string, closeTime: string)

  datatype FacilityStatus = FacilityPending | Approved | FacilityRejected | Suspended

  datatype ApprovalDetails = ApprovalDetails(approvedBy: Id, approvedAt: int, adminComments: string)

  /** `operatingHours[w]` is the entry for weekday w, 0 = Sunday. */
  datatype Facility = Facility(
    id: Id,
    operatingHours: seq<OperatingDay>,
    peakStart: string,
    peakEnd: string,
    peakHourMultiplier: real,
    status: FacilityStatus,
    approvalDetails: Option<ApprovalDetails>)

  /** The time strings the booking engine parses are well-formed and there are seven days. */
  predicate WellFormed(f: Facility) {
    |f.operatingHours| == 7 &&
    IsTimeString(f.peakStart) && IsTimeString(f.peakEnd) &&
    forall w :: 0 <= w < 7 ==> IsTimeString(f.operatingHours[w].openTime) && IsTimeString(f.operatingHours[w].closeTime)
  }

  /** The peak test of both booking paths: a start minute inside [peakStart, peakEnd). */
  predicate IsPeakMinute(f: Facility, m: int)
    requires IsTimeString(f.peakStart) && IsTimeString(f.peakEnd)
  {
    Minutes(f.peakStart) <= m < Minutes(f.peakEnd)
  }
}
