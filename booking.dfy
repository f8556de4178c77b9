/**
 * booking.controller.js: admission of a new booking (business, services,
 * opening hours, staff membership, shift and overlap checks), its
 * persistence, and the status, cancellation and staff-assignment handlers.
 */
module BookingController {
  import opened Wrappers
  import opened ErrorHandler
  import opened Tables
  import Permission

  const BusinessNotFound := "Business not found"
  const NoServiceSelected := "At least one service must be selected"
  const InvalidServices := "One or more services are invalid"
  const OutsideHours := "Booking time is outside business hours"
  const StaffNotMember := "Selected staff does not work for this business"
  const StaffNotOnDate := "Selected staff is not available on this date"
  const StaffNotAtTime := "Selected staff is not available at this time"
  const StaffConflict := "Selected staff has a conflicting booking"
  const BookingNotFound := "Booking not found"
  const InvalidStatus := "Invalid status"
  const NoUpdatePermission := "You do not have permission to update this booking"
  const NoCancelPermission := "You do not have permission to cancel this booking"

  /** The body of `POST /bookings`; `staffId == 0` is an absent (falsy) `staff_id`. */
  datatype BookingRequest = BookingRequest(businessId: Id, date: Day, time: Minutes, serviceIds: seq<Id>, staffId: Id)

  // ---------------------------------------------------------------------------
  // Service selection

  predicate BelongsTo(services: map<Id, ServiceRow>, businessId: Id, id: Id)
  {
    id in services && services[id].businessId == businessId
  }

  /** `Service.findAll({ id: { in: serviceIds }, business_id })`: a set of rows, duplicates collapse. */
  function FoundServices(services: map<Id, ServiceRow>, businessId: Id, ids: seq<Id>): set<Id>
  {
    set id | id in services && id in ids && services[id].businessId == businessId
  }

  predicate Distinct(ids: seq<Id>)
  {
    forall i, j :: 0 <= i < j < |ids| ==> ids[i] != ids[j]
  }

  function Elements(ids: seq<Id>): set<Id>
  {
    set id | id in ids
  }

  lemma {:induction false} ElementsCard(ids: seq<Id>)
    ensures |Elements(ids)| <= |ids|
    ensures |Elements(ids)| == |ids| <==> Distinct(ids)
  {
    if ids != [] {
      var rest := ids[1..];
      ElementsCard(rest);
      assert Elements(ids) == {ids[0]} + Elements(rest);
      if ids[0] in rest {
        assert Elements(ids) == Elements(rest);
        var j :| 0 <= j < |rest| && rest[j] == ids[0];
        assert ids[0] == ids[j + 1];
      } else {
        assert Elements(ids) - {ids[0]} == Elements(rest);
        if Distinct(rest) {
          forall i, j | 0 <= i < j < |ids| ensures ids[i] != ids[j] {
            if i > 0 { assert ids[i] == rest[i - 1] && ids[j] == rest[j - 1]; }
            else { assert ids[j] == rest[j - 1]; }
          }
        } else {
          var i, j :| 0 <= i < j < |rest| && rest[i] == rest[j];
          assert ids[i + 1] == ids[j + 1];
        }
      }
    }
  }

  lemma {:induction false} SubsetCard(a: set<Id>, b: set<Id>)
    requires a <= b
    ensures |a| <= |b|
    decreases b
  {
    if a != {} {
      var x :| x in a;
      SubsetCard(a - {x}, b - {x});
    }
  }

  lemma SubsetOfEqualSize(a: set<Id>, b: set<Id>)
    requires a <= b && |a| == |b|
    ensures a == b
  {
    if x :| x in b && x !in a {
      SubsetCard(a, b - {x});
    }
  }

  /**
   * The count comparison `foundServices.length !== serviceIds.length` passes
   * exactly when the ids are pairwise distinct and all belong to the business.
   */
  lemma ServiceSelection(services: map<Id, ServiceRow>, businessId: Id, ids: seq<Id>)
    ensures |FoundServices(services, businessId, ids)| == |ids| <==>
      Distinct(ids) && forall i :: 0 <= i < |ids| ==> BelongsTo(services, businessId, ids[i])
  {
    var found := FoundServices(services, businessId, ids);
    ElementsCard(ids);
    assert found <= Elements(ids);
    SubsetCard(found, Elements(ids));
    if |found| == |ids| {
      SubsetOfEqualSize(found, Elements(ids));
      forall i | 0 <= i < |ids| ensures BelongsTo(services, businessId, ids[i]) {
        assert ids[i] in Elements(ids);
      }
    }
    if Distinct(ids) && forall i :: 0 <= i < |ids| ==> BelongsTo(services, businessId, ids[i]) {
      forall id | id in Elements(ids) ensures id in found {
        var i :| 0 <= i < |ids| && ids[i] == id;
        assert BelongsTo(services, businessId, ids[i]);
      }
      assert found == Elements(ids);
    }
  }

  predicate AllServicesExist(services: map<Id, ServiceRow>, ids: seq<Id>)
  {
    forall i :: 0 <= i < |ids| ==> ids[i] in services
  }

  /** The requested duration: the sum of the services' current durations, in request order. */
  function SumDurations(services: map<Id, ServiceRow>, ids: seq<Id>): int
    requires AllServicesExist(services, ids)
  {
    if ids == [] then 0
    else SumDurations(services, ids[..|ids| - 1]) + services[ids[|ids| - 1]].duration
  }

  /** Every service lasts at least a minute, so the total is at least the number of services. */
  lemma {:induction false} SumDurationsAtLeastCount(t: Tables, ids: seq<Id>)
    requires WellFormed(t) && AllServicesExist(t.services, ids)
    ensures SumDurations(t.services, ids) >= |ids|
  {
    if ids != [] {
      SumDurationsAtLeastCount(t, ids[..|ids| - 1]);
    }
  }

  // ---------------------------------------------------------------------------
  // Existing bookings of a staff member

  /**
   * The length of a stored booking as the overlap scan computes it: the sum of
   * the CURRENT durations of its line items' services (not the snapshots).
   */
  function LiveDuration(services: map<Id, ServiceRow>, items: seq<LineItem>, bookingId: Id): int
    requires forall i :: 0 <= i < |items| ==> items[i].serviceId in services
  {
    if items == [] then 0
    else
      var last := items[|items| - 1];
      LiveDuration(services, items[..|items| - 1], bookingId) +
        (if last.bookingId == bookingId then services[last.serviceId].duration else 0)
  }

  /** The snapshot durations stored in the line items play no part in the scan. */
  lemma {:induction false} SnapshotsIgnored(services: map<Id, ServiceRow>, items: seq<LineItem>, other: seq<LineItem>, bookingId: Id)
    requires |items| == |other|
    requires forall i :: 0 <= i < |items| ==>
      items[i].serviceId in services && other[i].serviceId == items[i].serviceId && other[i].bookingId == items[i].bookingId
    ensures LiveDuration(services, items, bookingId) == LiveDuration(services, other, bookingId)
  {
    if items != [] {
      SnapshotsIgnored(services, items[..|items| - 1], other[..|other| - 1], bookingId);
    }
  }

  lemma {:induction false} LiveDurationAppend(services: map<Id, ServiceRow>, a: seq<LineItem>, b: seq<LineItem>, bookingId: Id)
    requires forall i :: 0 <= i < |a| ==> a[i].serviceId in services
    requires forall i :: 0 <= i < |b| ==> b[i].serviceId in services
    ensures LiveDuration(services, a + b, bookingId) == LiveDuration(services, a, bookingId) + LiveDuration(services, b, bookingId)
  {
    if b != [] {
      LiveDurationAppend(services, a, b[..|b| - 1], bookingId);
      assert (a + b)[..|a + b| - 1] == a + b[..|b| - 1];
      assert (a + b)[|a + b| - 1] == b[|b| - 1];
    } else {
      assert a + b == a;
    }
  }

  lemma {:induction false} LiveDurationOfAbsent(services: map<Id, ServiceRow>, items: seq<LineItem>, bookingId: Id)
    requires forall i :: 0 <= i < |items| ==> items[i].serviceId in services && items[i].bookingId != bookingId
    ensures LiveDuration(services, items, bookingId) == 0
  {
    if items != [] {
      LiveDurationOfAbsent(services, items[..|items| - 1], bookingId);
    }
  }

  /** The `Booking.findAll` of the scan: same date, pending or confirmed, assigned to the staff member, at any business. */
  predicate Candidate(t: Tables, date: Day, staffId: Id, id: Id)
  {
    id in t.bookings && t.bookings[id].date == date && IsActive(t.bookings[id].status) && (id, staffId) in t.staffing
  }

  /** The three-clause overlap test of the scan, as written. */
  predicate ConflictTest(start: Minutes, end: Minutes, bStart: Minutes, bEnd: Minutes)
  {
    (bStart <= start && bEnd > start) || (bStart < end && bEnd >= end) || (start <= bStart && end > bStart)
  }

  /** For intervals of positive length the test is exactly half-open interval overlap. */
  lemma OverlapIsHalfOpen(start: Minutes, end: Minutes, bStart: Minutes, bEnd: Minutes)
    requires start < end && bStart < bEnd
    ensures ConflictTest(start, end, bStart, bEnd) <==> start < bEnd && bStart < end
  {
  }

  /** Two bookings of positive length clash the same way whichever one is the new one. */
  lemma OverlapSymmetric(start: Minutes, end: Minutes, bStart: Minutes, bEnd: Minutes)
    requires start < end && bStart < bEnd
    ensures ConflictTest(start, end, bStart, bEnd) == ConflictTest(bStart, bEnd, start, end)
  {
    OverlapIsHalfOpen(start, end, bStart, bEnd);
    OverlapIsHalfOpen(bStart, bEnd, start, end);
  }

  /** A booking that starts exactly when another ends, or ends exactly when it starts, does not clash. */
  lemma BackToBackAccepted(start: Minutes, d: int, d2: int)
    requires d >= 1 && d2 >= 1
    ensures !ConflictTest(start, start + d, start + d, start + d + d2)
    ensures !ConflictTest(start + d2, start + d2 + d, start, start + d2)
  {
  }

  predicate HasConflict(t: Tables, date: Day, staffId: Id, start: Minutes, end: Minutes)
    requires LineItemsWellFormed(t)
  {
    exists id :: id in t.bookings && Candidate(t, date, staffId, id) &&
      ConflictTest(start, end, t.bookings[id].time, t.bookings[id].time + LiveDuration(t.services, t.lineItems, id))
  }

  /** `EmployeeSchedule.findOne({ employee_id, business_id, work_date })`: the first matching row. */
  function FindShift(rows: seq<ScheduleRow>, staffId: Id, businessId: Id, date: Day): (r: Option<ScheduleRow>)
    ensures r.Some? ==> r.value in rows && r.value.employeeId == staffId && r.value.businessId == businessId && r.value.workDate == date
    ensures r.None? ==> forall i :: 0 <= i < |rows| ==>
      !(rows[i].employeeId == staffId && rows[i].businessId == businessId && rows[i].workDate == date)
  {
    if rows == [] then None
    else if rows[0].employeeId == staffId && rows[0].businessId == businessId && rows[0].workDate == date then Some(rows[0])
    else
      var r := FindShift(rows[1..], staffId, businessId, date);
      assert forall i :: 1 <= i < |rows| ==> rows[i] == rows[1..][i - 1];
      r
  }

  // ---------------------------------------------------------------------------
  // Admission

  /** The checks of `createBooking` in their order; success carries the total duration. */
  function Admission(t: Tables, req: BookingRequest): Result<int, Thrown>
    requires WellFormed(t)
  {
    if req.businessId !in t.businesses then Failure(ApiError(BusinessNotFound, 404))
    else if |req.serviceIds| == 0 then Failure(ApiError(NoServiceSelected, 400))
    else if |FoundServices(t.services, req.businessId, req.serviceIds)| != |req.serviceIds| then Failure(ApiError(InvalidServices, 400))
    else
      ServiceSelection(t.services, req.businessId, req.serviceIds);
      var total := SumDurations(t.services, req.serviceIds);
      var business := t.businesses[req.businessId];
      if req.time < business.openTime || req.time > business.closeTime then Failure(ApiError(OutsideHours, 400))
      else if req.staffId == 0 then Success(total)
      else if (req.businessId, req.staffId) !in t.members then Failure(ApiError(StaffNotMember, 400))
      else match FindShift(t.schedules, req.staffId, req.businessId, req.date)
        case None => Failure(ApiError(StaffNotOnDate, 400))
        case Some(shift) =>
          if req.time < shift.startTime || req.time > shift.endTime then Failure(ApiError(StaffNotAtTime, 400))
          else if HasConflict(t, req.date, req.staffId, req.time, req.time + total) then Failure(ApiError(StaffConflict, 400))
          else Success(total)
  }

  /**
   * What an admitted request satisfies: the business exists, the services are
   * distinct and its own, the start lies within opening hours, and the total is
   * the sum of the service durations.
   */
  lemma AdmittedRequest(t: Tables, req: BookingRequest)
    requires WellFormed(t) && Admission(t, req).Success?
    ensures req.businessId in t.businesses && |req.serviceIds| > 0 && Distinct(req.serviceIds)
    ensures forall i :: 0 <= i < |req.serviceIds| ==> BelongsTo(t.services, req.businessId, req.serviceIds[i])
    ensures t.businesses[req.businessId].openTime <= req.time <= t.businesses[req.businessId].closeTime
    ensures AllServicesExist(t.services, req.serviceIds)
    ensures Admission(t, req).value == SumDurations(t.services, req.serviceIds) >= |req.serviceIds|
  {
    ServiceSelection(t.services, req.businessId, req.serviceIds);
    SumDurationsAtLeastCount(t, req.serviceIds);
  }

  /** The part of `AdmittedRequest` the persistence proofs need: the services exist and the total is their sum. */
  lemma AdmittedTotal(t: Tables, req: BookingRequest)
    requires WellFormed(t) && Admission(t, req).Success?
    ensures AllServicesExist(t.services, req.serviceIds)
    ensures Admission(t, req).value == SumDurations(t.services, req.serviceIds)
  {
    AdmittedRequest(t, req);
  }

  /**
   * An admitted request with a staff member is a member's request, starts within
   * that member's shift, and overlaps none of the member's active bookings that
   * day (taken as half-open intervals).
   */
  lemma AdmittedStaffIsFree(t: Tables, req: BookingRequest, other: Id)
    requires WellFormed(t) && Admission(t, req).Success? && req.staffId != 0
    requires Candidate(t, req.date, req.staffId, other) && LiveDuration(t.services, t.lineItems, other) >= 1
    ensures (req.businessId, req.staffId) in t.members
    ensures FindShift(t.schedules, req.staffId, req.businessId, req.date).Some?
    ensures var shift := FindShift(t.schedules, req.staffId, req.businessId, req.date).value;
      shift.startTime <= req.time <= shift.endTime
    ensures var total := Admission(t, req).value; var b := t.bookings[other];
      req.time + total <= b.time || b.time + LiveDuration(t.services, t.lineItems, other) <= req.time
  {
    AdmittedRequest(t, req);
    var total := Admission(t, req).value;
    var b := t.bookings[other];
    var d := LiveDuration(t.services, t.lineItems, other);
    assert !ConflictTest(req.time, req.time + total, b.time, b.time + d);
    OverlapIsHalfOpen(req.time, req.time + total, b.time, b.time + d);
  }

  /** Without a staff member no schedule, membership or booking is consulted. */
  lemma NoStaffNoStaffChecks(t: Tables, u: Tables, req: BookingRequest)
    requires WellFormed(t) && WellFormed(u) && req.staffId == 0
    requires u.businesses == t.businesses && u.services == t.services
    ensures Admission(t, req) == Admission(u, req)
  {
  }

  /** Approved or pending leave of the staff member is never consulted. */
  lemma LeavesNeverConsulted(t: Tables, req: BookingRequest, leaves: map<Id, LeaveRow>)
    requires WellFormed(t) && WellFormed(t.(leaves := leaves))
    ensures Admission(t.(leaves := leaves), req) == Admission(t, req)
  {
    var u := t.(leaves := leaves);
    if req.staffId != 0 && req.businessId in t.businesses && |req.serviceIds| > 0
      && |FoundServices(t.services, req.businessId, req.serviceIds)| == |req.serviceIds| {
      ServiceSelection(t.services, req.businessId, req.serviceIds);
      var total := SumDurations(t.services, req.serviceIds);
      assert HasConflict(u, req.date, req.staffId, req.time, req.time + total)
        == HasConflict(t, req.date, req.staffId, req.time, req.time + total);
    }
  }

  /** A booking may start at the closing time itself, whatever its length. */
  lemma StartAtClosingAccepted(t: Tables, req: BookingRequest)
    requires WellFormed(t) && req.staffId == 0 && req.businessId in t.businesses && |req.serviceIds| > 0
    requires forall i :: 0 <= i < |req.serviceIds| ==> BelongsTo(t.services, req.businessId, req.serviceIds[i])
    requires Distinct(req.serviceIds)
    requires t.businesses[req.businessId].openTime <= req.time == t.businesses[req.businessId].closeTime
    ensures Admission(t, req).Success?
    ensures req.time + Admission(t, req).value > t.businesses[req.businessId].closeTime
  {
    ServiceSelection(t.services, req.businessId, req.serviceIds);
    SumDurationsAtLeastCount(t, req.serviceIds);
  }

  /** A booking that is completed or cancelled never blocks a staff member. */
  lemma InactiveNeverBlocks(t: Tables, id: Id, date: Day, staffId: Id)
    requires id in t.bookings && !IsActive(t.bookings[id].status)
    ensures !Candidate(t, date, staffId, id)
  {
  }

  // ---------------------------------------------------------------------------
  // The loops of createBooking

  /** The inner loop over `BookingService.findAll({ booking_id })`, summing live service durations. */
  method BookingDuration(t: Tables, bookingId: Id) returns (d: int)
    requires LineItemsWellFormed(t)
    ensures d == LiveDuration(t.services, t.lineItems, bookingId)
  {
    d := 0;
    var i := 0;
    while i < |t.lineItems|
      invariant 0 <= i <= |t.lineItems|
      invariant d == LiveDuration(t.services, t.lineItems[..i], bookingId)
    {
      var item := t.lineItems[i];
      assert t.lineItems[..i + 1][..i] == t.lineItems[..i];
      if item.bookingId == bookingId {
        d := d + t.services[item.serviceId].duration;
      }
      i := i + 1;
    }
    assert t.lineItems[..i] == t.lineItems;
  }

  /** The scan over the staff member's candidate bookings; it stops at the first clash. */
  method FindConflict(t: Tables, date: Day, staffId: Id, start: Minutes, end: Minutes) returns (found: bool)
    requires LineItemsWellFormed(t)
    ensures found == HasConflict(t, date, staffId, start, end)
  {
    var remaining := set id | id in t.bookings && Candidate(t, date, staffId, id);
    while remaining != {}
      invariant forall id :: id in remaining ==> Candidate(t, date, staffId, id)
      invariant forall id :: Candidate(t, date, staffId, id) && id !in remaining ==>
        !ConflictTest(start, end, t.bookings[id].time, t.bookings[id].time + LiveDuration(t.services, t.lineItems, id))
      decreases remaining
    {
      var id :| id in remaining;
      var duration := BookingDuration(t, id);
      var bStart := t.bookings[id].time;
      if ConflictTest(start, end, bStart, bStart + duration) {
        return true;
      }
      remaining := remaining - {id};
    }
    return false;
  }

  /** The checks of `createBooking`, with its duration-summing loop over the requested services. */
  method CheckAdmission(t: Tables, req: BookingRequest) returns (r: Result<int, Thrown>)
    requires WellFormed(t)
    ensures r == Admission(t, req)
  {
    if req.businessId !in t.businesses {
      return Failure(ApiError(BusinessNotFound, 404));
    }
    if |req.serviceIds| == 0 {
      return Failure(ApiError(NoServiceSelected, 400));
    }
    var found := FoundServices(t.services, req.businessId, req.serviceIds);
    if |found| != |req.serviceIds| {
      return Failure(ApiError(InvalidServices, 400));
    }
    ServiceSelection(t.services, req.businessId, req.serviceIds);
    var total := 0;
    var i := 0;
    while i < |req.serviceIds|
      invariant 0 <= i <= |req.serviceIds|
      invariant total == SumDurations(t.services, req.serviceIds[..i])
    {
      assert req.serviceIds[..i + 1][..i] == req.serviceIds[..i];
      total := total + t.services[req.serviceIds[i]].duration;
      i := i + 1;
    }
    assert req.serviceIds[..i] == req.serviceIds;
    var business := t.businesses[req.businessId];
    if req.time < business.openTime || req.time > business.closeTime {
      return Failure(ApiError(OutsideHours, 400));
    }
    if req.staffId != 0 {
      if (req.businessId, req.staffId) !in t.members {
        return Failure(ApiError(StaffNotMember, 400));
      }
      var shift := FindShift(t.schedules, req.staffId, req.businessId, req.date);
      if shift.None? {
        return Failure(ApiError(StaffNotOnDate, 400));
      }
      if req.time < shift.value.startTime || req.time > shift.value.endTime {
        return Failure(ApiError(StaffNotAtTime, 400));
      }
      var clash := FindConflict(t, req.date, req.staffId, req.time, req.time + total);
      if clash {
        return Failure(ApiError(StaffConflict, 400));
      }
    }
    return Success(total);
  }

  // ---------------------------------------------------------------------------
  // Persistence

  /** The `booking_services` rows: one per requested service, in order, with its duration snapshot. */
  function {:induction false} NewLineItems(services: map<Id, ServiceRow>, bookingId: Id, ids: seq<Id>): (items: seq<LineItem>)
    requires AllServicesExist(services, ids)
    ensures |items| == |ids|
    ensures forall i :: 0 <= i < |ids| ==> items[i] == LineItem(bookingId, ids[i], services[ids[i]].duration)
  {
    if ids == [] then []
    else NewLineItems(services, bookingId, ids[..|ids| - 1]) + [LineItem(bookingId, ids[|ids| - 1], services[ids[|ids| - 1]].duration)]
  }

  /** The store after an admitted request: a pending booking, its line items, and the staff row when one was chosen. */
  function Persisted(t: Tables, userId: Id, req: BookingRequest): Tables
    requires AllServicesExist(t.services, req.serviceIds)
  {
    var id := t.nextId;
    t.(bookings := t.bookings[id := BookingRow(userId, req.businessId, req.date, req.time, Pending)],
       lineItems := t.lineItems + NewLineItems(t.services, id, req.serviceIds),
       staffing := if req.staffId != 0 then t.staffing + {(id, req.staffId)} else t.staffing,
       nextId := id + 1)
  }

  lemma {:induction false} NewItemsLiveDuration(services: map<Id, ServiceRow>, bookingId: Id, ids: seq<Id>)
    requires AllServicesExist(services, ids)
    ensures forall i :: 0 <= i < |ids| ==> NewLineItems(services, bookingId, ids)[i].serviceId in services
    ensures LiveDuration(services, NewLineItems(services, bookingId, ids), bookingId) == SumDurations(services, ids)
  {
    if ids != [] {
      NewItemsLiveDuration(services, bookingId, ids[..|ids| - 1]);
      var items := NewLineItems(services, bookingId, ids);
      assert items[..|items| - 1] == NewLineItems(services, bookingId, ids[..|ids| - 1]);
    }
  }

  /** Writing the rows of a request whose services exist keeps the store well formed. */
  lemma PersistedWellFormed(t: Tables, userId: Id, req: BookingRequest)
    requires WellFormed(t) && AllServicesExist(t.services, req.serviceIds)
    ensures WellFormed(Persisted(t, userId, req))
  {
    var u := Persisted(t, userId, req);
    var added := NewLineItems(t.services, t.nextId, req.serviceIds);
    assert u.lineItems == t.lineItems + added;
    forall i | 0 <= i < |u.lineItems|
      ensures u.lineItems[i].duration >= 1 && u.lineItems[i].serviceId in u.services && u.lineItems[i].bookingId < u.nextId
    {
      if i >= |t.lineItems| {
        assert u.lineItems[i] == added[i - |t.lineItems|];
      }
    }
  }

  /**
   * Persisting an admitted request gives the new booking an unused id and the
   * pending status, assigns it to the chosen staff member only, and later
   * overlap scans see it with exactly the admitted total duration (as long as
   * the services keep their durations).
   */
  lemma PersistedBooking(t: Tables, userId: Id, req: BookingRequest)
    requires WellFormed(t) && Admission(t, req).Success?
    ensures AllServicesExist(t.services, req.serviceIds)
    ensures WellFormed(Persisted(t, userId, req))
    ensures t.nextId !in t.bookings && Persisted(t, userId, req).bookings[t.nextId].status == Pending
    ensures forall s :: (t.nextId, s) in Persisted(t, userId, req).staffing <==> req.staffId != 0 && s == req.staffId
    ensures LiveDuration(t.services, Persisted(t, userId, req).lineItems, t.nextId) == Admission(t, req).value
  {
    AdmittedTotal(t, req);
    PersistedWellFormed(t, userId, req);
    var id := t.nextId;
    var added := NewLineItems(t.services, id, req.serviceIds);
    NewItemsLiveDuration(t.services, id, req.serviceIds);
    LiveDurationAppend(t.services, t.lineItems, added, id);
    LiveDurationOfAbsent(t.services, t.lineItems, id);
  }

  /** Once an admitted request with a staff member is stored, the identical request is refused as a clash. */
  lemma NoDoubleBooking(t: Tables, userId: Id, req: BookingRequest)
    requires WellFormed(t) && Admission(t, req).Success? && req.staffId != 0
    ensures AllServicesExist(t.services, req.serviceIds)
    ensures WellFormed(Persisted(t, userId, req))
    ensures Admission(Persisted(t, userId, req), req) == Failure(ApiError(StaffConflict, 400))
  {
    AdmittedRequest(t, req);
    PersistedBooking(t, userId, req);
    var u := Persisted(t, userId, req);
    var total := Admission(t, req).value;
    assert FoundServices(u.services, req.businessId, req.serviceIds) == FoundServices(t.services, req.businessId, req.serviceIds);
    assert SumDurations(u.services, req.serviceIds) == SumDurations(t.services, req.serviceIds) == total;
    assert Candidate(u, req.date, req.staffId, t.nextId);
    assert ConflictTest(req.time, req.time + total, req.time, req.time + total);
    assert HasConflict(u, req.date, req.staffId, req.time, req.time + total);
  }

  /**
   * `createBooking`: run the checks, then write the booking, its line items and
   * the staff row. A failed confirmation e-mail (`mailFailure`) fails the request
   * after the rows are written; SMS failures are swallowed.
   */
  method CreateBooking(db: Database, userId: Id, req: BookingRequest, mailFailure: Option<string>) returns (r: Result<Id, Thrown>)
    requires db.Valid()
    modifies db
    ensures db.Valid()
    ensures Admission(old(db.Snapshot()), req).Failure? ==>
      r == Failure(Admission(old(db.Snapshot()), req).error) && db.Snapshot() == old(db.Snapshot())
    ensures Admission(old(db.Snapshot()), req).Success? ==>
      AllServicesExist(old(db.services), req.serviceIds) && db.Snapshot() == Persisted(old(db.Snapshot()), userId, req)
    ensures Admission(old(db.Snapshot()), req).Success? ==>
      r == if mailFailure.None? then Success(old(db.nextId)) else Failure(ExternalError(mailFailure.value))
  {
    var t := db.Snapshot();
    var decision := CheckAdmission(t, req);
    if decision.Failure? {
      return Failure(decision.error);
    }
    AdmittedTotal(t, req);
    PersistedWellFormed(t, userId, req);
    var id := db.nextId;
    var u := Persisted(t, userId, req);
    db.Store(u);
    if mailFailure.Some? {
      return Failure(ExternalError(mailFailure.value));
    }
    return Success(id);
  }

  // ---------------------------------------------------------------------------
  // Status, cancellation, staff assignment

  /** The `validStatuses` list: exactly the four stored statuses. */
  function ParseStatus(s: string): (r: Option<BookingStatus>)
    ensures r.Some? <==> s in ["pending", "confirmed", "completed", "cancelled"]
  {
    if s == "pending" then Some(Pending)
    else if s == "confirmed" then Some(Confirmed)
    else if s == "completed" then Some(Completed)
    else if s == "cancelled" then Some(Cancelled)
    else None
  }

  function StatusName(s: BookingStatus): string
  {
    match s
    case Pending => "pending"
    case Confirmed => "confirmed"
    case Completed => "completed"
    case Cancelled => "cancelled"
  }

  lemma StatusNameRoundTrip(s: BookingStatus)
    ensures ParseStatus(StatusName(s)) == Some(s)
  {
  }

  function SetStatus(t: Tables, id: Id, s: BookingStatus): Tables
    requires id in t.bookings
  {
    t.(bookings := t.bookings[id := t.bookings[id].(status := s)])
  }

  lemma SetStatusKeepsWellFormed(t: Tables, id: Id, s: BookingStatus)
    requires WellFormed(t) && id in t.bookings
    ensures WellFormed(SetStatus(t, id, s))
  {
  }

  /**
   * `updateBookingStatus`: any listed status may replace any other (there is no
   * transition rule); only the business owner passes the permission check,
   * because the helper is called with its default empty role list.
   */
  method UpdateBookingStatus(db: Database, userId: Id, bookingId: Id, status: string, mailFailure: Option<string>)
    returns (r: Result<BookingStatus, Thrown>)
    requires db.Valid()
    modifies db
    ensures db.Valid()
    ensures var before := old(db.Snapshot());
      && (ParseStatus(status).None? ==> r == Failure(ApiError(InvalidStatus, 400)) && db.Snapshot() == before)
      && (ParseStatus(status).Some? && bookingId !in before.bookings ==>
            r == Failure(ApiError(BookingNotFound, 404)) && db.Snapshot() == before)
      && (ParseStatus(status).Some? && bookingId in before.bookings &&
          !Permission.IsOwner(before, userId, before.bookings[bookingId].businessId) ==>
            r == Failure(ApiError(NoUpdatePermission, 403)) && db.Snapshot() == before)
      && (ParseStatus(status).Some? && bookingId in before.bookings &&
          Permission.IsOwner(before, userId, before.bookings[bookingId].businessId) ==>
            db.Snapshot() == SetStatus(before, bookingId, ParseStatus(status).value) &&
            r == if ParseStatus(status).value == Confirmed && mailFailure.Some?
                 then Failure(ExternalError(mailFailure.value)) else Success(ParseStatus(status).value))
  {
    var parsed := ParseStatus(status);
    if parsed.None? {
      return Failure(ApiError(InvalidStatus, 400));
    }
    if bookingId !in db.bookings {
      return Failure(ApiError(BookingNotFound, 404));
    }
    var allowed := Permission.CheckBusinessPermission(db.Snapshot(), userId, db.bookings[bookingId].businessId, []);
    if !allowed {
      return Failure(ApiError(NoUpdatePermission, 403));
    }
    SetStatusKeepsWellFormed(db.Snapshot(), bookingId, parsed.value);
    db.bookings := db.bookings[bookingId := db.bookings[bookingId].(status := parsed.value)];
    if parsed.value == Confirmed && mailFailure.Some? {
      return Failure(ExternalError(mailFailure.value));
    }
    return Success(parsed.value);
  }

  /** The message of the 400 refusal names the current status. */
  function NotCancellableMessage(s: BookingStatus): string
  {
    "Booking cannot be cancelled because it is already " + StatusName(s)
  }

  /**
   * `cancelBooking`: only the customer who booked may cancel, and only a
   * pending or confirmed booking; afterwards it no longer blocks its staff.
   */
  method CancelBooking(db: Database, userId: Id, bookingId: Id) returns (r: Result<(), Thrown>)
    requires db.Valid()
    modifies db
    ensures db.Valid()
    ensures bookingId !in old(db.bookings) ==>
      r == Failure(ApiError(BookingNotFound, 404)) && db.Snapshot() == old(db.Snapshot())
    ensures bookingId in old(db.bookings) && old(db.bookings[bookingId].userId) != userId ==>
      r == Failure(ApiError(NoCancelPermission, 403)) && db.Snapshot() == old(db.Snapshot())
    ensures (bookingId in old(db.bookings) && old(db.bookings[bookingId].userId) == userId &&
             !IsActive(old(db.bookings[bookingId].status))) ==>
      r == Failure(ApiError(NotCancellableMessage(old(db.bookings[bookingId].status)), 400)) && db.Snapshot() == old(db.Snapshot())
    ensures (bookingId in old(db.bookings) && old(db.bookings[bookingId].userId) == userId &&
             IsActive(old(db.bookings[bookingId].status))) ==>
      r == Success(()) && db.Snapshot() == SetStatus(old(db.Snapshot()), bookingId, Cancelled)
    ensures r.Success? ==> forall date, staffId :: !Candidate(db.Snapshot(), date, staffId, bookingId)
  {
    if bookingId !in db.bookings {
      return Failure(ApiError(BookingNotFound, 404));
    }
    var booking := db.bookings[bookingId];
    if booking.userId != userId {
      return Failure(ApiError(NoCancelPermission, 403));
    }
    if booking.status == Completed || booking.status == Cancelled {
      return Failure(ApiError(NotCancellableMessage(booking.status), 400));
    }
    var t := db.Snapshot();
    SetStatusKeepsWellFormed(t, bookingId, Cancelled);
    var u := SetStatus(t, bookingId, Cancelled);
    db.Store(u);
    forall date, staffId
      ensures !Candidate(u, date, staffId, bookingId)
    {
      InactiveNeverBlocks(u, bookingId, date, staffId);
    }
    return Success(());
  }

  /**
   * `assignStaffToBooking`: the business owner replaces the booking's staff rows
   * by one row for a member of the business. No shift or overlap check is made.
   */
  method AssignStaffToBooking(db: Database, userId: Id, bookingId: Id, staffId: Id) returns (r: Result<(), Thrown>)
    requires db.Valid()
    modifies db
    ensures db.Valid()
    ensures var before := old(db.Snapshot());
      && (bookingId !in before.bookings ==> r == Failure(ApiError(BookingNotFound, 404)) && db.Snapshot() == before)
      && (bookingId in before.bookings && !Permission.IsOwner(before, userId, before.bookings[bookingId].businessId) ==>
            r == Failure(ApiError(NoUpdatePermission, 403)) && db.Snapshot() == before)
      && (bookingId in before.bookings && Permission.IsOwner(before, userId, before.bookings[bookingId].businessId) &&
          (before.bookings[bookingId].businessId, staffId) !in before.members ==>
            r == Failure(ApiError(StaffNotMember, 400)) && db.Snapshot() == before)
      && (bookingId in before.bookings && Permission.IsOwner(before, userId, before.bookings[bookingId].businessId) &&
          (before.bookings[bookingId].businessId, staffId) in before.members ==>
            r == Success(()) &&
            db.Snapshot() == before.(staffing := (set p | p in before.staffing && p.0 != bookingId) + {(bookingId, staffId)}))
    ensures r.Success? ==> forall s :: (bookingId, s) in db.staffing <==> s == staffId
  {
    if bookingId !in db.bookings {
      return Failure(ApiError(BookingNotFound, 404));
    }
    var businessId := db.bookings[bookingId].businessId;
    var allowed := Permission.CheckBusinessPermission(db.Snapshot(), userId, businessId, []);
    if !allowed {
      return Failure(ApiError(NoUpdatePermission, 403));
    }
    if (businessId, staffId) !in db.members {
      return Failure(ApiError(StaffNotMember, 400));
    }
    db.staffing := (set p | p in db.staffing && p.0 != bookingId) + {(bookingId, staffId)};
    return Success(());
  }
}
