/**
 * business.controller.js: owner updates of a business, staff membership,
 * the batch upsert of an employee's shifts, and leave requests.
 */
module BusinessController {
  import opened Wrappers
  import opened ErrorHandler
  import opened Tables
  import Permission
  import Query
  import BookingController

  const BusinessNotFound := "Business not found"
  const NoBusinessPermission := "You do not have permission to update this business"
  const NoAddPermission := "You do not have permission to add employees to this business"
  const UserNotFound := "User not found"
  const RoleNotFound := "Role not found"
  const AlreadyEmployee := "User is already an employee of this business"
  const NoRolePermission := "You do not have permission to update employee roles for this business"
  const EmployeeNotFound := "Employee not found"
  const NoRemovePermission := "You do not have permission to remove employees from this business"
  const CannotRemoveOwner := "Cannot remove the business owner"
  const NoViewPermission := "You do not have permission to view this schedule"
  const NoSchedulePermission := "You do not have permission to set employee schedules for this business"
  const InvalidSchedules := "Invalid schedules data"
  const IncompleteEntry := "Each schedule must have work_date, start_time, and end_time"
  const NotEmployee := "You are not an employee of this business"
  const LeaveExists := "Leave already requested for this date"
  const InvalidLeaveStatus := "Status must be either \"approved\" or \"rejected\""
  const NoLeavePermission := "You do not have permission to update leave status for this business"
  const LeaveNotFound := "Leave request not found"

  /** The role list the staff handlers pass to the permission helper. */
  const StaffRoles: seq<string> := ["owner", "manager"]

  // ---------------------------------------------------------------------------
  // updateBusiness

  /** The body of `updateBusiness`; an empty string or None is an absent (falsy) field. */
  datatype BusinessPatch = BusinessPatch(
    name: string, description: string, address: string, openTime: Option<Minutes>, closeTime: Option<Minutes>)

  /** Each `if (field) business.field = field`. */
  function ApplyBusinessPatch(b: BusinessRow, p: BusinessPatch): BusinessRow
  {
    b.(name := if p.name != "" then p.name else b.name,
       description := if p.description != "" then p.description else b.description,
       address := if p.address != "" then p.address else b.address,
       openTime := if p.openTime.Some? then p.openTime.value else b.openTime,
       closeTime := if p.closeTime.Some? then p.closeTime.value else b.closeTime)
  }

  /** Two patches in a row act as one patch in which the later truthy fields win. */
  function MergePatches(p: BusinessPatch, q: BusinessPatch): BusinessPatch
  {
    BusinessPatch(
      if q.name != "" then q.name else p.name,
      if q.description != "" then q.description else p.description,
      if q.address != "" then q.address else p.address,
      if q.openTime.Some? then q.openTime else p.openTime,
      if q.closeTime.Some? then q.closeTime else p.closeTime)
  }

  /**
   * The owner never changes, a patch with no truthy field changes nothing,
   * applying the same patch twice is applying it once, and two patches compose.
   */
  lemma PatchLaws(b: BusinessRow, p: BusinessPatch, q: BusinessPatch)
    ensures ApplyBusinessPatch(b, p).ownerId == b.ownerId
    ensures ApplyBusinessPatch(b, BusinessPatch("", "", "", None, None)) == b
    ensures ApplyBusinessPatch(ApplyBusinessPatch(b, p), p) == ApplyBusinessPatch(b, p)
    ensures ApplyBusinessPatch(ApplyBusinessPatch(b, p), q) == ApplyBusinessPatch(b, MergePatches(p, q))
  {
  }

  /** `updateBusiness`: owner only; the supplied fields are overwritten and nothing else. */
  method UpdateBusiness(db: Database, userId: Id, businessId: Id, patch: BusinessPatch) returns (r: Result<BusinessRow, Thrown>)
    requires db.Valid()
    modifies db
    ensures db.Valid()
    ensures businessId !in old(db.businesses) ==>
      r == Failure(ApiError(BusinessNotFound, 404)) && db.Snapshot() == old(db.Snapshot())
    ensures businessId in old(db.businesses) && old(db.businesses[businessId].ownerId) != userId ==>
      r == Failure(ApiError(NoBusinessPermission, 403)) && db.Snapshot() == old(db.Snapshot())
    ensures businessId in old(db.businesses) && old(db.businesses[businessId].ownerId) == userId ==>
      var updated := ApplyBusinessPatch(old(db.businesses[businessId]), patch);
      r == Success(updated) && db.Snapshot() == old(db.Snapshot()).(businesses := old(db.businesses)[businessId := updated])
  {
    if businessId !in db.businesses {
      return Failure(ApiError(BusinessNotFound, 404));
    }
    var business := db.businesses[businessId];
    if business.ownerId != userId {
      return Failure(ApiError(NoBusinessPermission, 403));
    }
    var updated := ApplyBusinessPatch(business, patch);
    db.businesses := db.businesses[businessId := updated];
    return Success(updated);
  }

  // ---------------------------------------------------------------------------
  // Membership

  /** The guards of `addEmployee`, in order; None means the membership row is written. */
  function AddEmployeeRefusal(t: Tables, userId: Id, businessId: Id, email: string, roleId: Id): Option<Thrown>
  {
    if businessId !in t.businesses then Some(ApiError(BusinessNotFound, 404))
    else if !Permission.CheckBusinessPermission(t, userId, businessId, StaffRoles) then Some(ApiError(NoAddPermission, 403))
    else if email !in t.users then Some(ApiError(UserNotFound, 404))
    else if roleId !in t.roles then Some(ApiError(RoleNotFound, 404))
    else if (businessId, t.users[email]) in t.members then Some(ApiError(AlreadyEmployee, 400))
    else None
  }

  /**
   * Only the owner gets past the permission check (the list names "owner"),
   * and an existing membership is never overwritten: it is refused with 400.
   */
  lemma AddEmployeeGuards(t: Tables, userId: Id, businessId: Id, email: string, roleId: Id)
    ensures AddEmployeeRefusal(t, userId, businessId, email, roleId).None? ==>
      Permission.IsOwner(t, userId, businessId) && email in t.users && roleId in t.roles &&
      (businessId, t.users[email]) !in t.members
    ensures (Permission.IsOwner(t, userId, businessId) && email in t.users && roleId in t.roles &&
             (businessId, t.users[email]) in t.members) ==>
      AddEmployeeRefusal(t, userId, businessId, email, roleId) == Some(ApiError(AlreadyEmployee, 400))
  {
    Permission.OwnerManagerMeansOwnerOnly(t, userId, businessId);
  }

  /** `addEmployee`. */
  method AddEmployee(db: Database, userId: Id, businessId: Id, email: string, roleId: Id) returns (r: Result<(), Thrown>)
    requires db.Valid()
    modifies db
    ensures db.Valid()
    ensures var refusal := AddEmployeeRefusal(old(db.Snapshot()), userId, businessId, email, roleId);
      && (refusal.Some? ==> r == Failure(refusal.value) && db.Snapshot() == old(db.Snapshot()))
      && (refusal.None? ==>
            r == Success(()) &&
            db.Snapshot() == old(db.Snapshot()).(members := old(db.members)[(businessId, old(db.users[email])) := roleId]))
  {
    var refusal := AddEmployeeRefusal(db.Snapshot(), userId, businessId, email, roleId);
    if refusal.Some? {
      return Failure(refusal.value);
    }
    db.members := db.members[(businessId, db.users[email]) := roleId];
    return Success(());
  }

  /** The guards of `updateEmployeeRole`, in order. */
  function UpdateRoleRefusal(t: Tables, userId: Id, businessId: Id, employeeId: Id, roleId: Id): Option<Thrown>
  {
    if businessId !in t.businesses then Some(ApiError(BusinessNotFound, 404))
    else if !Permission.CheckBusinessPermission(t, userId, businessId, StaffRoles) then Some(ApiError(NoRolePermission, 403))
    else if roleId !in t.roles then Some(ApiError(RoleNotFound, 404))
    else if (businessId, employeeId) !in t.members then Some(ApiError(EmployeeNotFound, 404))
    else None
  }

  /** A role change only ever re-labels an existing membership, by the owner, to an existing role. */
  lemma UpdateRoleGuards(t: Tables, userId: Id, businessId: Id, employeeId: Id, roleId: Id)
    ensures UpdateRoleRefusal(t, userId, businessId, employeeId, roleId).None? <==>
      Permission.IsOwner(t, userId, businessId) && roleId in t.roles && (businessId, employeeId) in t.members
  {
    Permission.OwnerManagerMeansOwnerOnly(t, userId, businessId);
  }

  /** `updateEmployeeRole`. */
  method UpdateEmployeeRole(db: Database, userId: Id, businessId: Id, employeeId: Id, roleId: Id) returns (r: Result<(), Thrown>)
    requires db.Valid()
    modifies db
    ensures db.Valid()
    ensures var refusal := UpdateRoleRefusal(old(db.Snapshot()), userId, businessId, employeeId, roleId);
      && (refusal.Some? ==> r == Failure(refusal.value) && db.Snapshot() == old(db.Snapshot()))
      && (refusal.None? ==>
            r == Success(()) &&
            db.Snapshot() == old(db.Snapshot()).(members := old(db.members)[(businessId, employeeId) := roleId]))
  {
    var refusal := UpdateRoleRefusal(db.Snapshot(), userId, businessId, employeeId, roleId);
    if refusal.Some? {
      return Failure(refusal.value);
    }
    db.members := db.members[(businessId, employeeId) := roleId];
    return Success(());
  }

  /** The guards of `removeEmployee`, in order. */
  function RemoveRefusal(t: Tables, userId: Id, businessId: Id, employeeId: Id): Option<Thrown>
  {
    if businessId !in t.businesses then Some(ApiError(BusinessNotFound, 404))
    else if !Permission.CheckBusinessPermission(t, userId, businessId, StaffRoles) then Some(ApiError(NoRemovePermission, 403))
    else if (businessId, employeeId) !in t.members then Some(ApiError(EmployeeNotFound, 404))
    else if t.businesses[businessId].ownerId == employeeId then Some(ApiError(CannotRemoveOwner, 400))
    else None
  }

  /** The owner's own membership row can never be removed. */
  lemma OwnerNeverRemoved(t: Tables, userId: Id, businessId: Id, employeeId: Id)
    requires businessId in t.businesses && t.businesses[businessId].ownerId == employeeId
    ensures RemoveRefusal(t, userId, businessId, employeeId).Some?
    ensures Permission.IsOwner(t, userId, businessId) && (businessId, employeeId) in t.members ==>
      RemoveRefusal(t, userId, businessId, employeeId) == Some(ApiError(CannotRemoveOwner, 400))
  {
  }

  /** `removeEmployee`. */
  method RemoveEmployee(db: Database, userId: Id, businessId: Id, employeeId: Id) returns (r: Result<(), Thrown>)
    requires db.Valid()
    modifies db
    ensures db.Valid()
    ensures var refusal := RemoveRefusal(old(db.Snapshot()), userId, businessId, employeeId);
      && (refusal.Some? ==> r == Failure(refusal.value) && db.Snapshot() == old(db.Snapshot()))
      && (refusal.None? ==>
            r == Success(()) &&
            db.Snapshot() == old(db.Snapshot()).(members := old(db.members) - {(businessId, employeeId)}))
  {
    var refusal := RemoveRefusal(db.Snapshot(), userId, businessId, employeeId);
    if refusal.Some? {
      return Failure(refusal.value);
    }
    db.members := db.members - {(businessId, employeeId)};
    return Success(());
  }

  // ---------------------------------------------------------------------------
  // getEmployeeSchedule

  /** Owner-or-manager (through the helper) or the employee themself. */
  function CanViewSchedule(t: Tables, userId: Id, businessId: Id, employeeId: Id): (r: bool)
  {
    Permission.CheckBusinessPermission(t, userId, businessId, StaffRoles) || userId == employeeId
  }

  lemma ViewerIsOwnerOrSelf(t: Tables, userId: Id, businessId: Id, employeeId: Id)
    ensures CanViewSchedule(t, userId, businessId, employeeId) <==> Permission.IsOwner(t, userId, businessId) || userId == employeeId
  {
    Permission.OwnerManagerMeansOwnerOnly(t, userId, businessId);
  }

  /** The `work_date` filter: an if / else-if chain on the two optional dates. */
  function ScheduleDateFilter(startDate: Option<Day>, endDate: Option<Day>): map<string, Query.Condition>
  {
    if startDate.Some? && endDate.Some? then map["work_date" := Query.Between(startDate.value, endDate.value)]
    else if startDate.Some? then map["work_date" := Query.AtLeast(startDate.value)]
    else if endDate.Some? then map["work_date" := Query.AtMost(endDate.value)]
    else map[]
  }

  /** The `leave_date` filter: three conditional object spreads. */
  function LeaveDateFilter(startDate: Option<Day>, endDate: Option<Day>): map<string, Query.Condition>
  {
    (if startDate.Some? && endDate.Some? then map["leave_date" := Query.Between(startDate.value, endDate.value)] else map[])
    + (if startDate.Some? && endDate.None? then map["leave_date" := Query.AtLeast(startDate.value)] else map[])
    + (if startDate.None? && endDate.Some? then map["leave_date" := Query.AtMost(endDate.value)] else map[])
  }

  /** Both hand-written filters agree with the shared date-range builder. */
  lemma DateFiltersAgree(startDate: Option<Day>, endDate: Option<Day>)
    ensures ScheduleDateFilter(startDate, endDate) == Query.BuildDateRangeQuery("work_date", startDate, endDate).fields
    ensures LeaveDateFilter(startDate, endDate) == Query.BuildDateRangeQuery("leave_date", startDate, endDate).fields
  {
  }

  // ---------------------------------------------------------------------------
  // setEmployeeSchedule

  /** One element of `schedules`; None is a missing or falsy field. */
  datatype ScheduleEntry = ScheduleEntry(workDate: Option<Day>, startTime: Option<Minutes>, endTime: Option<Minutes>)

  /** The `schedules` body field: missing or not an array, or an array of entries. */
  datatype SchedulesBody = NotAnArray | Entries(entries: seq<ScheduleEntry>)

  predicate Complete(e: ScheduleEntry)
  {
    e.workDate.Some? && e.startTime.Some? && e.endTime.Some?
  }

  function EntryRow(employeeId: Id, businessId: Id, e: ScheduleEntry): ScheduleRow
    requires Complete(e)
  {
    ScheduleRow(employeeId, businessId, e.workDate.value, e.startTime.value, e.endTime.value)
  }

  predicate SameKey(a: ScheduleRow, b: ScheduleRow)
  {
    a.employeeId == b.employeeId && a.businessId == b.businessId && a.workDate == b.workDate
  }

  /** No two shift rows share (employee, business, date). */
  predicate UniqueShiftKeys(rows: seq<ScheduleRow>)
  {
    forall i, j :: 0 <= i < j < |rows| ==> !SameKey(rows[i], rows[j])
  }

  /** The body of the loop: overwrite the times of the row found by `findOne`, or append a new row. */
  function Upsert(rows: seq<ScheduleRow>, row: ScheduleRow): seq<ScheduleRow>
  {
    if rows == [] then [row]
    else if SameKey(rows[0], row) then [rows[0].(startTime := row.startTime, endTime := row.endTime)] + rows[1..]
    else [rows[0]] + Upsert(rows[1..], row)
  }

  /**
   * Upsert either appends the row (no row had its key) or changes only the
   * times of the first row with its key.
   */
  lemma {:induction false} UpsertShape(rows: seq<ScheduleRow>, row: ScheduleRow)
    ensures var found := BookingController.FindShift(rows, row.employeeId, row.businessId, row.workDate);
      && (found.None? ==> Upsert(rows, row) == rows + [row])
      && (found.Some? ==>
            exists k :: (0 <= k < |rows| && rows[k] == found.value &&
              Upsert(rows, row) == rows[k := rows[k].(startTime := row.startTime, endTime := row.endTime)]))
  {
    if rows != [] && !SameKey(rows[0], row) {
      UpsertShape(rows[1..], row);
      var found := BookingController.FindShift(rows[1..], row.employeeId, row.businessId, row.workDate);
      if found.Some? {
        var k :| 0 <= k < |rows[1..]| && rows[1..][k] == found.value &&
          Upsert(rows[1..], row) == rows[1..][k := rows[1..][k].(startTime := row.startTime, endTime := row.endTime)];
        assert Upsert(rows, row) == rows[k + 1 := rows[k + 1].(startTime := row.startTime, endTime := row.endTime)];
      }
    }
  }

  /** Looking a shift up after an upsert finds the upserted times for its key and the old answer for every other key. */
  lemma {:induction false} UpsertLookup(rows: seq<ScheduleRow>, row: ScheduleRow, employeeId: Id, businessId: Id, date: Day)
    ensures BookingController.FindShift(Upsert(rows, row), employeeId, businessId, date) ==
      if row.employeeId == employeeId && row.businessId == businessId && row.workDate == date then Some(row)
      else BookingController.FindShift(rows, employeeId, businessId, date)
  {
    if rows != [] && !SameKey(rows[0], row) {
      UpsertLookup(rows[1..], row, employeeId, businessId, date);
      assert Upsert(rows, row)[1..] == Upsert(rows[1..], row);
    }
    if rows != [] && SameKey(rows[0], row) {
      assert Upsert(rows, row)[1..] == rows[1..];
    }
  }

  /** Upserting keeps the shift keys unique. */
  lemma UpsertKeepsKeysUnique(rows: seq<ScheduleRow>, row: ScheduleRow)
    requires UniqueShiftKeys(rows)
    ensures UniqueShiftKeys(Upsert(rows, row))
  {
    UpsertShape(rows, row);
    var u := Upsert(rows, row);
    var found := BookingController.FindShift(rows, row.employeeId, row.businessId, row.workDate);
    if found.None? {
      forall i, j | 0 <= i < j < |u| ensures !SameKey(u[i], u[j]) {
        if j == |rows| {
          assert u[i] == rows[i] && u[j] == row;
        }
      }
    } else {
      var k :| 0 <= k < |rows| && rows[k] == found.value &&
        u == rows[k := rows[k].(startTime := row.startTime, endTime := row.endTime)];
      forall i, j | 0 <= i < j < |u| ensures !SameKey(u[i], u[j]) {
        assert SameKey(u[i], rows[i]) && SameKey(u[j], rows[j]);
      }
    }
  }

  /** What processing the entries leaves behind: the table, the rows pushed onto `createdSchedules`, and whether an entry aborted the loop. */
  datatype BatchOutcome = BatchOutcome(rows: seq<ScheduleRow>, saved: seq<ScheduleRow>, aborted: bool)

  /** The loop of `setEmployeeSchedule`, entry by entry; an incomplete entry stops it with nothing undone. */
  function ApplyEntries(rows: seq<ScheduleRow>, employeeId: Id, businessId: Id, entries: seq<ScheduleEntry>): BatchOutcome
    decreases |entries|
  {
    if entries == [] then BatchOutcome(rows, [], false)
    else if !Complete(entries[0]) then BatchOutcome(rows, [], true)
    else
      var row := EntryRow(employeeId, businessId, entries[0]);
      var rest := ApplyEntries(Upsert(rows, row), employeeId, businessId, entries[1..]);
      BatchOutcome(rest.rows, [row] + rest.saved, rest.aborted)
  }

  /**
   * The loop aborts exactly when some entry is incomplete; every saved row is
   * its entry's row, in input order, and without an abort there is one per entry.
   */
  lemma {:induction false} BatchSaved(rows: seq<ScheduleRow>, employeeId: Id, businessId: Id, entries: seq<ScheduleEntry>)
    ensures var out := ApplyEntries(rows, employeeId, businessId, entries);
      && (out.aborted <==> exists i :: 0 <= i < |entries| && !Complete(entries[i]))
      && |out.saved| <= |entries|
      && (forall i :: 0 <= i < |out.saved| ==> Complete(entries[i]) && out.saved[i] == EntryRow(employeeId, businessId, entries[i]))
      && (!out.aborted ==> |out.saved| == |entries|)
    decreases |entries|
  {
    if entries != [] && Complete(entries[0]) {
      var row := EntryRow(employeeId, businessId, entries[0]);
      BatchSaved(Upsert(rows, row), employeeId, businessId, entries[1..]);
      assert forall i :: 1 <= i < |entries| ==> entries[i] == entries[1..][i - 1];
      assert (exists i :: 0 <= i < |entries| && !Complete(entries[i])) <==>
        (exists i :: 0 <= i < |entries[1..]| && !Complete(entries[1..][i]));
    }
  }

  /** The loop keeps the shift keys unique, however it ends. */
  lemma {:induction false} BatchKeepsKeysUnique(rows: seq<ScheduleRow>, employeeId: Id, businessId: Id, entries: seq<ScheduleEntry>)
    requires UniqueShiftKeys(rows)
    ensures UniqueShiftKeys(ApplyEntries(rows, employeeId, businessId, entries).rows)
    decreases |entries|
  {
    if entries != [] && Complete(entries[0]) {
      var row := EntryRow(employeeId, businessId, entries[0]);
      UpsertKeepsKeysUnique(rows, row);
      BatchKeepsKeysUnique(Upsert(rows, row), employeeId, businessId, entries[1..]);
    }
  }

  /** Entries before the first incomplete one stay saved: the result is that of the complete prefix. */
  lemma {:induction false} NoRollback(rows: seq<ScheduleRow>, employeeId: Id, businessId: Id, entries: seq<ScheduleEntry>, k: nat)
    requires k < |entries| && !Complete(entries[k]) && forall i :: 0 <= i < k ==> Complete(entries[i])
    ensures ApplyEntries(rows, employeeId, businessId, entries).rows == ApplyEntries(rows, employeeId, businessId, entries[..k]).rows
    decreases k
  {
    if k > 0 {
      var row := EntryRow(employeeId, businessId, entries[0]);
      NoRollback(Upsert(rows, row), employeeId, businessId, entries[1..], k - 1);
      assert entries[..k][1..] == entries[1..][..k - 1];
    }
  }

  /** The last entry of the batch for a date, if any. */
  function LastEntryFor(entries: seq<ScheduleEntry>, date: Day): (r: Option<ScheduleEntry>)
    ensures r.Some? ==> r.value.workDate == Some(date) && exists i :: 0 <= i < |entries| && entries[i] == r.value
    decreases |entries|
  {
    if entries == [] then None
    else
      var later := LastEntryFor(entries[1..], date);
      if later.Some? then later
      else if entries[0].workDate == Some(date) then Some(entries[0])
      else None
  }

  /**
   * After a batch of complete entries the shift found for a date of this
   * employee and business carries the times of the batch's last entry for that
   * date; dates the batch does not name, and other employees or businesses,
   * keep what they had.
   */
  lemma {:induction false} LastEntryWins(rows: seq<ScheduleRow>, employeeId: Id, businessId: Id, entries: seq<ScheduleEntry>,
                                         staffId: Id, otherBusiness: Id, date: Day)
    requires forall i :: 0 <= i < |entries| ==> Complete(entries[i])
    ensures var after := ApplyEntries(rows, employeeId, businessId, entries).rows;
      BookingController.FindShift(after, staffId, otherBusiness, date) ==
        if staffId == employeeId && otherBusiness == businessId && LastEntryFor(entries, date).Some?
        then Some(EntryRow(employeeId, businessId, LastEntryFor(entries, date).value))
        else BookingController.FindShift(rows, staffId, otherBusiness, date)
    decreases |entries|
  {
    if entries != [] {
      var row := EntryRow(employeeId, businessId, entries[0]);
      LastEntryWins(Upsert(rows, row), employeeId, businessId, entries[1..], staffId, otherBusiness, date);
      UpsertLookup(rows, row, staffId, otherBusiness, date);
    }
  }

  /** The guards of `setEmployeeSchedule` before its loop, in order. */
  function ScheduleRefusal(t: Tables, userId: Id, businessId: Id, employeeId: Id, body: SchedulesBody): Option<Thrown>
  {
    if businessId !in t.businesses then Some(ApiError(BusinessNotFound, 404))
    else if !Permission.CheckBusinessPermission(t, userId, businessId, StaffRoles) then Some(ApiError(NoSchedulePermission, 403))
    else if (businessId, employeeId) !in t.members then Some(ApiError(EmployeeNotFound, 404))
    else if body.NotAnArray? || body.entries == [] then Some(ApiError(InvalidSchedules, 400))
    else None
  }

  /** A missing, non-array or empty `schedules` is refused once the caller and employee check out. */
  lemma EmptyBatchRefused(t: Tables, userId: Id, businessId: Id, employeeId: Id)
    requires Permission.IsOwner(t, userId, businessId) && (businessId, employeeId) in t.members
    ensures ScheduleRefusal(t, userId, businessId, employeeId, NotAnArray) == Some(ApiError(InvalidSchedules, 400))
    ensures ScheduleRefusal(t, userId, businessId, employeeId, Entries([])) == Some(ApiError(InvalidSchedules, 400))
  {
  }

  /** Prefix the rows saved so far to the outcome of the remaining entries. */
  function AfterSaved(saved: seq<ScheduleRow>, out: BatchOutcome): BatchOutcome
  {
    BatchOutcome(out.rows, saved + out.saved, out.aborted)
  }

  /** One turn of the loop, seen from the rows saved so far: finish, abort, or save one more row. */
  lemma BatchStep(rows: seq<ScheduleRow>, employeeId: Id, businessId: Id, entries: seq<ScheduleEntry>, i: nat, saved: seq<ScheduleRow>)
    requires i <= |entries|
    ensures i == |entries| ==> AfterSaved(saved, ApplyEntries(rows, employeeId, businessId, entries[i..])) == BatchOutcome(rows, saved, false)
    ensures i < |entries| && !Complete(entries[i]) ==>
      AfterSaved(saved, ApplyEntries(rows, employeeId, businessId, entries[i..])) == BatchOutcome(rows, saved, true)
    ensures i < |entries| && Complete(entries[i]) ==>
      var row := EntryRow(employeeId, businessId, entries[i]);
      AfterSaved(saved, ApplyEntries(rows, employeeId, businessId, entries[i..])) ==
        AfterSaved(saved + [row], ApplyEntries(Upsert(rows, row), employeeId, businessId, entries[i + 1..]))
  {
    if i == |entries| {
      assert entries[i..] == [];
      assert saved + [] == saved;
    } else {
      assert entries[i..][0] == entries[i] && entries[i..][1..] == entries[i + 1..];
      if Complete(entries[i]) {
        var row := EntryRow(employeeId, businessId, entries[i]);
        var rest := ApplyEntries(Upsert(rows, row), employeeId, businessId, entries[i + 1..]);
        assert saved + ([row] + rest.saved) == (saved + [row]) + rest.saved;
      } else {
        assert saved + [] == saved;
      }
    }
  }

  /**
   * `setEmployeeSchedule`: after its guards, upserts entry by entry and
   * answers with the saved rows; an incomplete entry answers 400 and leaves
   * the earlier entries' writes in place.
   */
  method SetEmployeeSchedule(db: Database, userId: Id, businessId: Id, employeeId: Id, body: SchedulesBody)
    returns (r: Result<seq<ScheduleRow>, Thrown>)
    requires db.Valid()
    modifies db
    ensures db.Valid()
    ensures var refusal := ScheduleRefusal(old(db.Snapshot()), userId, businessId, employeeId, body);
      refusal.Some? ==> r == Failure(refusal.value) && db.Snapshot() == old(db.Snapshot())
    ensures ScheduleRefusal(old(db.Snapshot()), userId, businessId, employeeId, body).None? ==>
      var out := ApplyEntries(old(db.schedules), employeeId, businessId, body.entries);
      && db.Snapshot() == old(db.Snapshot()).(schedules := out.rows)
      && r == if out.aborted then Failure(ApiError(IncompleteEntry, 400)) else Success(out.saved)
  {
    var refusal := ScheduleRefusal(db.Snapshot(), userId, businessId, employeeId, body);
    if refusal.Some? {
      return Failure(refusal.value);
    }
    var entries := body.entries;
    var saved: seq<ScheduleRow> := [];
    var i := 0;
    while i < |entries|
      invariant 0 <= i <= |entries|
      invariant db.Snapshot() == old(db.Snapshot()).(schedules := db.schedules)
      invariant ApplyEntries(old(db.schedules), employeeId, businessId, entries) ==
        AfterSaved(saved, ApplyEntries(db.schedules, employeeId, businessId, entries[i..]))
    {
      var entry := entries[i];
      BatchStep(db.schedules, employeeId, businessId, entries, i, saved);
      if entry.workDate.None? || entry.startTime.None? || entry.endTime.None? {
        return Failure(ApiError(IncompleteEntry, 400));
      }
      var row := EntryRow(employeeId, businessId, entry);
      db.schedules := Upsert(db.schedules, row);
      saved := saved + [row];
      i := i + 1;
    }
    BatchStep(db.schedules, employeeId, businessId, entries, i, saved);
    return Success(saved);
  }

  // ---------------------------------------------------------------------------
  // Leave

  /** No employee has two leave rows for the same business and date. */
  predicate OneLeavePerDate(t: Tables)
  {
    forall a, b ::
      (a in t.leaves && b in t.leaves && t.leaves[a].employeeId == t.leaves[b].employeeId &&
       t.leaves[a].businessId == t.leaves[b].businessId && t.leaves[a].leaveDate == t.leaves[b].leaveDate) ==> a == b
  }

  /** Any leave row, of any status, for that employee, business and date. */
  predicate HasLeave(t: Tables, employeeId: Id, businessId: Id, date: Day)
  {
    exists id :: id in t.leaves && t.leaves[id].employeeId == employeeId &&
      t.leaves[id].businessId == businessId && t.leaves[id].leaveDate == date
  }

  /** The guards of `requestLeave`, in order. */
  function LeaveRefusal(t: Tables, userId: Id, businessId: Id, date: Day): Option<Thrown>
  {
    if businessId !in t.businesses then Some(ApiError(BusinessNotFound, 404))
    else if (businessId, userId) !in t.members then Some(ApiError(NotEmployee, 403))
    else if HasLeave(t, userId, businessId, date) then Some(ApiError(LeaveExists, 400))
    else None
  }

  function AddLeave(t: Tables, userId: Id, businessId: Id, date: Day, reason: string): Tables
  {
    t.(leaves := t.leaves[t.nextId := LeaveRow(userId, businessId, date, reason, LeavePending)], nextId := t.nextId + 1)
  }

  /** A granted request adds one pending leave and keeps one leave per employee, business and date. */
  lemma AddLeaveKeepsOnePerDate(t: Tables, userId: Id, businessId: Id, date: Day, reason: string)
    requires WellFormed(t) && OneLeavePerDate(t) && LeaveRefusal(t, userId, businessId, date).None?
    ensures WellFormed(AddLeave(t, userId, businessId, date, reason))
    ensures OneLeavePerDate(AddLeave(t, userId, businessId, date, reason))
    ensures HasLeave(AddLeave(t, userId, businessId, date, reason), userId, businessId, date)
  {
    var u := AddLeave(t, userId, businessId, date, reason);
    assert t.nextId !in t.leaves;
    assert u.leaves[t.nextId].leaveDate == date;
  }

  /** A new leave is pending, under an id no earlier leave had, and the other leaves are untouched. */
  lemma NewLeavePending(t: Tables, userId: Id, businessId: Id, date: Day, reason: string)
    requires WellFormed(t)
    ensures WellFormed(AddLeave(t, userId, businessId, date, reason))
    ensures var u := AddLeave(t, userId, businessId, date, reason);
      && t.nextId !in t.leaves
      && u.leaves.Keys == t.leaves.Keys + {t.nextId}
      && (forall id :: id in t.leaves ==> u.leaves[id] == t.leaves[id])
      && u.leaves[t.nextId] == LeaveRow(userId, businessId, date, reason, LeavePending)
  {
  }

  /** `requestLeave`: members only, one request per date whatever the earlier one's status. */
  method RequestLeave(db: Database, userId: Id, businessId: Id, date: Day, reason: string) returns (r: Result<Id, Thrown>)
    requires db.Valid()
    modifies db
    ensures db.Valid()
    ensures var refusal := LeaveRefusal(old(db.Snapshot()), userId, businessId, date);
      && (refusal.Some? ==> r == Failure(refusal.value) && db.Snapshot() == old(db.Snapshot()))
      && (refusal.None? ==>
            r == Success(old(db.nextId)) &&
            db.Snapshot() == AddLeave(old(db.Snapshot()), userId, businessId, date, reason))
    ensures OneLeavePerDate(old(db.Snapshot())) ==> OneLeavePerDate(db.Snapshot())
  {
    var t := db.Snapshot();
    var refusal := LeaveRefusal(t, userId, businessId, date);
    if refusal.Some? {
      return Failure(refusal.value);
    }
    if OneLeavePerDate(t) {
      AddLeaveKeepsOnePerDate(t, userId, businessId, date, reason);
    }
    NewLeavePending(t, userId, businessId, date, reason);
    var id := db.nextId;
    db.Store(AddLeave(t, userId, businessId, date, reason));
    return Success(id);
  }

  /** Only "approved" and "rejected" are accepted decisions. */
  function ParseLeaveDecision(s: string): (r: Option<LeaveStatus>)
    ensures r.Some? <==> s == "approved" || s == "rejected"
    ensures r.Some? ==> r.value != LeavePending
  {
    if s == "approved" then Some(Approved)
    else if s == "rejected" then Some(Rejected)
    else None
  }

  /** The guards of `updateLeaveStatus`, in order; the status is checked first. */
  function LeaveStatusRefusal(t: Tables, userId: Id, businessId: Id, leaveId: Id, status: string): Option<Thrown>
  {
    if ParseLeaveDecision(status).None? then Some(ApiError(InvalidLeaveStatus, 400))
    else if businessId !in t.businesses then Some(ApiError(BusinessNotFound, 404))
    else if !Permission.CheckBusinessPermission(t, userId, businessId, StaffRoles) then Some(ApiError(NoLeavePermission, 403))
    else if leaveId !in t.leaves || t.leaves[leaveId].businessId != businessId then Some(ApiError(LeaveNotFound, 404))
    else None
  }

  /** The owner may move a leave of the business to either decision from any current status, including back. */
  lemma AnyLeaveTransition(t: Tables, userId: Id, businessId: Id, leaveId: Id, status: string)
    ensures LeaveStatusRefusal(t, userId, businessId, leaveId, status).None? <==>
      (status == "approved" || status == "rejected") && Permission.IsOwner(t, userId, businessId) &&
      leaveId in t.leaves && t.leaves[leaveId].businessId == businessId
  {
    Permission.OwnerManagerMeansOwnerOnly(t, userId, businessId);
  }

  /** `updateLeaveStatus`. */
  method UpdateLeaveStatus(db: Database, userId: Id, businessId: Id, leaveId: Id, status: string) returns (r: Result<LeaveStatus, Thrown>)
    requires db.Valid()
    modifies db
    ensures db.Valid()
    ensures var refusal := LeaveStatusRefusal(old(db.Snapshot()), userId, businessId, leaveId, status);
      && (refusal.Some? ==> r == Failure(refusal.value) && db.Snapshot() == old(db.Snapshot()))
      && (refusal.None? ==>
            var decided := ParseLeaveDecision(status).value;
            r == Success(decided) &&
            db.Snapshot() == old(db.Snapshot()).(leaves := old(db.leaves)[leaveId := old(db.leaves[leaveId]).(status := decided)]))
  {
    var refusal := LeaveStatusRefusal(db.Snapshot(), userId, businessId, leaveId, status);
    if refusal.Some? {
      return Failure(refusal.value);
    }
    var decided := ParseLeaveDecision(status).value;
    db.leaves := db.leaves[leaveId := db.leaves[leaveId].(status := decided)];
    return Success(decided);
  }
}
