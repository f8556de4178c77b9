/**
 * The rows of the relational store that the controllers read and write,
 * and the store itself as a mutable object whose tables the handlers reassign.
 * Times are minutes after midnight, dates day numbers, money integer cents.
 */
module Tables {

  type Id = nat
  type Minutes = int
  type Day = int

  datatype BookingStatus = Pending | Confirmed | Completed | Cancelled
  datatype PaymentStatus = PaymentPending | Paid | Failed
  datatype LeaveStatus = LeavePending | Approved | Rejected

  /** A booking blocks its staff member only while pending or confirmed. */
  predicate IsActive(s: BookingStatus)
  {
    s == Pending || s == Confirmed
  }

  datatype BusinessRow = BusinessRow(
    ownerId: Id, name: string, description: string, address: string,
    openTime: Minutes, closeTime: Minutes)

  datatype ServiceRow = ServiceRow(
    businessId: Id, categoryId: Id, name: string, description: string,
    price: int, duration: int)

  datatype BookingRow = BookingRow(userId: Id, businessId: Id, date: Day, time: Minutes, status: BookingStatus)

  /** A `booking_services` row: the duration is a snapshot taken when the booking was made. */
  datatype LineItem = LineItem(bookingId: Id, serviceId: Id, duration: int)

  datatype ScheduleRow = ScheduleRow(employeeId: Id, businessId: Id, workDate: Day, startTime: Minutes, endTime: Minutes)

  datatype LeaveRow = LeaveRow(employeeId: Id, businessId: Id, leaveDate: Day, reason: string, status: LeaveStatus)

  datatype PaymentRow = PaymentRow(bookingId: Id, userId: Id, amount: int, status: PaymentStatus)

  datatype InvoiceRow = InvoiceRow(paymentId: Id, invoiceUrl: string)

  datatype ReviewRow = ReviewRow(serviceId: Id, userId: Id, rating: int, comment: string)

  /** The whole store as a value; `nextId` stands for the auto-increment sequences. */
  datatype Tables = Tables(
    users: map<string, Id>,          // e-mail -> user id
    roles: map<Id, string>,          // role id -> role name
    userRoles: set<(Id, Id)>,        // (user, role)
    admins: map<Id, Id>,             // Admin row id -> user id
    businesses: map<Id, BusinessRow>,
    members: map<(Id, Id), Id>,      // (business, user) -> role id
    services: map<Id, ServiceRow>,
    schedules: seq<ScheduleRow>,
    leaves: map<Id, LeaveRow>,
    bookings: map<Id, BookingRow>,
    lineItems: seq<LineItem>,
    staffing: set<(Id, Id)>,         // (booking, staff)
    payments: map<Id, PaymentRow>,
    invoices: seq<InvoiceRow>,
    reviews: seq<ReviewRow>,
    nextId: Id)

  /** Line items point at existing services and at already allocated bookings. */
  predicate LineItemsWellFormed(t: Tables)
  {
    forall i :: 0 <= i < |t.lineItems| ==>
      t.lineItems[i].duration >= 1 && t.lineItems[i].serviceId in t.services && t.lineItems[i].bookingId < t.nextId
  }

  /** The schema's column validators and keys, as invariants of the stored data. */
  predicate WellFormed(t: Tables)
  {
    && (forall id :: id in t.services ==> t.services[id].duration >= 1 && t.services[id].price >= 0)
    && LineItemsWellFormed(t)
    && (forall r1, r2 :: r1 in t.roles && r2 in t.roles && t.roles[r1] == t.roles[r2] ==> r1 == r2)
    && (forall id :: id in t.bookings ==> id < t.nextId)
    && (forall id :: id in t.payments ==> id < t.nextId && t.payments[id].bookingId in t.bookings && t.payments[id].amount >= 0)
    && (forall id :: id in t.leaves ==> id < t.nextId)
    && (forall p :: p in t.staffing ==> p.0 < t.nextId)
    && (forall i :: 0 <= i < |t.reviews| ==> 1 <= t.reviews[i].rating <= 5)
  }

  /** The store the handlers act on: one field per table. */
  class Database {
    var users: map<string, Id>
    var roles: map<Id, string>
    var userRoles: set<(Id, Id)>
    var admins: map<Id, Id>
    var businesses: map<Id, BusinessRow>
    var members: map<(Id, Id), Id>
    var services: map<Id, ServiceRow>
    var schedules: seq<ScheduleRow>
    var leaves: map<Id, LeaveRow>
    var bookings: map<Id, BookingRow>
    var lineItems: seq<LineItem>
    var staffing: set<(Id, Id)>
    var payments: map<Id, PaymentRow>
    var invoices: seq<InvoiceRow>
    var reviews: seq<ReviewRow>
    var nextId: Id

    function Snapshot(): Tables
      reads this
    {
      Tables(users, roles, userRoles, admins, businesses, members, services, schedules, leaves,
             bookings, lineItems, staffing, payments, invoices, reviews, nextId)
    }

    predicate Valid()
      reads this
    {
      WellFormed(Snapshot())
    }

    constructor (t: Tables)
      requires WellFormed(t)
      ensures Valid() && Snapshot() == t
    {
      users, roles, userRoles, admins := t.users, t.roles, t.userRoles, t.admins;
      businesses, members, services, schedules := t.businesses, t.members, t.services, t.schedules;
      leaves, bookings, lineItems, staffing := t.leaves, t.bookings, t.lineItems, t.staffing;
      payments, invoices, reviews, nextId := t.payments, t.invoices, t.reviews, t.nextId;
    }

    /**
     * Write the tables of `t`: every table of the store afterwards is the one
     * in `t`. The writes go in four groups, each with its own small frame proof.
     */
    method Store(t: Tables)
      modifies this
      ensures Snapshot() == t
    {
      StoreAccounts(t);
      StoreCatalogue(t);
      StoreBookings(t);
      StorePayments(t);
    }

    /** Write the account tables of `t`; the other tables are unchanged. */
    method StoreAccounts(t: Tables)
      modifies this
      ensures Snapshot() == old(Snapshot()).(users := t.users, roles := t.roles, userRoles := t.userRoles, admins := t.admins)
    {
      users, roles, userRoles, admins := t.users, t.roles, t.userRoles, t.admins;
    }

    /** Write the business, membership, service and shift tables of `t`; the other tables are unchanged. */
    method StoreCatalogue(t: Tables)
      modifies this
      ensures Snapshot() == old(Snapshot()).(businesses := t.businesses, members := t.members, services := t.services, schedules := t.schedules)
    {
      businesses, members, services, schedules := t.businesses, t.members, t.services, t.schedules;
    }

    /** Write the leave, booking, line-item and staff tables of `t`; the other tables are unchanged. */
    method StoreBookings(t: Tables)
      modifies this
      ensures Snapshot() == old(Snapshot()).(leaves := t.leaves, bookings := t.bookings, lineItems := t.lineItems, staffing := t.staffing)
    {
      leaves, bookings, lineItems, staffing := t.leaves, t.bookings, t.lineItems, t.staffing;
    }

    /** Write the payment, invoice and review tables and the id counter of `t`; the other tables are unchanged. */
    method StorePayments(t: Tables)
      modifies this
      ensures Snapshot() == old(Snapshot()).(payments := t.payments, invoices := t.invoices, reviews := t.reviews, nextId := t.nextId)
    {
      payments, invoices, reviews, nextId := t.payments, t.invoices, t.reviews, t.nextId;
    }
  }
}
