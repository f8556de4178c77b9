/**
 * payment.controller.js: creating the single payment of a booking and
 * processing it into a paid payment with an invoice.
 */
module PaymentController {
  import opened Wrappers
  import opened ErrorHandler
  import opened Tables

  const BookingNotFound := "Booking not found"
  const NotBookingOwner := "You are not authorized to make payment for this booking"
  const PaymentExists := "Payment already exists for this booking"
  const PaymentNotFound := "Payment not found"
  const NotPayer := "You are not authorized to process this payment"
  const AlreadyProcessed := "Payment has already been processed"

  /** Sequelize's default message when the `min: 0` validator on `amount` fails. */
  const AmountInvalid := FieldError("amount", "Validation min on amount failed")

  /** The current prices of the services on a booking's line items, summed. */
  function PriceSum(services: map<Id, ServiceRow>, items: seq<LineItem>, bookingId: Id): int
    requires forall i :: 0 <= i < |items| ==> items[i].serviceId in services
  {
    if items == [] then 0
    else
      var last := items[|items| - 1];
      PriceSum(services, items[..|items| - 1], bookingId) +
        (if last.bookingId == bookingId then services[last.serviceId].price else 0)
  }

  /** No price is negative, so neither is the default amount. */
  lemma {:induction false} PriceSumNonNegative(t: Tables, items: seq<LineItem>, bookingId: Id)
    requires WellFormed(t)
    requires forall i :: 0 <= i < |items| ==> items[i].serviceId in t.services
    ensures PriceSum(t.services, items, bookingId) >= 0
  {
    if items != [] {
      PriceSumNonNegative(t, items[..|items| - 1], bookingId);
    }
  }

  /** The amount written: the given one when truthy (non-zero), else the sum of the booking's prices. */
  function PaymentAmount(t: Tables, bookingId: Id, amount: int): (a: int)
    requires LineItemsWellFormed(t)
  {
    if amount != 0 then amount else PriceSum(t.services, t.lineItems, bookingId)
  }

  /** An omitted amount never makes the insert fail its `min: 0` check. */
  lemma DefaultAmountAccepted(t: Tables, bookingId: Id)
    requires WellFormed(t)
    ensures PaymentAmount(t, bookingId, 0) >= 0
  {
    PriceSumNonNegative(t, t.lineItems, bookingId);
  }

  predicate HasPayment(t: Tables, bookingId: Id)
  {
    exists id :: id in t.payments && t.payments[id].bookingId == bookingId
  }

  /** The property the duplicate check maintains: no booking has two payments. */
  predicate AtMostOnePaymentPerBooking(t: Tables)
  {
    forall p, q :: p in t.payments && q in t.payments && t.payments[p].bookingId == t.payments[q].bookingId ==> p == q
  }

  /** The store after `Payment.create`: a pending payment under the next id. */
  function AddPayment(t: Tables, bookingId: Id, userId: Id, amount: int): Tables
  {
    t.(payments := t.payments[t.nextId := PaymentRow(bookingId, userId, amount, PaymentPending)], nextId := t.nextId + 1)
  }

  /** Inserting only for bookings that have no payment keeps every booking at one payment at most. */
  lemma AddPaymentKeepsUnique(t: Tables, bookingId: Id, userId: Id, amount: int)
    requires WellFormed(t) && AtMostOnePaymentPerBooking(t) && !HasPayment(t, bookingId)
    ensures AtMostOnePaymentPerBooking(AddPayment(t, bookingId, userId, amount))
    ensures HasPayment(AddPayment(t, bookingId, userId, amount), bookingId)
  {
    var u := AddPayment(t, bookingId, userId, amount);
    assert t.nextId !in t.payments;
    assert u.payments[t.nextId].bookingId == bookingId;
  }

  /** An existing booking and a non-negative amount give a well-formed store. */
  lemma AddPaymentWellFormed(t: Tables, bookingId: Id, userId: Id, amount: int)
    requires WellFormed(t) && bookingId in t.bookings && amount >= 0
    ensures WellFormed(AddPayment(t, bookingId, userId, amount))
  {
  }

  /** A new payment is pending, under an id no earlier payment had, and the other payments are untouched. */
  lemma NewPaymentPending(t: Tables, bookingId: Id, userId: Id, amount: int)
    requires WellFormed(t)
    ensures var u := AddPayment(t, bookingId, userId, amount);
      && t.nextId !in t.payments
      && u.payments.Keys == t.payments.Keys + {t.nextId}
      && (forall id :: id in t.payments ==> u.payments[id] == t.payments[id])
      && u.payments[t.nextId].status == PaymentPending
      && u.payments[t.nextId].bookingId == bookingId && u.payments[t.nextId].amount == amount
  {
  }

  /**
   * `createPayment`: only the customer who booked, only once per booking; the
   * amount defaults to the booking's prices and must not be negative.
   */
  method CreatePayment(db: Database, userId: Id, bookingId: Id, amount: int) returns (r: Result<Id, Thrown>)
    requires db.Valid()
    modifies db
    ensures db.Valid()
    ensures var before := old(db.Snapshot());
      && (bookingId !in before.bookings ==> r == Failure(ApiError(BookingNotFound, 404)))
      && (bookingId in before.bookings && before.bookings[bookingId].userId != userId ==> r == Failure(ApiError(NotBookingOwner, 403)))
      && (bookingId in before.bookings && before.bookings[bookingId].userId == userId && HasPayment(before, bookingId) ==>
            r == Failure(ApiError(PaymentExists, 400)))
      && (bookingId in before.bookings && before.bookings[bookingId].userId == userId && !HasPayment(before, bookingId) &&
          PaymentAmount(before, bookingId, amount) < 0 ==>
            r == Failure(SequelizeValidationError([AmountInvalid])))
      && (r.Failure? ==> db.Snapshot() == before)
      && (bookingId in before.bookings && before.bookings[bookingId].userId == userId && !HasPayment(before, bookingId) &&
          PaymentAmount(before, bookingId, amount) >= 0 ==>
            r == Success(before.nextId) && db.Snapshot() == AddPayment(before, bookingId, userId, PaymentAmount(before, bookingId, amount)))
    ensures AtMostOnePaymentPerBooking(old(db.Snapshot())) ==> AtMostOnePaymentPerBooking(db.Snapshot())
  {
    if bookingId !in db.bookings {
      return Failure(ApiError(BookingNotFound, 404));
    }
    if db.bookings[bookingId].userId != userId {
      return Failure(ApiError(NotBookingOwner, 403));
    }
    var t := db.Snapshot();
    if HasPayment(t, bookingId) {
      return Failure(ApiError(PaymentExists, 400));
    }
    var paymentAmount := amount;
    if paymentAmount == 0 {
      paymentAmount := PriceSum(t.services, t.lineItems, bookingId);
    }
    if paymentAmount < 0 {
      return Failure(SequelizeValidationError([AmountInvalid]));
    }
    AddPaymentWellFormed(t, bookingId, userId, paymentAmount);
    if AtMostOnePaymentPerBooking(t) {
      AddPaymentKeepsUnique(t, bookingId, userId, paymentAmount);
    }
    var id := db.nextId;
    db.Store(AddPayment(t, bookingId, userId, paymentAmount));
    return Success(id);
  }

  /** Payment confirms a pending booking and leaves any other status alone. */
  function AfterPayment(s: BookingStatus): BookingStatus
  {
    if s == Pending then Confirmed else s
  }

  /** Payment never frees a staff member nor blocks one that was free. */
  lemma PaymentKeepsActivity(s: BookingStatus)
    ensures IsActive(AfterPayment(s)) == IsActive(s)
  {
  }

  function InvoiceCount(invoices: seq<InvoiceRow>, paymentId: Id): nat
  {
    if invoices == [] then 0
    else InvoiceCount(invoices[..|invoices| - 1], paymentId) + (if invoices[|invoices| - 1].paymentId == paymentId then 1 else 0)
  }

  /** The store after processing: the payment paid, one invoice row, the booking confirmed if it was pending. */
  function Processed(t: Tables, paymentId: Id, invoiceUrl: string): Tables
    requires paymentId in t.payments && t.payments[paymentId].bookingId in t.bookings
  {
    var p := t.payments[paymentId];
    var b := t.bookings[p.bookingId];
    t.(payments := t.payments[paymentId := p.(status := Paid)],
       invoices := t.invoices + [InvoiceRow(paymentId, invoiceUrl)],
       bookings := t.bookings[p.bookingId := b.(status := AfterPayment(b.status))])
  }

  /**
   * Processing leaves the payment paid with exactly one more invoice, confirms a
   * pending booking and touches no other payment's invoices or other booking.
   */
  lemma ProcessedEffects(t: Tables, paymentId: Id, invoiceUrl: string, other: Id)
    requires WellFormed(t) && paymentId in t.payments
    ensures WellFormed(Processed(t, paymentId, invoiceUrl))
    ensures Processed(t, paymentId, invoiceUrl).payments[paymentId].status == Paid
    ensures InvoiceCount(Processed(t, paymentId, invoiceUrl).invoices, paymentId) == InvoiceCount(t.invoices, paymentId) + 1
    ensures other != paymentId ==> InvoiceCount(Processed(t, paymentId, invoiceUrl).invoices, other) == InvoiceCount(t.invoices, other)
    ensures var b := t.payments[paymentId].bookingId;
      Processed(t, paymentId, invoiceUrl).bookings[b].status ==
        (if t.bookings[b].status == Pending then Confirmed else t.bookings[b].status)
    ensures var b := t.payments[paymentId].bookingId;
      Processed(t, paymentId, invoiceUrl).bookings[b].(status := t.bookings[b].status) == t.bookings[b]
    ensures forall id :: id in t.bookings && id != t.payments[paymentId].bookingId ==>
      Processed(t, paymentId, invoiceUrl).bookings[id] == t.bookings[id]
  {
    var u := Processed(t, paymentId, invoiceUrl);
    assert u.invoices[..|u.invoices| - 1] == t.invoices;
  }

  /**
   * `processPayment`: only the payer, and only a payment not yet paid (a failed
   * one may be processed again). A failed invoice e-mail (`mailFailure`) fails
   * the request after the rows are written.
   */
  method ProcessPayment(db: Database, userId: Id, paymentId: Id, invoiceUrl: string, mailFailure: Option<string>)
    returns (r: Result<InvoiceRow, Thrown>)
    requires db.Valid()
    modifies db
    ensures db.Valid()
    ensures paymentId !in old(db.payments) ==>
      r == Failure(ApiError(PaymentNotFound, 404)) && db.Snapshot() == old(db.Snapshot())
    ensures paymentId in old(db.payments) && old(db.payments[paymentId].userId) != userId ==>
      r == Failure(ApiError(NotPayer, 403)) && db.Snapshot() == old(db.Snapshot())
    ensures paymentId in old(db.payments) && old(db.payments[paymentId].userId) == userId && old(db.payments[paymentId].status) == Paid ==>
      r == Failure(ApiError(AlreadyProcessed, 400)) && db.Snapshot() == old(db.Snapshot())
    ensures paymentId in old(db.payments) && old(db.payments[paymentId].userId) == userId && old(db.payments[paymentId].status) != Paid ==>
      db.Snapshot() == Processed(old(db.Snapshot()), paymentId, invoiceUrl) &&
      r == if mailFailure.None? then Success(InvoiceRow(paymentId, invoiceUrl)) else Failure(ExternalError(mailFailure.value))
  {
    if paymentId !in db.payments {
      return Failure(ApiError(PaymentNotFound, 404));
    }
    var payment := db.payments[paymentId];
    if payment.userId != userId {
      return Failure(ApiError(NotPayer, 403));
    }
    if payment.status == Paid {
      return Failure(ApiError(AlreadyProcessed, 400));
    }
    var t := db.Snapshot();
    ProcessedEffects(t, paymentId, invoiceUrl, paymentId);
    db.payments := db.payments[paymentId := payment.(status := Paid)];
    var invoice := InvoiceRow(paymentId, invoiceUrl);
    db.invoices := db.invoices + [invoice];
    var booking := db.bookings[payment.bookingId];
    if booking.status == Pending {
      db.bookings := db.bookings[payment.bookingId := booking.(status := Confirmed)];
    }
    assert db.Snapshot() == Processed(t, paymentId, invoiceUrl);
    if mailFailure.Some? {
      return Failure(ExternalError(mailFailure.value));
    }
    return Success(invoice);
  }
}
