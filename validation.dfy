/**
 * The express-validator chains of booking.validation.js and
 * business.validation.js, followed by the shared `validate` step that turns
 * any collected error into `new ApiError("Validation error", 400, ...)`.
 */
module Validation {
  import opened Wrappers
  import opened ErrorHandler
  import opened TimeFormat

  /** What `isInt()` sees in one body field: nothing (undefined), an integer, or anything else. */
  datatype Scalar = Missing | Integer(n: int) | NotInteger

  /** `services` in the body: not an array, or an array whose items carry these `service_id`s. */
  datatype ServicesField = NotArray | Items(serviceIds: seq<Scalar>)

  datatype CreateBookingBody = CreateBookingBody(
    businessId: Scalar,
    bookingDateIsDate: bool,  // the outcome of `isDate()`, whose calendar rules are not modelled
    bookingTime: string,      // an absent field reads as ""
    services: ServicesField,
    staffId: Scalar)

  /** One failed check: the field path and the validator's message. */
  datatype Failed = Failed(field: string, message: string)

  const TimeMessage := "Booking time must be in HH:MM format"

  /** The failures of `validateCreateBooking`, in chain order. */
  function BookingFailures(b: CreateBookingBody): seq<Failed>
  {
    (if b.businessId.Integer? then [] else [Failed("business_id", "Business ID must be an integer")]) +
    (if b.bookingDateIsDate then [] else [Failed("booking_date", "Booking date must be a valid date")]) +
    (if MatchesTime(b.bookingTime) then [] else [Failed("booking_time", TimeMessage)]) +
    (if b.services.Items? && |b.services.serviceIds| >= 1 then []
     else [Failed("services", "At least one service must be selected")]) +
    ItemFailures(if b.services.Items? then b.services.serviceIds else []) +
    (if b.staffId.NotInteger? then [Failed("staff_id", "Staff ID must be an integer")] else [])
  }

  /** `services.*.service_id` checked on every item of the array. */
  function ItemFailures(ids: seq<Scalar>): (r: seq<Failed>)
    ensures r == [] <==> forall i :: 0 <= i < |ids| ==> ids[i].Integer?
  {
    if ids == [] then []
    else
      (if ids[0].Integer? then [] else [Failed("services.*.service_id", "Service ID must be an integer")]) +
      ItemFailures(ids[1..])
  }

  /** `validate`: the collected errors are passed as a third constructor argument, which `ApiError` ignores. */
  function Validate(failures: seq<Failed>): (r: Result<(), Thrown>)
    ensures r.Success? <==> failures == []
    ensures r.Failure? ==> r.error == ApiError(ValidationMessage, 400) && r.error.errors == []
  {
    if failures == [] then Success(()) else Failure(ApiError(ValidationMessage, 400))
  }

  function ValidateCreateBooking(b: CreateBookingBody): (r: Result<(), Thrown>)
    ensures r.Success? <==>
      b.businessId.Integer? && b.bookingDateIsDate && IsTimeOfDay(b.bookingTime) &&
      b.services.Items? && |b.services.serviceIds| >= 1 &&
      (forall i :: 0 <= i < |b.services.serviceIds| ==> b.services.serviceIds[i].Integer?) &&
      !b.staffId.NotInteger?
  {
    MatchesTimeIsTimeOfDay(b.bookingTime);
    Validate(BookingFailures(b))
  }

  /** A business body: None is an absent field (undefined); `optional()` skips only those. */
  datatype BusinessBody = BusinessBody(
    name: Option<string>,
    address: Option<string>,
    openTime: Option<string>,
    closeTime: Option<string>)

  /** `notEmpty()`: an absent field reads as the empty string. */
  predicate NotEmpty(v: Option<string>)
  {
    v.Some? && v.value != ""
  }

  /** `notEmpty().matches(pattern)` on a required time field; both checks report. */
  function RequiredTime(field: string, v: Option<string>, required: string, format: string): seq<Failed>
  {
    (if NotEmpty(v) then [] else [Failed(field, required)]) +
    (if v.Some? && MatchesTime(v.value) then [] else [Failed(field, format)])
  }

  /** `optional().matches(pattern)`. */
  function OptionalTime(field: string, v: Option<string>, format: string): seq<Failed>
  {
    if v.None? || MatchesTime(v.value) then [] else [Failed(field, format)]
  }

  function CreateBusinessFailures(b: BusinessBody): seq<Failed>
  {
    (if NotEmpty(b.name) then [] else [Failed("name", "Business name is required")]) +
    (if NotEmpty(b.address) then [] else [Failed("address", "Business address is required")]) +
    RequiredTime("open_time", b.openTime, "Opening time is required", "Opening time must be in HH:MM format") +
    RequiredTime("close_time", b.closeTime, "Closing time is required", "Closing time must be in HH:MM format")
  }

  function UpdateBusinessFailures(b: BusinessBody): seq<Failed>
  {
    (if b.name.None? || b.name.value != "" then [] else [Failed("name", "Business name cannot be empty")]) +
    (if b.address.None? || b.address.value != "" then [] else [Failed("address", "Business address cannot be empty")]) +
    OptionalTime("open_time", b.openTime, "Opening time must be in HH:MM format") +
    OptionalTime("close_time", b.closeTime, "Closing time must be in HH:MM format")
  }

  /** `validateCreateBusiness`: name, address and both times are required; the times must be times of day. */
  function ValidateCreateBusiness(b: BusinessBody): (r: Result<(), Thrown>)
    ensures r.Success? <==>
      NotEmpty(b.name) && NotEmpty(b.address) &&
      b.openTime.Some? && IsTimeOfDay(b.openTime.value) &&
      b.closeTime.Some? && IsTimeOfDay(b.closeTime.value)
  {
    TimeFieldMeaning(b.openTime);
    TimeFieldMeaning(b.closeTime);
    Validate(CreateBusinessFailures(b))
  }

  /** `validateUpdateBusiness`: every field is optional, but a present one must be well formed. */
  function ValidateUpdateBusiness(b: BusinessBody): (r: Result<(), Thrown>)
    ensures r.Success? <==>
      (b.name.Some? ==> b.name.value != "") && (b.address.Some? ==> b.address.value != "") &&
      (b.openTime.Some? ==> IsTimeOfDay(b.openTime.value)) &&
      (b.closeTime.Some? ==> IsTimeOfDay(b.closeTime.value))
  {
    TimeFieldMeaning(b.openTime);
    TimeFieldMeaning(b.closeTime);
    Validate(UpdateBusinessFailures(b))
  }

  lemma TimeFieldMeaning(v: Option<string>)
    ensures v.Some? ==> (MatchesTime(v.value) <==> IsTimeOfDay(v.value))
  {
    if v.Some? { MatchesTimeIsTimeOfDay(v.value); }
  }

  /** A body that creates a business is also a valid update body. */
  lemma CreateImpliesUpdate(b: BusinessBody)
    requires ValidateCreateBusiness(b).Success?
    ensures ValidateUpdateBusiness(b).Success?
  {
  }

  /** Nothing relates the two times: a business may open after it closes. */
  lemma OpenAfterCloseAccepted()
    ensures ValidateCreateBusiness(BusinessBody(Some("Salon"), Some("1 Main St"), Some("18:00"), Some("09:00"))).Success?
  {
    assert MatchesTime("18:00") && MatchesTime("09:00");
  }

  /** A missing required time is reported twice, once by each validator of its chain. */
  lemma MissingTimeReportedTwice()
    ensures |RequiredTime("open_time", None, "Opening time is required", "Opening time must be in HH:MM format")| == 2
  {
  }
}
