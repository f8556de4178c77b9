# Harmony booking backend — a verified model

Harmony is a booking backend for service businesses such as salons and spas,
written with Express and Sequelize. Customers book one or more of a business's
services at a date and time, optionally with a named staff member. Owners
manage their business, its employees, their weekly shifts and leave requests.
Customers pay for bookings and review the services they used.

This project models the decision logic of that backend in Dafny and proves
properties about it. The model has one module per source file:

- `Tables` (tables.dfy): the database. One row datatype per table and a
  `Tables` value holding every table. The `Database` class holds the same
  tables as fields that the controllers update in place. `WellFormed` states
  the column validators the schema declares, e.g. service duration ≥ 1,
  price ≥ 0 and rating 1..5.
- `BookingController` (booking.dfy): the admission check of `createBooking`,
  with its duration loop and conflict scan written as methods. Also the rows
  it writes, plus status updates, cancellation and staff assignment.
- `PaymentController` (payment.dfy): payment creation and processing.
- `BusinessController` (business.dfy): business updates and employee
  management, plus the schedule upsert loop and leave requests.
- `ServiceController` (service.dfy): catalogue filter and sort, service
  updates, reviews and its local permission check.
- `Permission`, `Auth`, `ErrorHandler`, `Query`, `Pagination`, `Upload`,
  `Validation`, `TimeFormat`: the helpers, middleware and request validators.
- `Wrappers`: `Option` and `Result`.

Conventions:
- Times are minutes after midnight; dates are day numbers; money is integer cents.
- Identifiers are naturals, and one `nextId` counter stands for the
  auto-increment sequences. A falsy id (absent, null or 0) is `0`.
- A handler that fails returns `Failure(e)`, where `e` is the error the
  controller passes to the error middleware.
- An e-mail failure is the parameter `mailFailure`. When it is present, the
  request fails after its rows are written, as the awaited send in the source
  does.

Some behaviour of the source is kept as written:
- `checkBusinessPermission` with the list `["owner", "manager"]` admits owners
  only. Every guard in business.controller.js that passes that list is
  therefore owner-only (`Permission.OwnerManagerMeansOwnerOnly`).
- The conflict scan ignores the business and never consults leave.
- An existing booking's length is taken from the current service durations,
  not from the durations copied into its line items.

## Model

| member | source | states |
|---|---|---|
| `BookingController.ServiceSelection` | server/src/controllers/booking.controller.js:41-51 | The lookup finds as many services as ids were sent exactly when the ids are distinct and each one is a service of this business. So unknown, foreign and duplicated ids are all refused. |
| `BookingController.SumDurationsAtLeastCount` | server/src/controllers/booking.controller.js:53-58 | The total duration has one term per requested entry, each at least 1, so it is at least the number of entries. |
| `BookingController.SnapshotsIgnored` | server/src/controllers/booking.controller.js:137-146 | An existing booking's length does not depend on the durations stored in its line items, only on which services they name. |
| `BookingController.OverlapIsHalfOpen` | server/src/controllers/booking.controller.js:149-153 | With positive lengths, the three-clause conflict test holds exactly when the intervals overlap half-open: `start < bEnd && bStart < end`. |
| `BookingController.OverlapSymmetric` | server/src/controllers/booking.controller.js:149-153 | With positive lengths, swapping the new and the existing booking does not change the conflict test. |
| `BookingController.BackToBackAccepted` | server/src/controllers/booking.controller.js:149-153 | A booking that starts when the other ends, or ends when it starts, is no conflict. |
| `BookingController.FindShift` | server/src/controllers/booking.controller.js:91-101 | Returns a schedule row of that employee, business and date when one exists, and None only when no row matches. |
| `BookingController.AdmittedRequest` | server/src/controllers/booking.controller.js:24-72 | An admitted request names an existing business and a non-empty list of distinct services of that business. Its start lies inside opening hours, inclusive at both ends. The admitted total is the sum of the durations and at least the number of services. |
| `BookingController.AdmittedStaffIsFree` | server/src/controllers/booking.controller.js:74-156 | With a staff member, admission implies membership of the business, a shift that date containing the start, and half-open disjointness from every active booking of that staff member that date, in any business. |
| `BookingController.NoStaffNoStaffChecks` | server/src/controllers/booking.controller.js:74-75 | Without a staff member the outcome depends only on the business and service tables. |
| `BookingController.LeavesNeverConsulted` | server/src/controllers/booking.controller.js:24-203 | The leave table has no influence on admission. |
| `BookingController.StartAtClosingAccepted` | server/src/controllers/booking.controller.js:60-72 | A staff-less request that starts exactly at closing time is admitted, although it ends after closing: only the start is checked. |
| `BookingController.InactiveNeverBlocks` | server/src/controllers/booking.controller.js:114-128 | A completed or cancelled booking is never a conflict candidate. |
| `BookingController.BookingDuration` | server/src/controllers/booking.controller.js:137-146 | The accumulation loop returns the sum of the current service durations over the booking's line items. |
| `BookingController.FindConflict` | server/src/controllers/booking.controller.js:110-156 | The scan with early exit reports a conflict exactly when some active booking of that staff member on that date overlaps by the three-clause test. |
| `BookingController.Admission` | server/src/controllers/booking.controller.js:24-157 | The checks of `createBooking` in source order as one function: the reference that `CheckAdmission` is proved equal to. Its meaning is stated by `AdmittedRequest`, `AdmittedStaffIsFree`, `NoStaffNoStaffChecks` and `LeavesNeverConsulted`. |
| `BookingController.CheckAdmission` | server/src/controllers/booking.controller.js:24-157 | The imperative check (duration loop, then the conflict scan) returns exactly the admission outcome: the first failing check's error, or the total duration. |
| `BookingController.NewLineItems` | server/src/controllers/booking.controller.js:168-175 | One line item per requested entry, in order, each carrying the new booking's id and that service's duration. |
| `BookingController.NewItemsLiveDuration` | server/src/controllers/booking.controller.js:168-175 | The new booking's line items add up to the admitted total. |
| `BookingController.PersistedWellFormed` | server/src/controllers/booking.controller.js:159-183 | Writing an admitted booking keeps the tables well formed. |
| `BookingController.PersistedBooking` | server/src/controllers/booking.controller.js:159-183 | The new booking gets a fresh id and status pending. It has a staff row exactly when a staff member was given, and its length equals the admitted total. |
| `BookingController.NoDoubleBooking` | server/src/controllers/booking.controller.js:114-183 | After an admitted request with a staff member is written, the same request is refused with the conflict error. |
| `BookingController.CreateBooking` | server/src/controllers/booking.controller.js:24-203 | A refused request changes nothing and returns the admission error. An admitted one writes exactly the persisted rows and returns the new id, or the mail error after writing. |
| `BookingController.ParseStatus` | server/src/controllers/booking.controller.js:340-343 | A status string is accepted exactly when it is one of pending, confirmed, completed and cancelled. |
| `BookingController.StatusNameRoundTrip` | server/src/models/booking.model.js:34-41 | Every status parses back from its column value. |
| `BookingController.SetStatusKeepsWellFormed` | server/src/controllers/booking.controller.js:365-366 | Overwriting a booking's status keeps the tables well formed. |
| `BookingController.UpdateBookingStatus` | server/src/controllers/booking.controller.js:334-391 | Its outcomes, in order: an invalid status gives 400; a missing booking gives 404; a non-owner gets 403. Otherwise any listed status is set from any current status. Only a confirmation sends mail. |
| `BookingController.CancelBooking` | server/src/controllers/booking.controller.js:394-436 | Only the customer may cancel (403), and only a pending or confirmed booking (400 naming its status). A cancelled booking no longer blocks any staff member. |
| `BookingController.AssignStaffToBooking` | server/src/controllers/booking.controller.js:513-561 | The owner may assign a member of the business; the booking's earlier staff rows are replaced, so exactly that staff member remains. |
| `PaymentController.PriceSumNonNegative` | server/src/controllers/payment.controller.js:57-59 | The sum of a booking's service prices is never negative. |
| `PaymentController.PaymentAmount` | server/src/controllers/payment.controller.js:56-60 | A truthy amount is kept; otherwise the amount is the sum of the booking's line-item prices. `PriceSumNonNegative` and `DefaultAmountAccepted` state that this default is never negative. |
| `PaymentController.DefaultAmountAccepted` | server/src/controllers/payment.controller.js:53-60 | A falsy amount (0) is replaced by the price sum, which always passes the amount validator. |
| `PaymentController.AddPaymentKeepsUnique` | server/src/controllers/payment.controller.js:44-68 | Creating a payment only for a booking without one keeps at most one payment per booking. |
| `PaymentController.AddPaymentWellFormed` | server/src/controllers/payment.controller.js:62-68 | Inserting a payment for an existing booking with a non-negative amount keeps the tables well formed. |
| `PaymentController.NewPaymentPending` | server/src/controllers/payment.controller.js:62-68 | The created payment is pending, has a fresh id, carries the booking and amount, and leaves the other payments unchanged. |
| `PaymentController.CreatePayment` | server/src/controllers/payment.controller.js:12-77 | Its outcomes, in order: a missing booking gives 404; another customer gets 403; an existing payment gives 400; a negative amount gives the validator error. Every refusal leaves the store unchanged. Otherwise a pending payment is inserted, and at most one payment per booking is preserved. |
| `PaymentController.PaymentKeepsActivity` | server/src/controllers/payment.controller.js:130-134 | Paying never changes whether a booking is active, so it never frees or blocks a staff member. |
| `PaymentController.ProcessedEffects` | server/src/controllers/payment.controller.js:117-134 | Processing marks the payment paid and adds exactly one invoice for it, and none for any other payment. A pending booking becomes confirmed; a booking in any other status is unchanged, and so is every other booking. |
| `PaymentController.ProcessPayment` | server/src/controllers/payment.controller.js:80-152 | A missing payment gives 404, another user 403, a paid payment 400, each with no change. A pending or failed payment is processed as above; a mail failure is reported after the writes. |
| `BusinessController.ApplyBusinessPatch` | server/src/controllers/business.controller.js:152-162 | Each truthy field of the body overwrites its column. `PatchLaws` states its laws. |
| `BusinessController.PatchLaws` | server/src/controllers/business.controller.js:152-162 | A partial update never changes the owner. An all-falsy patch is the identity, applying a patch twice equals applying it once, and two patches in a row equal their merge. |
| `BusinessController.UpdateBusiness` | server/src/controllers/business.controller.js:138-173 | A missing business gives 404 and a non-owner 403, with no change. The owner's patch changes only that business row. |
| `BusinessController.AddEmployeeGuards` | server/src/controllers/business.controller.js:262-306 | An addition passes only for the owner, a known user e-mail, a known role and a user not yet a member. An existing membership is refused with 400. |
| `BusinessController.AddEmployee` | server/src/controllers/business.controller.js:262-324 | A refused addition changes nothing; a granted one adds exactly the membership with the given role. |
| `BusinessController.UpdateRoleGuards` | server/src/controllers/business.controller.js:327-363 | A role change passes exactly for the owner, an existing role and an existing membership. |
| `BusinessController.UpdateEmployeeRole` | server/src/controllers/business.controller.js:327-379 | A refused change leaves the store as it was; a granted one changes only that membership's role. |
| `BusinessController.OwnerNeverRemoved` | server/src/controllers/business.controller.js:413-416 | Removing the business owner is always refused; past the permission and membership checks, with 400. |
| `BusinessController.RemoveEmployee` | server/src/controllers/business.controller.js:382-428 | A refused removal changes nothing; a granted one deletes exactly that membership. |
| `BusinessController.ViewerIsOwnerOrSelf` | server/src/controllers/business.controller.js:444-451 | A schedule is visible exactly to the business owner and to the employee themself. |
| `BusinessController.DateFiltersAgree` | server/src/controllers/business.controller.js:459-487 | The inline work-date if-chain and the leave-date spreads build the same condition as the shared date-range builder. |
| `BusinessController.Upsert` | server/src/controllers/business.controller.js:551-576 | The find-then-update-or-create of one schedule entry. `UpsertShape`, `UpsertLookup` and `UpsertKeepsKeysUnique` state its meaning. |
| `BusinessController.UpsertShape` | server/src/controllers/business.controller.js:551-576 | A new date appends a row; an existing row for that employee, business and date has only its start and end times overwritten. |
| `BusinessController.UpsertLookup` | server/src/controllers/business.controller.js:551-576 | After an upsert the shift lookup returns the written row for its key, and what it returned before for every other key. |
| `BusinessController.UpsertKeepsKeysUnique` | server/src/controllers/business.controller.js:551-576 | The upsert keeps at most one schedule row per employee, business and date. |
| `BusinessController.BatchSaved` | server/src/controllers/business.controller.js:541-577 | The batch aborts exactly when some entry lacks a field. The returned list holds one row per processed entry, in input order, and one per input entry when nothing aborted. |
| `BusinessController.BatchKeepsKeysUnique` | server/src/controllers/business.controller.js:541-577 | After the loop there is still at most one schedule row per employee, business and date. |
| `BusinessController.NoRollback` | server/src/controllers/business.controller.js:543-549 | When entry k is incomplete, the rows written by the entries before it stay saved. |
| `BusinessController.LastEntryFor` | server/src/controllers/business.controller.js:551-576 | The entry found for a date is one of the batch's entries for that date. |
| `BusinessController.LastEntryWins` | server/src/controllers/business.controller.js:551-576 | After a complete batch, the shift for a date is the row of the batch's last entry for that date. Other employees, businesses and dates keep their shifts. |
| `BusinessController.EmptyBatchRefused` | server/src/controllers/business.controller.js:535-538 | A missing, non-array or empty schedules body is refused with 400. |
| `BusinessController.SetEmployeeSchedule` | server/src/controllers/business.controller.js:503-590 | The imperative loop leaves the schedule table as the batch semantics say. It returns the saved rows, or 400 after keeping the partial writes. |
| `BusinessController.AddLeaveKeepsOnePerDate` | server/src/controllers/business.controller.js:619-639 | A granted request keeps the tables well formed and one leave per employee, business and date, and the date then has a leave. |
| `BusinessController.NewLeavePending` | server/src/controllers/business.controller.js:633-639 | A new leave is pending, carries the employee, business, date and reason, has a fresh id, and leaves the other leaves unchanged. |
| `BusinessController.RequestLeave` | server/src/controllers/business.controller.js:593-648 | Requests are refused for non-members and for a date that already has a leave of any status. Otherwise the pending leave is added, and one leave per date is preserved. |
| `BusinessController.ParseLeaveDecision` | server/src/controllers/business.controller.js:658-661 | Only "approved" and "rejected" are accepted, and neither is pending. |
| `BusinessController.AnyLeaveTransition` | server/src/controllers/business.controller.js:651-690 | A decision passes exactly for a valid status, the owner, and a leave of that business, whatever the leave's current status. |
| `BusinessController.UpdateLeaveStatus` | server/src/controllers/business.controller.js:651-699 | A refused decision changes nothing; a granted one sets only that leave's status. |
| `ServiceController.CatalogueWhere` | server/src/controllers/service.controller.js:29-54 | The where object of the catalogue listing. `CatalogueWhereMeaning` states which rows it admits. |
| `ServiceController.CatalogueWhereMeaning` | server/src/controllers/service.controller.js:29-54 | The price condition admits exactly prices within the given bounds, inclusive, and is absent without bounds. The category is kept. Search adds the name/description OR without touching the other conditions. |
| `ServiceController.ChooseSort` | server/src/controllers/service.controller.js:57-81 | The sort switch with its default. `SortChoices` states how the choices relate. |
| `ServiceController.SortChoices` | server/src/controllers/service.controller.js:57-81 | The four named sorts differ from the default (id descending). The two price sorts use one key in opposite directions, and rating sorts descending. |
| `ServiceController.ManagesService` | server/src/controllers/service.controller.js:518-549 | The local permission check. `ManagesIsHelperWithManager` proves it equal to the shared helper called with `["manager"]`. |
| `ServiceController.ManagesIsHelperWithManager` | server/src/controllers/service.controller.js:518-549 | The local check admits the owner, or a member holding the "manager" role. It agrees with the shared helper called with `["manager"]`. |
| `ServiceController.ServiceViolations` | server/src/models/service.model.js:36-49 | A service row passes the column validators exactly when price ≥ 0 and duration ≥ 1. |
| `ServiceController.ApplyServicePatch` | server/src/controllers/service.controller.js:264-269 | Each truthy field of the body overwrites its column. `ServicePatchLaws` states its laws. |
| `ServiceController.ServicePatchLaws` | server/src/controllers/service.controller.js:264-271 | A partial update never moves a service to another business. An all-falsy patch is the identity and patches are idempotent. The result is valid exactly when the patch's price and duration are non-negative. |
| `ServiceController.UpdateService` | server/src/controllers/service.controller.js:247-280 | A missing service gives 404 and a non-manager 403. A patch the validators refuse changes nothing; otherwise only that service row changes. |
| `ServiceController.RatingViolations` | server/src/models/serviceReview.model.js:26-33 | A rating passes exactly when present and between 1 and 5. |
| `ServiceController.StoredReview` | server/src/controllers/service.controller.js:415-446 | A stored review comes from a user with a completed booking containing the service and has a rating 1..5. One review per user and service is preserved. |
| `ServiceController.AddServiceReview` | server/src/controllers/service.controller.js:403-463 | A refused review changes nothing; a granted one inserts exactly that review. |
| `Permission.CheckBusinessPermission` | server/src/helpers/permission.helper.js:11-47 | The owner is admitted whatever the list. A non-owner is refused for an empty list or one naming "owner". Otherwise a non-owner is admitted exactly when their membership role is listed. |
| `Permission.OwnerManagerMeansOwnerOnly` | server/src/helpers/permission.helper.js:25-27 | With `["owner", "manager"]` exactly owners are admitted. |
| `Permission.MoreRolesNeverRevoke` | server/src/helpers/permission.helper.js:30-46 | Adding a role other than "owner" to a non-empty list never revokes access. |
| `Permission.CheckAdminRole` | server/src/helpers/permission.helper.js:54-60 | True exactly when some Admin row carries the user's id. |
| `Permission.CheckUserRole` | server/src/helpers/permission.helper.js:68-84 | True exactly when the user holds some role whose name is listed. |
| `Permission.SingleNameIsList` | server/src/helpers/permission.helper.js:68-69 | A single role name behaves as the one-element list. |
| `Auth.Split` | server/src/middlewares/auth.middleware.js:13 | Splitting yields at least one piece. |
| `Auth.SplitJoin` | server/src/middlewares/auth.middleware.js:13 | Joining the split pieces gives back the header, and no piece holds the separator. |
| `Auth.ExtractBearerToken` | server/src/middlewares/auth.middleware.js:7-17 | A missing header, a header not starting with "Bearer ", or an empty second piece gives 401. Otherwise the token is the non-empty, space-free text after the prefix, up to the next space. |
| `Auth.TokenIsFirstPiece` | server/src/middlewares/auth.middleware.js:13 | The first piece of a split is the longest space-free prefix, and it is empty exactly when the text is empty or starts with a space. |
| `Auth.Authorize` | server/src/middlewares/auth.middleware.js:42-58 | No user gives 401. The scan over the allowed roles admits a user exactly when some allowed role is among their roles, and a refusal is 403. |
| `Auth.SomeRoleHeld` | server/src/middlewares/auth.middleware.js:48-50 | The `some`/`includes` scan is true exactly when the two lists share a role name. |
| `Auth.AuthorizeIgnoresOrder` | server/src/middlewares/auth.middleware.js:48-50 | Order and repetition in either list do not matter. |
| `Auth.AuthorizeEmptyAllowed` | server/src/middlewares/auth.middleware.js:50-54 | An empty allowed list refuses every user with 403. |
| `ErrorHandler.NewApiError` | server/src/middlewares/errorHandler.middleware.js:70-76 | The constructor keeps the message, defaults the status to 500 only when none is given, and always marks the error as an ApiError. |
| `ErrorHandler.Handle` | server/src/middlewares/errorHandler.middleware.js:24-67 | The middleware's dispatch in source order. `ValidationFirst`, `JwtErrors`, `StatusClasses`, `ApiErrorRoundTrip`, `ApiErrorDefaultStatus` and `GenericErrorMessage` state what it answers. |
| `ErrorHandler.ValidationFirst` | server/src/middlewares/errorHandler.middleware.js:28-37 | A Sequelize validation error answers 400 with its own field errors, before any other class. |
| `ErrorHandler.JwtErrors` | server/src/middlewares/errorHandler.middleware.js:40-52 | An invalid token and an expired token each answer 401 with their own message. |
| `ErrorHandler.StatusClasses` | server/src/middlewares/errorHandler.middleware.js:24-67 | The status is 400, 401, 500 or an ApiError's own non-zero status. |
| `ErrorHandler.ApiErrorRoundTrip` | server/src/middlewares/errorHandler.middleware.js:55-60 | An ApiError with a non-zero status answers with that status and its message. |
| `ErrorHandler.ApiErrorDefaultStatus` | server/src/middlewares/errorHandler.middleware.js:55-76 | An ApiError built without a status, or with 0, answers 500 with its message. |
| `ErrorHandler.GenericErrorMessage` | server/src/middlewares/errorHandler.middleware.js:63-66 | Any other error answers 500. Its message is hidden in production and passed through otherwise. |
| `Query.ContainsPattern` | server/src/helpers/query.helper.js:15 | The pattern is the search text between two `%` wildcards. |
| `Query.BuildSearchQuery` | server/src/helpers/query.helper.js:9-21 | An empty search or field list gives `{}`. Otherwise the OR holds one contains-LIKE per field, in field order. |
| `Query.BuildDateRangeQuery` | server/src/helpers/query.helper.js:30-56 | No field or no date gives `{}`. Otherwise the clause constrains only that field: between, at least or at most. |
| `Query.DateRangeMeaning` | server/src/helpers/query.helper.js:35-53 | The built range admits a date exactly when it is no earlier than the start and no later than the end that were given. |
| `Query.BuildStatusQuery` | server/src/helpers/query.helper.js:64-80 | Without a field the where object is empty. Otherwise only that column is constrained, and a row passes exactly when no status (or the empty string) was given, its status equals the one given, or it is in the array given. |
| `Query.EmptyStatusArrayAdmitsNothing` | server/src/helpers/query.helper.js:65-75 | An empty array is truthy, so it is not treated as "no status": its IN filter passes no row. |
| `Pagination.CeilDiv` | server/src/helpers/pagination.helper.js:9 | The result is the ceiling of the quotient, for either sign of the divisor. |
| `Pagination.CreatePaginationMeta` | server/src/helpers/pagination.helper.js:8-17 | The metadata echoes count, page and limit; the page count is defined exactly when the limit is non-zero. |
| `Pagination.CalculateOffset` | server/src/helpers/pagination.helper.js:25-27 | The rows skipped before a page. `FirstPageOffset` and `ConsecutivePages` state that pages start at row 0 and follow one another without gaps or overlap. |
| `Pagination.FirstPageOffset` | server/src/helpers/pagination.helper.js:25-27 | Page 1 has offset 0. |
| `Pagination.ConsecutivePages` | server/src/helpers/pagination.helper.js:25-27 | Page p + 1 starts where page p ends. |
| `Pagination.TotalPagesBounds` | server/src/helpers/pagination.helper.js:8-9 | With a positive limit the pages cover every row, and the last page is not empty. No rows means no pages. |
| `Upload.ExtensionTestIsRegex` | server/src/middlewares/upload.middleware.js:10 | The suffix test accepts exactly the names the regular expression matches. |
| `Upload.FileFilter` | server/src/middlewares/upload.middleware.js:8-14 | A name is accepted exactly when the extension pattern matches its end; otherwise the filter answers 400. |
| `Upload.UpperCaseRefused` | server/src/middlewares/upload.middleware.js:10 | "photo.JPG" is refused: the match is case-sensitive. |
| `Upload.SuffixOnly` | server/src/middlewares/upload.middleware.js:10 | ".png" and "archive.tar.gif" are accepted: only the suffix matters. |
| `TimeFormat.HourOf` | server/src/validations/booking.validation.js:9 | An accepted time's hour is 0..23, and below 10 when written with one digit. |
| `TimeFormat.MinuteOf` | server/src/validations/booking.validation.js:9 | An accepted time's minute is 0..59. |
| `TimeFormat.ToMinutes` | server/src/validations/booking.validation.js:9 | An accepted time lies within one day. |
| `TimeFormat.ReadBack` | server/src/validations/booking.validation.js:9 | An accepted text is the padded or one-digit rendering of its own hour and minute. |
| `TimeFormat.RenderRoundTrip` | server/src/validations/booking.validation.js:9 | Rendering any time of day, padded or with a one-digit hour, is accepted and reads back to the same hour and minute. |
| `TimeFormat.MatchesTimeIsTimeOfDay` | server/src/validations/booking.validation.js:8-10 | The pattern accepts exactly `H:MM` or `HH:MM` with hour 0..23 and minute 00..59. |
| `TimeFormat.RejectedExamples` | server/src/validations/booking.validation.js:9 | "24:00", "12:60", "12:5", "09:30:00" and "" are refused; "9:30", "00:00" and "23:59" are accepted. |
| `Validation.ItemFailures` | server/src/validations/booking.validation.js:12 | No item failure is reported exactly when every service id is an integer. |
| `Validation.Validate` | server/src/helpers/validation.helper.js:10-21 | Validation passes exactly when no check failed. A failure is a 400 ApiError with an empty error list, because the constructor drops its third argument. |
| `Validation.ValidateCreateBooking` | server/src/validations/booking.validation.js:5-15 | A booking body passes exactly when the business id is an integer, the date valid and the time a time of day. Services must be a non-empty array of integer ids, and a staff id, when present, an integer. |
| `Validation.ValidateCreateBusiness` | server/src/validations/business.validation.js:5-20 | A new business needs a non-empty name and address and two times of day. |
| `Validation.ValidateUpdateBusiness` | server/src/validations/business.validation.js:23-36 | On update every field is optional, but a present name or address is non-empty and a present time is a time of day. |
| `Validation.CreateImpliesUpdate` | server/src/validations/business.validation.js:5-36 | Every valid creation body is a valid update body. |
| `Validation.OpenAfterCloseAccepted` | server/src/validations/business.validation.js:8-17 | A business opening at 18:00 and closing at 09:00 passes: the two times are never compared. |
| `Validation.MissingTimeReportedTwice` | server/src/validations/business.validation.js:8-12 | A missing required time is reported twice, once by each validator of its chain. |

## Left out

- The Sequelize queries themselves. Each lookup is a read of the `Tables` value. Each `save`, `create` and `destroy` is an assignment to a `Database` field.
- Concurrency. The read-then-write race between the conflict scan and `Booking.create` cannot arise in this sequential model.
- JavaScript `Date` parsing and time zones. Times and dates are integers, so the model compares the start directly. `createBooking` instead rebuilds the start as an unpadded `H:M:00` string before comparing, and that rebuilding is not modelled.
- DECIMAL prices and amounts are integer cents. Floating-point averages of ratings are not modelled.
- `PaymentController.PaymentAmount` adds prices numerically. With MySQL's DECIMAL columns the driver returns strings, so the source's `reduce` may concatenate them instead; that is not modelled.
- JWT verification and the user lookup after bearer-token extraction. Password hashing and the reset-token flow are also not modelled.
- E-mail and SMS delivery are reduced to the `mailFailure` parameter. The SMS send after `createBooking` and the e-mail sent on confirmation have no further effect in the model.
- The invoice URL, built from `Date.now()`, is a parameter of `ProcessPayment`.
- Ids of schedule rows are not modelled, so the schedule table is a sequence. The upsert preserves the order of rows.
- The role lookup in the local permission check of service.controller.js is a set of role ids. Role names are unique, so that set has at most one element.
- `isDate()` calendar rules are the boolean `bookingDateIsDate`. LIKE's wildcard matching is not modelled; only the pattern is built.
- Listing, detail and reporting handlers are not part of this model: bookings, payments and schedules lists, `getServiceReviews`, and pagination queries. Image uploads, `createService`, `deleteService`, the user and admin controllers, and the response helpers are not part of this model either.
- `BusinessController.SetEmployeeSchedule`: each entry field is either falsy (None) or an integer date or time. A value that the database columns would refuse is not modelled; such a value would fail inside the store.
- `BookingController.CreateBooking`: the services array is the list of requested ids. The shape checks on that array belong to `Validation.ValidateCreateBooking`. Ids are numbers here, so a body such as `services: [{ "service_id": "5" }]` is not modelled: it passes `isInt()` and the `Op.in` lookup, but the strict `===` of the duration loop then finds no service, reading its duration throws, and the request answers 500.
- `ServiceController.UpdateService` returns success for any `category_id`. The service categories table is not part of this model, so the foreign-key failure of `save` for an id that names no category, which the error middleware answers with 500, is not modelled.
