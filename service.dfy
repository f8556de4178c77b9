/**
 * service.controller.js: the catalogue filter and sort, the controller's own
 * owner-or-manager check, service updates and reviews.
 */
module ServiceController {
  import opened Wrappers
  import opened ErrorHandler
  import opened Tables
  import Permission
  import Query

  const ServiceNotFound := "Service not found"
  const NoServicePermission := "You do not have permission to update this service"
  const NotUsed := "You can only review services you have used"
  const AlreadyReviewed := "You have already reviewed this service"

  // ---------------------------------------------------------------------------
  // Catalogue query

  /** The query-string filters; None is a missing or empty parameter (the string "0" is present). */
  datatype CatalogueFilter = CatalogueFilter(category: Option<Id>, minPrice: Option<int>, maxPrice: Option<int>, search: string)

  /** The where object of `getAllServices`: category equality, the price range, then the search OR. */
  function CatalogueWhere(f: CatalogueFilter): Query.Where
  {
    var byCategory: map<string, Query.Condition> :=
      if f.category.Some? then map["category_id" := Query.EqualsNumber(f.category.value)] else map[];
    var byPrice: map<string, Query.Condition> :=
      if f.minPrice.Some? && f.maxPrice.Some? then map["price" := Query.Between(f.minPrice.value, f.maxPrice.value)]
      else if f.minPrice.Some? then map["price" := Query.AtLeast(f.minPrice.value)]
      else if f.maxPrice.Some? then map["price" := Query.AtMost(f.maxPrice.value)]
      else map[];
    var fields := byCategory + byPrice;
    if f.search != "" then
      Query.Where(fields, Some([("name", Query.Like("%" + f.search + "%")), ("description", Query.Like("%" + f.search + "%"))]))
    else Query.Where(fields, None)
  }

  /**
   * The price constraint is the shared inclusive range of the two bounds, the
   * category constraint is kept, and the search only adds the same OR over name
   * and description that the search builder makes, without touching the other
   * constraints.
   */
  lemma CatalogueWhereMeaning(f: CatalogueFilter, price: int)
    ensures var w := CatalogueWhere(f);
      && ("price" in w.fields <==> Query.RangeCondition(f.minPrice, f.maxPrice).Some?)
      && ("price" in w.fields ==>
            w.fields["price"] == Query.RangeCondition(f.minPrice, f.maxPrice).value &&
            (Query.InRange(w.fields["price"], price) <==>
               (f.minPrice.Some? ==> f.minPrice.value <= price) && (f.maxPrice.Some? ==> price <= f.maxPrice.value)))
      && ("category_id" in w.fields <==> f.category.Some?)
      && (f.category.Some? ==> w.fields["category_id"] == Query.EqualsNumber(f.category.value))
      && w.fields == CatalogueWhere(f.(search := "")).fields
      && w.anyOf == Query.BuildSearchQuery(f.search, ["name", "description"]).anyOf
  {
    var w := CatalogueWhere(f);
    if f.search != "" {
      var q := Query.BuildSearchQuery(f.search, ["name", "description"]);
      assert q.anyOf.value == [("name", Query.Like("%" + f.search + "%")), ("description", Query.Like("%" + f.search + "%"))];
    }
  }

  /** The column a catalogue page is ordered by. */
  datatype SortKey = ByPrice | ByDuration | ByAverageRating | ById

  datatype SortOrder = SortOrder(key: SortKey, descending: bool)

  /** The `switch (sort)`; "newest" and every unknown value fall to the default. */
  function ChooseSort(sort: string): SortOrder
  {
    if sort == "price_low" then SortOrder(ByPrice, false)
    else if sort == "price_high" then SortOrder(ByPrice, true)
    else if sort == "duration" then SortOrder(ByDuration, false)
    else if sort == "rating" then SortOrder(ByAverageRating, true)
    else SortOrder(ById, true)
  }

  /**
   * Exactly the four named sorts leave the newest-first default; the two price
   * sorts are each other's reverse.
   */
  lemma SortChoices(sort: string)
    ensures ChooseSort(sort) != SortOrder(ById, true) <==> sort in ["price_low", "price_high", "duration", "rating"]
    ensures ChooseSort("price_low").key == ChooseSort("price_high").key
    ensures ChooseSort("price_low").descending != ChooseSort("price_high").descending
    ensures ChooseSort(sort).key == ByAverageRating ==> ChooseSort(sort).descending
  {
  }

  // ---------------------------------------------------------------------------
  // The controller's own permission check

  /** The ids of roles named "manager" (at most one, role names being unique). */
  function ManagerRoles(t: Tables): set<Id>
  {
    set id | id in t.roles && t.roles[id] == "manager"
  }

  /** The local `checkBusinessPermission(userId, businessId)`: the owner, or a member holding the "manager" role. */
  function ManagesService(t: Tables, userId: Id, businessId: Id): bool
  {
    if Permission.IsOwner(t, userId, businessId) then true
    else
      var managers := ManagerRoles(t);
      managers != {} && (businessId, userId) in t.members && t.members[(businessId, userId)] in managers
  }

  /** The local check is the shared helper called with the single role "manager". */
  lemma ManagesIsHelperWithManager(t: Tables, userId: Id, businessId: Id)
    ensures ManagesService(t, userId, businessId) == Permission.CheckBusinessPermission(t, userId, businessId, ["manager"])
    ensures ManagesService(t, userId, businessId) <==>
      Permission.IsOwner(t, userId, businessId) || Permission.HoldsListedRole(t, userId, businessId, ["manager"])
  {
    assert "owner" !in ["manager"];
    assert forall name :: name in ["manager"] <==> name == "manager";
    assert ManagerRoles(t) == set id | id in t.roles && t.roles[id] in ["manager"];
  }

  // ---------------------------------------------------------------------------
  // updateService

  /** The body of `updateService`; 0 and the empty string are absent (falsy) values. */
  datatype ServicePatch = ServicePatch(categoryId: Id, name: string, description: string, price: int, duration: int)

  /** Each `if (field) service.field = field`. */
  function ApplyServicePatch(s: ServiceRow, p: ServicePatch): ServiceRow
  {
    s.(categoryId := if p.categoryId != 0 then p.categoryId else s.categoryId,
       name := if p.name != "" then p.name else s.name,
       description := if p.description != "" then p.description else s.description,
       price := if p.price != 0 then p.price else s.price,
       duration := if p.duration != 0 then p.duration else s.duration)
  }

  /** The column validators `save` runs: price at least 0, duration at least 1, in column order. */
  function ServiceViolations(s: ServiceRow): (errs: seq<FieldError>)
    ensures errs == [] <==> s.price >= 0 && s.duration >= 1
  {
    (if s.price < 0 then [FieldError("price", "Validation min on price failed")] else []) +
    (if s.duration < 1 then [FieldError("duration", "Validation min on duration failed")] else [])
  }

  /**
   * A patch leaves the owning business alone, changes nothing when empty, and
   * a saved (valid) row keeps the column constraints the bookings rely on.
   */
  lemma ServicePatchLaws(s: ServiceRow, p: ServicePatch)
    requires s.price >= 0 && s.duration >= 1
    ensures ApplyServicePatch(s, p).businessId == s.businessId
    ensures ApplyServicePatch(s, ServicePatch(0, "", "", 0, 0)) == s
    ensures ApplyServicePatch(ApplyServicePatch(s, p), p) == ApplyServicePatch(s, p)
    ensures ServiceViolations(ApplyServicePatch(s, p)) == [] <==> p.price >= 0 && p.duration >= 0
  {
  }

  /**
   * `updateService`. A change of duration takes effect on the overlap scan of
   * every existing booking holding the service, since that scan reads live durations.
   */
  method UpdateService(db: Database, userId: Id, serviceId: Id, patch: ServicePatch) returns (r: Result<ServiceRow, Thrown>)
    requires db.Valid()
    modifies db
    ensures db.Valid()
    ensures serviceId !in old(db.services) ==>
      r == Failure(ApiError(ServiceNotFound, 404)) && db.Snapshot() == old(db.Snapshot())
    ensures serviceId in old(db.services) && !ManagesService(old(db.Snapshot()), userId, old(db.services[serviceId].businessId)) ==>
      r == Failure(ApiError(NoServicePermission, 403)) && db.Snapshot() == old(db.Snapshot())
    ensures serviceId in old(db.services) && ManagesService(old(db.Snapshot()), userId, old(db.services[serviceId].businessId)) ==>
      var updated := ApplyServicePatch(old(db.services[serviceId]), patch);
      && (ServiceViolations(updated) != [] ==>
            r == Failure(SequelizeValidationError(ServiceViolations(updated))) && db.Snapshot() == old(db.Snapshot()))
      && (ServiceViolations(updated) == [] ==>
            r == Success(updated) && db.Snapshot() == old(db.Snapshot()).(services := old(db.services)[serviceId := updated]))
  {
    if serviceId !in db.services {
      return Failure(ApiError(ServiceNotFound, 404));
    }
    var service := db.services[serviceId];
    var allowed := ManagesService(db.Snapshot(), userId, service.businessId);
    if !allowed {
      return Failure(ApiError(NoServicePermission, 403));
    }
    var updated := ApplyServicePatch(service, patch);
    var violations := ServiceViolations(updated);
    if violations != [] {
      return Failure(SequelizeValidationError(violations));
    }
    db.services := db.services[serviceId := updated];
    return Success(updated);
  }

  // ---------------------------------------------------------------------------
  // addServiceReview

  /** A completed booking of the user with a line item for the service. */
  predicate HasUsedService(t: Tables, userId: Id, serviceId: Id)
  {
    exists i :: 0 <= i < |t.lineItems| && t.lineItems[i].serviceId == serviceId &&
      t.lineItems[i].bookingId in t.bookings &&
      t.bookings[t.lineItems[i].bookingId].userId == userId && t.bookings[t.lineItems[i].bookingId].status == Completed
  }

  predicate HasReviewed(t: Tables, userId: Id, serviceId: Id)
  {
    exists i :: 0 <= i < |t.reviews| && t.reviews[i].serviceId == serviceId && t.reviews[i].userId == userId
  }

  /** No user has two reviews of one service. */
  predicate OneReviewPerUser(t: Tables)
  {
    forall i, j :: 0 <= i < j < |t.reviews| ==>
      !(t.reviews[i].serviceId == t.reviews[j].serviceId && t.reviews[i].userId == t.reviews[j].userId)
  }

  /** The `rating` column: required, and between 1 and 5. */
  function RatingViolations(rating: Option<int>): (errs: seq<FieldError>)
    ensures errs == [] <==> rating.Some? && 1 <= rating.value <= 5
  {
    if rating.None? then [FieldError("rating", "ServiceReview.rating cannot be null")]
    else if rating.value < 1 then [FieldError("rating", "Validation min on rating failed")]
    else if rating.value > 5 then [FieldError("rating", "Validation max on rating failed")]
    else []
  }

  /** The outcome of the checks of `addServiceReview`, in order; None means the review is stored. */
  function ReviewRefusal(t: Tables, userId: Id, serviceId: Id, rating: Option<int>): Option<Thrown>
  {
    if serviceId !in t.services then Some(ApiError(ServiceNotFound, 404))
    else if !HasUsedService(t, userId, serviceId) then Some(ApiError(NotUsed, 403))
    else if HasReviewed(t, userId, serviceId) then Some(ApiError(AlreadyReviewed, 400))
    else if RatingViolations(rating) != [] then Some(SequelizeValidationError(RatingViolations(rating)))
    else None
  }

  function AddReview(t: Tables, userId: Id, serviceId: Id, rating: int, comment: string): Tables
  {
    t.(reviews := t.reviews + [ReviewRow(serviceId, userId, rating, comment)])
  }

  /**
   * A stored review comes from a user with a completed booking of the service,
   * carries a rating from 1 to 5, and keeps one review per user and service.
   */
  lemma StoredReview(t: Tables, userId: Id, serviceId: Id, rating: Option<int>, comment: string)
    requires WellFormed(t) && ReviewRefusal(t, userId, serviceId, rating).None?
    ensures HasUsedService(t, userId, serviceId) && rating.Some? && 1 <= rating.value <= 5
    ensures WellFormed(AddReview(t, userId, serviceId, rating.value, comment))
    ensures OneReviewPerUser(t) ==> OneReviewPerUser(AddReview(t, userId, serviceId, rating.value, comment))
    ensures HasReviewed(AddReview(t, userId, serviceId, rating.value, comment), userId, serviceId)
  {
    var u := AddReview(t, userId, serviceId, rating.value, comment);
    assert u.reviews[|t.reviews|] == ReviewRow(serviceId, userId, rating.value, comment);
    if OneReviewPerUser(t) {
      forall i, j | 0 <= i < j < |u.reviews|
        ensures !(u.reviews[i].serviceId == u.reviews[j].serviceId && u.reviews[i].userId == u.reviews[j].userId)
      {
        if j == |t.reviews| {
          assert u.reviews[i] == t.reviews[i];
        }
      }
    }
  }

  /** `addServiceReview`. */
  method AddServiceReview(db: Database, userId: Id, serviceId: Id, rating: Option<int>, comment: string) returns (r: Result<ReviewRow, Thrown>)
    requires db.Valid()
    modifies db
    ensures db.Valid()
    ensures var refusal := ReviewRefusal(old(db.Snapshot()), userId, serviceId, rating);
      && (refusal.Some? ==> r == Failure(refusal.value) && db.Snapshot() == old(db.Snapshot()))
      && (refusal.None? ==>
            r == Success(ReviewRow(serviceId, userId, rating.value, comment)) &&
            db.Snapshot() == AddReview(old(db.Snapshot()), userId, serviceId, rating.value, comment))
  {
    var t := db.Snapshot();
    var refusal := ReviewRefusal(t, userId, serviceId, rating);
    if refusal.Some? {
      return Failure(refusal.value);
    }
    StoredReview(t, userId, serviceId, rating, comment);
    var review := ReviewRow(serviceId, userId, rating.value, comment);
    db.reviews := db.reviews + [review];
    return Success(review);
  }
}
