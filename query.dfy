/**
 * Where-clause builders (query.helper.js). A Sequelize where object is
 * modelled as per-field conditions plus an optional `[Op.or]` list.
 */
module Query {
  import opened Wrappers

  /** The operator objects the builders produce. Dates and prices are integers here. */
  datatype Condition =
    | Like(pattern: string)            // { [Op.like]: pattern }
    | Between(lo: int, hi: int)        // { [Op.between]: [lo, hi] }
    | AtLeast(lo: int)                 // { [Op.gte]: lo }
    | AtMost(hi: int)                  // { [Op.lte]: hi }
    | InList(values: seq<string>)      // { [Op.in]: values }
    | EqualsText(text: string)         // a bare string value
    | EqualsNumber(n: int)             // a bare number value

  /** A where object: `fields` are its named keys, `anyOf` its `[Op.or]` key when present. */
  datatype Where = Where(fields: map<string, Condition>, anyOf: Option<seq<(string, Condition)>>)

  /** `{}`: no constraint. */
  const Unconstrained := Where(map[], None)

  /** The status argument: absent, one value, or an array (possibly empty, which is truthy in JavaScript). */
  datatype StatusArg = NoStatus | One(status: string) | Many(statuses: seq<string>)

  /** `%search%`: the LIKE pattern for "contains". */
  function ContainsPattern(search: string): (p: string)
    ensures |p| == |search| + 2 && p[0] == '%' && p[|p| - 1] == '%' && p[1..|p| - 1] == search
  {
    "%" + search + "%"
  }

  /** `buildSearchQuery(search, fields)`; a missing search or field list is the empty string or list. */
  function BuildSearchQuery(search: string, fields: seq<string>): (w: Where)
    ensures search == "" || fields == [] ==> w == Unconstrained
    ensures search != "" && fields != [] ==>
      w.fields == map[] && w.anyOf.Some? && |w.anyOf.value| == |fields| &&
      forall i :: 0 <= i < |fields| ==> w.anyOf.value[i] == (fields[i], Like(ContainsPattern(search)))
  {
    if search == "" || fields == [] then Unconstrained
    else Where(map[], Some(seq(|fields|, i requires 0 <= i < |fields| => (fields[i], Like(ContainsPattern(search))))))
  }

  /** The shared if-chain of the range builders: both bounds, lower only, upper only, neither. */
  function RangeCondition(lo: Option<int>, hi: Option<int>): Option<Condition>
  {
    if lo.Some? && hi.Some? then Some(Between(lo.value, hi.value))
    else if lo.Some? then Some(AtLeast(lo.value))
    else if hi.Some? then Some(AtMost(hi.value))
    else None
  }

  /** Whether a value satisfies a range condition; other conditions are not ranges. */
  predicate InRange(c: Condition, x: int)
  {
    match c
    case Between(lo, hi) => lo <= x <= hi
    case AtLeast(lo) => lo <= x
    case AtMost(hi) => x <= hi
    case _ => false
  }

  /** `buildDateRangeQuery(field, startDate, endDate)`; a falsy date is None, a falsy field "". */
  function BuildDateRangeQuery(field: string, startDate: Option<int>, endDate: Option<int>): (w: Where)
    ensures field == "" || (startDate.None? && endDate.None?) ==> w == Unconstrained
    ensures field != "" && (startDate.Some? || endDate.Some?) ==>
      w.anyOf.None? && w.fields.Keys == {field} &&
      (startDate.Some? && endDate.Some? ==> w.fields[field] == Between(startDate.value, endDate.value)) &&
      (startDate.Some? && endDate.None? ==> w.fields[field] == AtLeast(startDate.value)) &&
      (startDate.None? && endDate.Some? ==> w.fields[field] == AtMost(endDate.value))
  {
    if field == "" then Unconstrained
    else match RangeCondition(startDate, endDate)
      case None => Unconstrained
      case Some(c) => Where(map[field := c], None)
  }

  /**
   * The range is inclusive at both ends: a date passes the built condition
   * exactly when it is no earlier than a given start and no later than a given end.
   */
  lemma DateRangeMeaning(field: string, startDate: Option<int>, endDate: Option<int>, x: int)
    requires field != "" && (startDate.Some? || endDate.Some?)
    ensures field in BuildDateRangeQuery(field, startDate, endDate).fields
    ensures InRange(BuildDateRangeQuery(field, startDate, endDate).fields[field], x) <==>
      (startDate.Some? ==> startDate.value <= x) && (endDate.Some? ==> x <= endDate.value)
  {
  }

  /** Whether a row whose status column holds `value` matches the status argument; no status matches every row. */
  predicate StatusMatches(status: StatusArg, value: string)
  {
    match status
    case NoStatus => true
    case One(s) => s == "" || value == s
    case Many(ss) => value in ss
  }

  /** Whether a row whose text column `field` holds `value` passes the where object's condition on that column. */
  predicate AdmitsText(w: Where, field: string, value: string)
  {
    field !in w.fields ||
    match w.fields[field]
    case InList(values) => value in values
    case EqualsText(text) => value == text
    case _ => false
  }

  /**
   * `buildStatusQuery(field, status)`: no field gives `{}`; otherwise the where
   * object constrains that column alone, and passes a row exactly when its
   * status matches the argument (an empty array, being truthy, passes none).
   */
  function BuildStatusQuery(field: string, status: StatusArg): (w: Where)
    ensures field == "" ==> w == Unconstrained
    ensures w.anyOf.None? && w.fields.Keys <= {field}
    ensures field != "" ==> forall value :: AdmitsText(w, field, value) <==> StatusMatches(status, value)
  {
    if field == "" || status.NoStatus? || status == One("") then Unconstrained
    else if status.Many? then Where(map[field := InList(status.statuses)], None)
    else Where(map[field := EqualsText(status.status)], None)
  }

  /** An empty status array is not falsy in JavaScript, so the filter it builds passes no row at all. */
  lemma EmptyStatusArrayAdmitsNothing(field: string, value: string)
    requires field != ""
    ensures !AdmitsText(BuildStatusQuery(field, Many([])), field, value)
  {
  }
}
