/**
 * The service-level request (DataTableRequest): six read-only fields built from a raw
 * payload by `fromArray`, which clamps the window, supplies defaults and casts the
 * integers the way PHP's `(int)` does. The file declares strict types, so a payload
 * whose `sortField` or `global` is neither a string nor null, or whose `filters` is
 * neither an array nor null, makes the constructor throw a TypeError.
 */
module Requests {
  import opened Wrappers
  import opened Query
  import opened Strings
  import opened Filters

  /** The normalised request. A datatype value cannot be changed after construction. */
  datatype DataTableRequest = DataTableRequest(
    first: int,
    rows: int,
    sortField: Option<string>,
    sortOrder: int,
    globalSearch: Option<string>,
    filters: Option<seq<FilterEntry>>)

  /** What a payload holds under `filters`: nothing (missing or null), a filter map, or a
      value that is not an array. */
  datatype FiltersInput = NoFilters | FilterMap(entries: seq<FilterEntry>) | NotAnArray(v: Value)

  /** The raw payload, one entry per key `fromArray` reads; a missing key and an explicit
      null are both `Null` (`??` and `Arr::get` treat them alike). */
  datatype Payload = Payload(
    first: Value,
    rows: Value,
    sortField: Value,
    sortOrder: Value,
    global: Value,
    filters: FiltersInput)

  /** The parameter whose argument had the wrong type. */
  datatype RequestError = TypeError(parameter: string)

  /** PHP's `(int)` of a non-null value: booleans are 0 or 1, strings give their integer
      prefix, arrays are 0 when empty and 1 otherwise. */
  function IntCast(v: Value): int {
    match v
    case Null => 0
    case Bool(b) => if b then 1 else 0
    case Int(i) => i
    case Str(s) => StringToInt(s)
    case List(items) => if items == [] then 0 else 1
  }

  /** `(int) ($payload[$key] ?? $default)`. */
  function IntOr(v: Value, default: int): int {
    if v == Null then default else IntCast(v)
  }

  function Max(a: int, b: int): int { if a >= b then a else b }
  function Min(a: int, b: int): int { if a <= b then a else b }

  /** A value a `?string` parameter accepts under strict types. */
  predicate NullableString(v: Value) {
    v.Null? || v.Str?
  }

  function AsOptionalString(v: Value): Option<string>
    requires NullableString(v)
  {
    if v.Str? then Some(v.s) else None
  }

  /** A request as `fromArray` leaves it: a non-negative offset and a page size in
      [1, 1000]. */
  predicate Normalized(r: DataTableRequest) {
    r.first >= 0 && 1 <= r.rows <= 1000
  }

  /** `fromArray`. The integer arguments are computed first; the constructor then checks
      the nullable parameters in declaration order. */
  function FromArray(p: Payload): (r: Result<DataTableRequest, RequestError>)
    ensures r.Failure? <==> !NullableString(p.sortField) || !NullableString(p.global) || p.filters.NotAnArray?
    ensures r.Failure? && !NullableString(p.sortField) ==> r.error == TypeError("sortField")
    ensures r.Failure? && NullableString(p.sortField) && !NullableString(p.global) ==> r.error == TypeError("globalSearch")
    ensures r.Failure? && NullableString(p.sortField) && NullableString(p.global) ==> r.error == TypeError("filters")
    ensures r.Success? ==> Normalized(r.value)
    ensures r.Success? ==> r.value.sortOrder == IntOr(p.sortOrder, 0)
    ensures r.Success? ==> (r.value.sortField.None? <==> p.sortField == Null)
                           && (r.value.globalSearch.None? <==> p.global == Null)
                           && (r.value.filters.None? <==> p.filters.NoFilters?)
    ensures r.Success? && p.sortField.Str? ==> r.value.sortField == Some(p.sortField.s)
    ensures r.Success? && p.global.Str? ==> r.value.globalSearch == Some(p.global.s)
    ensures r.Success? && p.filters.FilterMap? ==> r.value.filters == Some(p.filters.entries)
  {
    var first := Max(0, IntOr(p.first, 0));
    var rows := Max(1, Min(1000, IntOr(p.rows, 25)));
    var sortOrder := IntOr(p.sortOrder, 0);
    if !NullableString(p.sortField) then Failure(TypeError("sortField"))
    else if !NullableString(p.global) then Failure(TypeError("globalSearch"))
    else if p.filters.NotAnArray? then Failure(TypeError("filters"))
    else
      Success(DataTableRequest(first, rows, AsOptionalString(p.sortField), sortOrder,
        AsOptionalString(p.global), if p.filters.FilterMap? then Some(p.filters.entries) else None))
  }

  /** The payload that carries a request's fields back, with integers as integers. */
  function ToPayload(r: DataTableRequest): Payload {
    Payload(Int(r.first), Int(r.rows),
      if r.sortField.Some? then Str(r.sortField.value) else Null,
      Int(r.sortOrder),
      if r.globalSearch.Some? then Str(r.globalSearch.value) else Null,
      if r.filters.Some? then FilterMap(r.filters.value) else NoFilters)
  }

  // ---------------------------------------------------------------------------------------
  // Properties

  /** The window: a missing offset is 0 and a negative one becomes 0; a missing page size is
      25 and one outside [1, 1000] is clamped to the nearer bound; values already in range
      are kept exactly. */
  lemma WindowClamping(p: Payload)
    requires FromArray(p).Success?
    ensures var r := FromArray(p).value;
      (p.first == Null ==> r.first == 0)
      && (p.rows == Null ==> r.rows == 25)
      && (p.first.Int? ==> r.first == (if p.first.i < 0 then 0 else p.first.i))
      && (p.rows.Int? ==> r.rows == (if p.rows.i < 1 then 1 else if p.rows.i > 1000 then 1000 else p.rows.i))
  {
  }

  /** A normalised request survives the trip through a payload unchanged. */
  lemma RequestRoundTrip(r: DataTableRequest)
    requires Normalized(r)
    ensures FromArray(ToPayload(r)) == Success(r)
  {
  }

  /** Normalising is idempotent: a request `fromArray` produced is a fixed point. */
  lemma FromArrayIdempotent(p: Payload)
    requires FromArray(p).Success?
    ensures FromArray(ToPayload(FromArray(p).value)) == FromArray(p)
  {
    RequestRoundTrip(FromArray(p).value);
  }

  /** Query-string integers arrive as decimal strings; `fromArray` reads them exactly as it
      reads the integers themselves. */
  lemma DecimalStringsReadAsIntegers(p: Payload, first: int, rows: int, sortOrder: int)
    ensures FromArray(p.(first := Str(IntToString(first)), rows := Str(IntToString(rows)),
                         sortOrder := Str(IntToString(sortOrder))))
         == FromArray(p.(first := Int(first), rows := Int(rows), sortOrder := Int(sortOrder)))
  {
    IntStringRoundTrip(first);
    IntStringRoundTrip(rows);
    IntStringRoundTrip(sortOrder);
  }
}
