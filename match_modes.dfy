/**
 * The match-mode tables of the filter translator: the direct-column `switch` of
 * `applyMatchMode` (kept as an ordered case table, so the duplicate `notContains` case is
 * there as written), and the `match` tables `getMatchOperator`, `getMatchValue` and
 * `getCountOperator` used for relation and count filters.
 */
module MatchModes {
  import opened Wrappers
  import opened Query
  import opened Strings

  /** PHP string interpolation of a request value (`"{$value}"`). */
  function Interp(v: Value): string {
    match v
    case Null => ""
    case Bool(b) => if b then "1" else ""
    case Int(i) => IntToString(i)
    case Str(s) => s
    case List(_) => "Array"
  }

  /** Where the `%` wildcards go around the interpolated value. */
  datatype Wrap = Bare | Around | Trailing | Leading

  function Wrapped(w: Wrap, v: Value): Value {
    match w
    case Bare => v
    case Around => Str("%" + Interp(v) + "%")
    case Trailing => Str(Interp(v) + "%")
    case Leading => Str("%" + Interp(v))
  }

  /** What one case of the direct-column switch does. */
  datatype DirectCase =
    | Compare(op: string, wrap: Wrap)   // $query->{$method}($field, op, wrapped value)
    | Range                             // whereBetween, for a two-element array only
    | Membership                        // whereIn, for an array only
    | NullCheck(negated: bool)          // {$method}Null / {$method}NotNull, value ignored

  /** The switch of `applyMatchMode`: the first case whose label equals the mode runs, so
      the second `notContains` case (with its `" not like"` operator) is written out but can
      never be reached; a mode matching no case falls through to `like %value%`. */
  function SelectDirect(mode: string): (r: DirectCase)
    ensures r.Range? <==> mode == "between"
    ensures r.Membership? <==> mode == "in"
    ensures r.NullCheck? <==> mode == "isNull" || mode == "isNotNull"
    ensures r.NullCheck? ==> (r.negated <==> mode == "isNotNull")
    ensures r != Compare(" not like", Around)
    ensures mode !in DirectModes ==> r == Compare("like", Around)
  {
    if mode == "contains" then Compare("like", Around)
    else if mode == "notContains" then Compare("not like", Around)
    else if mode == "notContains" then Compare(" not like", Around)
    else if mode == "startsWith" then Compare("like", Trailing)
    else if mode == "endsWith" then Compare("like", Leading)
    else if mode == "equals" then Compare("=", Bare)
    else if mode == "notEquals" then Compare("!=", Bare)
    else if mode == "lt" then Compare("<", Bare)
    else if mode == "lte" then Compare("<=", Bare)
    else if mode == "gt" then Compare(">", Bare)
    else if mode == "gte" then Compare(">=", Bare)
    else if mode == "between" then Range
    else if mode == "in" then Membership
    else if mode == "dateIs" then Compare("=", Bare)
    else if mode == "dateIsNot" then Compare("!=", Bare)
    else if mode == "dateBefore" then Compare("<", Bare)
    else if mode == "dateAfter" then Compare(">", Bare)
    else if mode == "isNull" then NullCheck(false)
    else if mode == "isNotNull" then NullCheck(true)
    else Compare("like", Around)
  }

  /** The modes the switch names. */
  const DirectModes: set<string> := {
    "contains", "notContains", "startsWith", "endsWith", "equals", "notEquals",
    "lt", "lte", "gt", "gte", "between", "in", "dateIs", "dateIsNot", "dateBefore", "dateAfter",
    "isNull", "isNotNull"}

  /** `applyMatchMode`: the clause a direct-column constraint adds to the scope, if any.
      `between` and `in` always use `whereBetween`/`whereIn`, so they are AND-combined
      whatever the connective. */
  function DirectClause(column: string, mode: string, value: Value, conn: Conn): (r: Option<Clause>)
    ensures r.None? ==> SelectDirect(mode) == Range || SelectDirect(mode) == Membership
    ensures r.Some? && (SelectDirect(mode) == Range || SelectDirect(mode) == Membership) ==> r.value.conn == And
    ensures r.Some? && SelectDirect(mode) != Range && SelectDirect(mode) != Membership ==> r.value.conn == conn
  {
    match SelectDirect(mode)
    case Compare(op, w) => Some(Clause(conn, Cmp(column, op, Wrapped(w, value))))
    case Range =>
      if value.List? && |value.items| == 2 then Some(Clause(And, Between(column, value.items))) else None
    case Membership =>
      if value.List? then Some(Clause(And, In(column, value.items))) else None
    case NullCheck(negated) => Some(Clause(conn, if negated then NotNull(column) else IsNull(column)))
  }

  /** Only `between` and `in` can add nothing, and only for a value of the wrong shape. */
  lemma DirectClauseDropsOnlyMalformedRanges(column: string, mode: string, value: Value, conn: Conn)
    ensures DirectClause(column, mode, value, conn).None? <==>
      (mode == "between" && !(value.List? && |value.items| == 2)) || (mode == "in" && !value.List?)
  {
  }

  /** `getMatchOperator`: the operator of a relation-filter comparison. */
  function MatchOperator(mode: string): (r: string)
    ensures r in {"like", "not like", "=", "!=", "<", "<=", ">", ">="}
    ensures r == "like" <==> mode in LikeModes && mode != "notContains"
    ensures mode !in LikeModes && mode !in ComparisonModes ==> r == "="
  {
    if mode == "contains" || mode == "startsWith" || mode == "endsWith" then "like"
    else if mode == "notContains" then "not like"
    else if mode == "equals" then "="
    else if mode == "notEquals" then "!="
    else if mode == "lt" then "<"
    else if mode == "lte" then "<="
    else if mode == "gt" then ">"
    else if mode == "gte" then ">="
    else "="
  }

  /** The wrapping `getMatchValue` applies. */
  function MatchWrap(mode: string): Wrap {
    if mode == "contains" || mode == "notContains" then Around
    else if mode == "startsWith" then Trailing
    else if mode == "endsWith" then Leading
    else Bare
  }

  /** `getMatchValue`. */
  function MatchValue(mode: string, value: Value): (r: Value)
    ensures mode !in LikeModes ==> r == value
    ensures mode in LikeModes ==> r.Str? && '%' in r.s && |Interp(value)| < |r.s|
    ensures mode == "contains" || mode == "notContains" ==> r == Str("%" + Interp(value) + "%")
    ensures mode == "startsWith" ==> r == Str(Interp(value) + "%")
    ensures mode == "endsWith" ==> r == Str("%" + Interp(value))
  {
    Wrapped(MatchWrap(mode), value)
  }

  /** `getCountOperator`: the comparison of a `_count` filter. */
  function CountOperator(mode: string): (r: string)
    ensures r in {"=", "!=", "<", "<=", ">", ">="}
    ensures mode in ComparisonModes ==> r == MatchOperator(mode)
    ensures mode !in ComparisonModes ==> r == "="
  {
    if mode == "equals" then "="
    else if mode == "notEquals" then "!="
    else if mode == "lt" then "<"
    else if mode == "lte" then "<="
    else if mode == "gt" then ">"
    else if mode == "gte" then ">="
    else "="
  }

  /** The modes the relation-filter tables name explicitly. */
  const LikeModes: set<string> := {"contains", "notContains", "startsWith", "endsWith"}
  const ComparisonModes: set<string> := {"equals", "notEquals", "lt", "lte", "gt", "gte"}

  /** On the like and comparison modes the relation tables translate exactly as the
      direct-column switch does. */
  lemma RelationTablesAgreeWithDirect(mode: string)
    requires mode in LikeModes || mode in ComparisonModes
    ensures SelectDirect(mode) == Compare(MatchOperator(mode), MatchWrap(mode))
  {
  }
}
