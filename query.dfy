/**
 * The abstract query record the translators write into: Eloquent's builder reduced to the
 * parts the engine reads and appends to (where-predicates, joins, orderings, the selected
 * columns, `distinct`, offset and limit), and the data model's relations.
 */
module Query {
  import opened Wrappers

  /** A request value (a constraint's value, a bound parameter). */
  datatype Value = Null | Bool(b: bool) | Int(i: int) | Str(s: string) | List(items: seq<Value>)

  /** The boolean a where-clause is attached with: `where` or `orWhere`. */
  datatype Conn = And | Or

  /** One where-predicate. Sub-queries (`whereExists`, `whereHas`, the raw count) carry the
      clauses their closure adds. */
  datatype Pred =
    | Cmp(column: string, op: string, value: Value)                 // where(col, op, value)
    | ColumnEq(left: string, right: string)                         // whereColumn(left, right)
    | IsNull(column: string)                                        // whereNull
    | NotNull(column: string)                                       // whereNotNull
    | Between(column: string, bounds: seq<Value>)                   // whereBetween
    | In(column: string, values: seq<Value>)                        // whereIn
    | Group(clauses: seq<Clause>)                                   // where(function ($nested) ...)
    | Exists(from: string, clauses: seq<Clause>)                    // whereExists(select 1 from ...)
    | Has(relation: string, clauses: seq<Clause>, op: string, count: Value)   // whereHas
    | HasMorph(relation: string, types: string, clauses: seq<Clause>)        // whereHasMorph
    | CountCmp(table: string, left: string, right: string, op: string, value: Value)
      // whereRaw('(SELECT COUNT(*) FROM table WHERE left = right) op ?', [value])

  datatype Clause = Clause(conn: Conn, pred: Pred)

  datatype JoinKind = Inner | Left

  /** `join table on first = second`. */
  datatype Join = Join(kind: JoinKind, table: string, first: string, second: string)

  datatype Direction = Asc | Desc

  /** A correlated scalar sub-query used as an ordering key. */
  datatype SubSelect = SubSelect(from: string, select: string, joins: seq<Join>, wheres: seq<Clause>, limit: nat)

  /** `orderBy(column, dir)`, or ordering by a sub-query, either through `orderBySub`
      (`raw == false`) or as an `orderByRaw` expression with bound parameters (`raw == true`). */
  datatype Order =
    | Column(column: string, dir: Direction)
    | Subquery(sub: SubSelect, dir: Direction, raw: bool)

  /** A relation of the base model, with the table and key names its translation uses. */
  datatype Relation =
    | BelongsTo(related: string, foreignKey: string, ownerKey: string)
    | HasOne(related: string, foreignKey: string, localKey: string)
    | HasMany(related: string, foreignKey: string, localKey: string)
    | BelongsToMany(related: string, pivot: string, foreignPivotKey: string, relatedPivotKey: string)
    | MorphOne(related: string, foreignKey: string, morphType: string)
    | MorphMany(related: string, foreignKey: string, morphType: string)
    | Other(related: string)

  /** The base model of a query: its table, primary key, class name and relation methods. */
  datatype Model = Model(table: string, keyName: string, className: string, relations: map<string, Relation>)

  /** A snapshot of the builder's mutable parts. An empty `columns` stands for "no explicit
      projection" (PHP `null` or `[]`, which the engine treats alike). */
  datatype QueryState = QueryState(
    wheres: seq<Clause>,
    joins: seq<Join>,
    orders: seq<Order>,
    columns: seq<string>,
    distinct: bool,
    offset: Option<nat>,
    limit: Option<nat>)

  /** A fresh query on a model: what a nested where scope starts from. */
  const Empty: QueryState := QueryState([], [], [], [], false, None, None)

  function AddWhere(s: QueryState, c: Clause): QueryState {
    s.(wheres := s.wheres + [c])
  }

  /** `where($column, ...)` for a clause that a dispatch may or may not produce. */
  function AddOptional(s: QueryState, c: Option<Clause>): QueryState {
    if c.Some? then AddWhere(s, c.value) else s
  }

  /** Laravel's nested where: the group's clauses are kept only when it received any. */
  function AddNested(s: QueryState, conn: Conn, group: seq<Clause>): QueryState {
    if group == [] then s else AddWhere(s, Clause(conn, Group(group)))
  }

  function AddOrder(s: QueryState, o: Order): QueryState {
    s.(orders := s.orders + [o])
  }

  /** Eloquent's builder, as a mutable record over one base model. */
  class Builder {
    const model: Model
    /** Whether the builder exposes an `orderBySub` method. */
    const hasOrderBySub: bool
    var wheres: seq<Clause>
    var joins: seq<Join>
    var orders: seq<Order>
    var columns: seq<string>
    var distinct: bool
    var offset: Option<nat>
    var limit: Option<nat>

    constructor (model: Model, hasOrderBySub: bool, s: QueryState)
      ensures this.model == model && this.hasOrderBySub == hasOrderBySub
      ensures State() == s
    {
      this.model := model;
      this.hasOrderBySub := hasOrderBySub;
      wheres, joins, orders, columns := s.wheres, s.joins, s.orders, s.columns;
      distinct, offset, limit := s.distinct, s.offset, s.limit;
    }

    function State(): QueryState
      reads this
    {
      QueryState(wheres, joins, orders, columns, distinct, offset, limit)
    }

    /** `clone $query`: an independent copy that later mutations of either do not reach. */
    method Clone() returns (c: Builder)
      ensures fresh(c)
      ensures c.model == model && c.hasOrderBySub == hasOrderBySub && c.State() == State()
    {
      c := new Builder(model, hasOrderBySub, State());
    }

    method Where(c: Clause)
      modifies this
      ensures State() == AddWhere(old(State()), c)
      ensures State().wheres == old(State().wheres) + [c]
      ensures State() == old(State()).(wheres := State().wheres)
    {
      wheres := wheres + [c];
    }

    method WhereNested(conn: Conn, group: seq<Clause>)
      modifies this
      ensures State() == AddNested(old(State()), conn, group)
    {
      if group != [] {
        wheres := wheres + [Clause(conn, Group(group))];
      }
    }

    method LeftJoin(table: string, first: string, second: string)
      modifies this
      ensures State() == old(State()).(joins := old(joins) + [Join(Left, table, first, second)])
    {
      joins := joins + [Join(Left, table, first, second)];
    }

    /** `select(...)` replaces the projection. */
    method Select(cols: seq<string>)
      modifies this
      ensures State() == old(State()).(columns := cols)
    {
      columns := cols;
    }

    method OrderBy(o: Order)
      modifies this
      ensures State() == AddOrder(old(State()), o)
    {
      orders := orders + [o];
    }

    method Distinct()
      modifies this
      ensures State() == old(State()).(distinct := true)
    {
      distinct := true;
    }

    /** `skip($n)`: Laravel stores `max(0, $n)` as the offset. */
    method Skip(n: int)
      modifies this
      ensures State() == old(State()).(offset := Some(if n < 0 then 0 else n))
    {
      offset := Some(if n < 0 then 0 else n);
    }

    /** `take($n)`: Laravel ignores a negative limit. */
    method Take(n: int)
      modifies this
      ensures State() == if n >= 0 then old(State()).(limit := Some(n)) else old(State())
    {
      if n >= 0 {
        limit := Some(n);
      }
    }
  }
}
