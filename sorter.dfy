/**
 * The sort translator (Sorter): one sort field and order become exactly one ordering on
 * the query. Plain fields and unknown relations order by the field as given; a BelongsTo
 * relation orders by the joined table's column after registering the join; the to-many
 * relations order by a correlated scalar sub-query limited to one row.
 */
module Sorting {
  import opened Wrappers
  import opened Query
  import opened Strings
  import opened Relations

  /** `-1` sorts descending; every other order ascending. */
  function DirectionOf(order: int): Direction {
    if order == -1 then Desc else Asc
  }

  /** `orderByBelongsToMany`: the related column, from the related table joined to the
      pivot table, for the pivot rows of the base row. The join compares the related
      table's and the pivot table's `relatedPivotKey` columns, as written. */
  function BelongsToManySub(model: Model, rel: Relation, column: string): (r: SubSelect)
    requires rel.BelongsToMany?
    ensures r.from == rel.related && r.select == rel.related + "." + column && r.limit == 1
    ensures |r.joins| == 1 && r.joins[0].kind == Inner && r.joins[0].table == KeyTable(rel)
    ensures r.joins[0].first == rel.related + "." + rel.relatedPivotKey
            && r.joins[0].second == rel.pivot + "." + rel.relatedPivotKey
    ensures r.wheres == [Clause(And, Correlated(model, rel))]
  {
    SubSelect(rel.related, rel.related + "." + column,
      [Join(Inner, rel.pivot, rel.related + "." + rel.relatedPivotKey, rel.pivot + "." + rel.relatedPivotKey)],
      [Clause(And, ColumnEq(rel.pivot + "." + rel.foreignPivotKey, model.table + "." + model.keyName))], 1)
  }

  /** `orderByHasRelation`: the column of the first related row whose foreign key is the
      base row's local key. */
  function HasSub(model: Model, rel: Relation, column: string): (r: SubSelect)
    requires rel.HasOne? || rel.HasMany?
    ensures r.from == rel.related && r.select == column && r.joins == [] && r.limit == 1
    ensures r.wheres == [Clause(And, Correlated(model, rel))]
  {
    SubSelect(rel.related, column, [],
      [Clause(And, ColumnEq(rel.related + "." + rel.foreignKey, model.table + "." + rel.localKey))], 1)
  }

  /** `orderByMorphRelation`: as `HasSub`, keyed on the base row's primary key and
      restricted to rows whose morph type is the base model's class. */
  function MorphSub(model: Model, rel: Relation, column: string): (r: SubSelect)
    requires rel.MorphOne? || rel.MorphMany?
    ensures r.from == rel.related && r.select == column && r.joins == [] && r.limit == 1
    ensures r.wheres == [Clause(And, Correlated(model, rel)),
                         Clause(And, Cmp(rel.related + "." + rel.morphType, "=", Str(model.className)))]
  {
    SubSelect(rel.related, column, [],
      [Clause(And, ColumnEq(rel.related + "." + rel.foreignKey, model.table + "." + model.keyName)),
       Clause(And, Cmp(rel.related + "." + rel.morphType, "=", Str(model.className)))], 1)
  }

  /** The one ordering `apply` adds for a field and order: the field as given for a plain
      field, an unknown relation or one of no handled kind; the joined table's column for a
      BelongsTo relation; a correlated sub-query for the to-many relations. */
  function SortOrdering(model: Model, hasOrderBySub: bool, field: string, order: int): (o: Order)
    ensures o.dir == DirectionOf(order)
    ensures '.' !in field || SplitFirst(field, '.').0 !in model.relations ==> o == Column(field, DirectionOf(order))
    ensures '.' in field && SplitFirst(field, '.').0 in model.relations ==>
      var rel := model.relations[SplitFirst(field, '.').0];
      var column := SplitFirst(field, '.').1;
      (rel.BelongsTo? ==> o == Column(rel.related + "." + column, DirectionOf(order)))
      && (rel.Other? ==> o == Column(field, DirectionOf(order)))
      && (rel.BelongsToMany? ==> o == Subquery(BelongsToManySub(model, rel, column), DirectionOf(order), true))
      && (rel.HasOne? || rel.HasMany? ==> o == Subquery(HasSub(model, rel, column), DirectionOf(order), true))
      && (rel.MorphOne? || rel.MorphMany? ==>
            o == Subquery(MorphSub(model, rel, column), DirectionOf(order), !hasOrderBySub))
  {
    var dir := DirectionOf(order);
    if '.' !in field then Column(field, dir)
    else
      var parts := SplitFirst(field, '.');
      var column := parts.1;
      match GetRelationInstance(model, parts.0)
      case None => Column(field, dir)
      case Some(rel) =>
        match rel
        case BelongsTo(t, _, _) => Column(t + "." + column, dir)
        case BelongsToMany(_, _, _, _) => Subquery(BelongsToManySub(model, rel, column), dir, true)
        case HasOne(_, _, _) => Subquery(HasSub(model, rel, column), dir, true)
        case HasMany(_, _, _) => Subquery(HasSub(model, rel, column), dir, true)
        case MorphOne(_, _, _) => Subquery(MorphSub(model, rel, column), dir, !hasOrderBySub)
        case MorphMany(_, _, _) => Subquery(MorphSub(model, rel, column), dir, !hasOrderBySub)
        case Other(_) => Column(field, dir)
  }

  /** `apply`: a BelongsTo sort first registers its join; every sort then appends its one
      ordering. */
  function SortApply(s: QueryState, model: Model, hasOrderBySub: bool, field: string, order: int): (r: QueryState)
    ensures r.orders == s.orders + [SortOrdering(model, hasOrderBySub, field, order)]
    ensures r.wheres == s.wheres && r.distinct == s.distinct && r.offset == s.offset && r.limit == s.limit
    ensures JoinRelationOf(model, field).None? ==> r.joins == s.joins && r.columns == s.columns
    ensures JoinRelationOf(model, field).Some? ==>
      r.joins == EnsureJoin(s, model.table, JoinRelationOf(model, field).value).joins
  {
    var rel := JoinRelationOf(model, field);
    var joined := if rel.Some? then EnsureJoin(s, model.table, rel.value) else s;
    AddOrder(joined, SortOrdering(model, hasOrderBySub, field, order))
  }

  /** Sorting appends exactly one ordering, descending exactly when the order is `-1`, after
      the existing ones; it never touches the where-clauses, `distinct`, offset or limit; and
      it keeps the joins there were and registers a join only for a BelongsTo relation, on the
      related table. */
  lemma SortAppendsOneOrdering(s: QueryState, model: Model, hasOrderBySub: bool, field: string, order: int)
    ensures var r := SortApply(s, model, hasOrderBySub, field, order);
      |r.orders| == |s.orders| + 1 && r.orders[..|s.orders|] == s.orders
      && (r.orders[|s.orders|].dir == Desc <==> order == -1)
      && r.wheres == s.wheres && r.distinct == s.distinct && r.offset == s.offset && r.limit == s.limit
      && |s.joins| <= |r.joins| && r.joins[..|s.joins|] == s.joins
      && (r.joins != s.joins ==> JoinRelationOf(model, field).Some?
                                  && HasJoinOn(r.joins, JoinRelationOf(model, field).value.related))
  {
  }

  /** A BelongsTo sort orders by the joined table's column, and the join it needs is present
      afterwards, added at most once however often the relation is sorted on. */
  lemma BelongsToSortJoins(s: QueryState, model: Model, hasOrderBySub: bool, field: string, order: int)
    requires JoinRelationOf(model, field).Some?
    ensures var rel := JoinRelationOf(model, field).value;
      var r := SortApply(s, model, hasOrderBySub, field, order);
      HasJoinOn(r.joins, rel.related)
      && r.orders[|s.orders|] == Column(rel.related + "." + SplitFirst(field, '.').1, DirectionOf(order))
      && SortApply(r, model, hasOrderBySub, field, order).joins == r.joins
  {
  }

  /** A field without a dot, or whose relation is unknown or of no handled kind, is ordered
      by as given, without a table prefix. */
  lemma PlainSortByField(s: QueryState, model: Model, hasOrderBySub: bool, field: string, order: int)
    requires '.' !in field || SplitFirst(field, '.').0 !in model.relations
             || model.relations[SplitFirst(field, '.').0].Other?
    ensures SortApply(s, model, hasOrderBySub, field, order) == AddOrder(s, Column(field, DirectionOf(order)))
  {
  }

  /** `apply` on the builder. */
  method Apply(q: Builder, field: string, order: int)
    modifies q
    ensures q.State() == SortApply(old(q.State()), q.model, q.hasOrderBySub, field, order)
  {
    var direction := if order == -1 then Desc else Asc;
    if '.' !in field {
      q.OrderBy(Column(field, direction));
      return;
    }
    var (relationName, column) := SplitFirst(field, '.');
    var relation := GetRelationInstance(q.model, relationName);
    if relation.None? {
      q.OrderBy(Column(field, direction));
      return;
    }
    var rel := relation.value;
    match rel {
      case BelongsTo(t, _, _) =>
        EnsureJoinExists(q, rel);
        q.OrderBy(Column(t + "." + column, direction));
      case BelongsToMany(_, _, _, _) =>
        q.OrderBy(Subquery(BelongsToManySub(q.model, rel, column), direction, true));
      case HasOne(_, _, _) =>
        q.OrderBy(Subquery(HasSub(q.model, rel, column), direction, true));
      case HasMany(_, _, _) =>
        q.OrderBy(Subquery(HasSub(q.model, rel, column), direction, true));
      case MorphOne(_, _, _) =>
        q.OrderBy(Subquery(MorphSub(q.model, rel, column), direction, !q.hasOrderBySub));
      case MorphMany(_, _, _) =>
        q.OrderBy(Subquery(MorphSub(q.model, rel, column), direction, !q.hasOrderBySub));
      case Other(_) =>
        q.OrderBy(Column(field, direction));
    }
  }
}
