/**
 * How the three translators treat each kind of relation, side by side: for a field
 * `relation.column`, the column filter (FilterApplier), the global search
 * (GlobalSearchApplier), the `_count` filter and the sort (Sorter) tie the related rows
 * to the base row through the same key comparison, the relation's `Correlation`.
 */
module RelationKinds {
  import opened Wrappers
  import opened Query
  import opened Strings
  import opened Relations
  import opened MatchModes
  import opened Filters
  import opened GlobalSearch
  import opened Sorting

  /** HasOne/HasMany: the filter and the search add a correlated EXISTS on the related table,
      the `_count` filter counts the related rows and the sort selects from the first related
      row, all four keyed on the related foreign key against the base table's local key. */
  lemma HasRelationsCorrelate(s: QueryState, model: Model, name: string, column: string,
                              mode: string, value: Value, conn: Conn, term: string,
                              hasOrderBySub: bool, order: int)
    requires name in model.relations && (model.relations[name].HasOne? || model.relations[name].HasMany?)
    requires '.' !in name && '.' !in column
    ensures var rel := model.relations[name];
      var keys := Clause(And, ColumnEq(rel.related + "." + rel.foreignKey, model.table + "." + rel.localKey));
      var field := name + "." + column;
      RelationFilterStep(s, model, field, mode, value, conn).wheres
        == s.wheres + [Clause(conn, Exists(rel.related, [keys, RelatedCmp(column, mode, value)]))]
      && RelationSearchClause(model, name, column, term)
           == Some(Clause(Or, Exists(rel.related, [keys, Clause(And, Cmp(column, "like", Pattern(term)))])))
      && CountFilterClause(model, name, mode, value, conn)
           == Some(Clause(conn, Group([Clause(And, CountCmp(rel.related, keys.pred.left, keys.pred.right, CountOperator(mode), value))])))
      && SortOrdering(model, hasOrderBySub, field, order)
           == Subquery(SubSelect(rel.related, column, [], [keys], 1), DirectionOf(order), true)
  {
    SplitFirstUnique(name, '.', column);
  }

  /** BelongsTo: the filter, the search and the sort compare the column of the joined related
      table, and the filter registers exactly the BelongsTo join; the `_count` filter counts
      the related rows on the very key pair that join uses, owner key against foreign key. */
  lemma BelongsToAgreesWithJoin(s: QueryState, model: Model, name: string, column: string,
                                mode: string, value: Value, conn: Conn, term: string,
                                hasOrderBySub: bool, order: int)
    requires name in model.relations && model.relations[name].BelongsTo?
    requires '.' !in name && '.' !in column
    ensures var rel := model.relations[name];
      var join := BelongsToJoin(model.table, rel);
      var field := name + "." + column;
      var f := RelationFilterStep(s, model, field, mode, value, conn);
      f == AddWhere(EnsureJoin(s, model.table, rel),
                    Clause(conn, Cmp(join.table + "." + column, MatchOperator(mode), MatchValue(mode, value))))
      && HasJoinOn(f.joins, join.table)
      && RelationSearchClause(model, name, column, term) == Some(Clause(Or, Cmp(join.table + "." + column, "like", Pattern(term))))
      && SortOrdering(model, hasOrderBySub, field, order) == Column(join.table + "." + column, DirectionOf(order))
      && CountFilterClause(model, name, mode, value, conn)
           == Some(Clause(conn, Group([Clause(And, CountCmp(join.table, join.second, join.first, CountOperator(mode), value))])))
  {
    SplitFirstUnique(name, '.', column);
  }

  /** BelongsToMany: the filter and the search are `whereHas` sub-queries with `>= 1`, while
      the `_count` filter and the sort both go through the pivot table, keyed on the pivot's
      foreign pivot key against the base table's primary key. */
  lemma BelongsToManyThroughPivot(s: QueryState, model: Model, name: string, column: string,
                                  mode: string, value: Value, conn: Conn, term: string,
                                  hasOrderBySub: bool, order: int)
    requires name in model.relations && model.relations[name].BelongsToMany?
    requires '.' !in name && '.' !in column
    ensures var rel := model.relations[name];
      var keys := Clause(And, ColumnEq(rel.pivot + "." + rel.foreignPivotKey, model.table + "." + model.keyName));
      var field := name + "." + column;
      RelationFilterStep(s, model, field, mode, value, conn)
        == AddWhere(s, Clause(conn, Has(name, [RelatedCmp(column, mode, value)], ">=", Int(1))))
      && RelationSearchClause(model, name, column, term)
           == Some(Clause(Or, Has(name, [Clause(And, Cmp(column, "like", Pattern(term)))], ">=", Int(1))))
      && CountFilterClause(model, name, mode, value, conn)
           == Some(Clause(conn, Group([Clause(And, CountCmp(rel.pivot, keys.pred.left, keys.pred.right, CountOperator(mode), value))])))
      && var o := SortOrdering(model, hasOrderBySub, field, order);
         o.Subquery? && o.raw && o.sub.wheres == [keys] && o.sub.joins[0].table == rel.pivot
  {
    SplitFirstUnique(name, '.', column);
  }

  /** MorphOne/MorphMany: the filter is a `whereHasMorph` over every type, the search and the
      `_count` filter plain `whereHas` sub-queries; the sort selects from the first related
      row keyed on the base table's primary key and restricted to the base model's class, and
      is a raw ordering exactly when the builder has no `orderBySub`. */
  lemma MorphRelationsByType(s: QueryState, model: Model, name: string, column: string,
                             mode: string, value: Value, conn: Conn, term: string,
                             hasOrderBySub: bool, order: int)
    requires name in model.relations && (model.relations[name].MorphOne? || model.relations[name].MorphMany?)
    requires '.' !in name && '.' !in column
    ensures var rel := model.relations[name];
      var field := name + "." + column;
      RelationFilterStep(s, model, field, mode, value, conn)
        == AddWhere(s, Clause(conn, HasMorph(name, "*", [RelatedCmp(column, mode, value)])))
      && RelationSearchClause(model, name, column, term)
           == Some(Clause(Or, Has(name, [Clause(And, Cmp(column, "like", Pattern(term)))], ">=", Int(1))))
      && CountFilterClause(model, name, mode, value, conn) == Some(Clause(conn, Has(name, [], CountOperator(mode), value)))
      && var o := SortOrdering(model, hasOrderBySub, field, order);
         o.Subquery? && o.raw == !hasOrderBySub
         && o.sub.wheres == [Clause(And, ColumnEq(rel.related + "." + rel.foreignKey, model.table + "." + model.keyName)),
                             Clause(And, Cmp(rel.related + "." + rel.morphType, "=", Str(model.className)))]
  {
    SplitFirstUnique(name, '.', column);
  }
}
