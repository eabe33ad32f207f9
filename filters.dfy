/**
 * The column-filter translator (FilterApplier): per-field filter specifications become
 * where-predicates on the query, after a pre-pass that registers the joins BelongsTo
 * filters refer to. Every filterable field contributes at most one nested where group,
 * attached with AND; inside the group its constraints are combined with AND, or with OR
 * when the field's operator is `or`.
 */
module Filters {
  import opened Wrappers
  import opened Query
  import opened Strings
  import opened Relations
  import opened MatchModes

  /** One constraint of a field filter. A missing or null `value` is `Null`; a missing or
      null `matchMode` is `None`. */
  datatype Constraint = Constraint(value: Value, matchMode: Option<string>)

  /** A field's filter: its `operator` (`Null` when missing) and its constraints (empty when
      missing). */
  datatype FilterSpec = FilterSpec(operator: Value, constraints: seq<Constraint>)

  /** One `field => filter` entry of the request's filter map, in request order. */
  datatype FilterEntry = FilterEntry(field: string, filter: FilterSpec)

  /** A registered custom filter: a callable receives a fresh nested scope, the field's
      constraints and its operator, and adds the clauses `hook` returns; anything else
      registered under the field is ignored. */
  datatype CustomFilter =
    | Callable(hook: (seq<Constraint>, Value) -> seq<Clause>)
    | NotCallable

  /** The constraint's match mode, `contains` by default. */
  function ModeOf(c: Constraint): string {
    c.matchMode.GetOr("contains")
  }

  /** The field's operator, `and` by default. */
  function OperatorOf(f: FilterSpec): Value {
    if f.operator == Null then Str("and") else f.operator
  }

  /** A field is translated only when it is listed as filterable and is not `global`. */
  predicate Allowed(field: string, filterable: seq<string>) {
    field in filterable && field != "global"
  }

  /** A constraint without a value is ignored, except under `equals`. */
  predicate Skipped(c: Constraint) {
    c.value == Null && ModeOf(c) != "equals"
  }

  /** `orWhere` for every constraint after the first under the `or` operator, `where`
      otherwise. The position counts skipped constraints too. */
  function Connective(operator: Value, index: nat): Conn {
    if operator == Str("or") && index > 0 then Or else And
  }

  /** A field named `<relation>_count` filters on the number of related rows. */
  predicate IsCountField(field: string) {
    EndsWith(field, "_count")
  }

  /** `r` is `s` with at most one where-clause appended, attached with `conn`; orderings,
      `distinct`, offset and limit are untouched. */
  predicate AppendsAtMostOne(s: QueryState, r: QueryState, conn: Conn) {
    r.orders == s.orders && r.distinct == s.distinct && r.offset == s.offset && r.limit == s.limit
    && (r.wheres == s.wheres
        || (|r.wheres| == |s.wheres| + 1 && r.wheres[..|s.wheres|] == s.wheres
            && r.wheres[|s.wheres|].conn == conn))
  }

  /** A nested where holding the one raw count comparison. */
  function CountGroup(table: string, left: string, right: string, op: string, value: Value): Pred {
    Group([Clause(And, CountCmp(table, left, right, op, value))])
  }

  /** `applyCountFilter`: the clause a `_count` constraint adds. HasOne/HasMany count the
      related rows whose foreign key is the base row's local key, BelongsTo counts the
      related rows whose owner key is the base row's foreign key, BelongsToMany counts the
      pivot rows whose foreign pivot key is the base row's primary key, and any other
      relation becomes a `whereHas` with the count operator and the value as the count. An
      unknown relation adds nothing. */
  function CountFilterClause(model: Model, relationName: string, mode: string, value: Value, conn: Conn): (r: Option<Clause>)
    ensures r.None? <==> relationName !in model.relations
    ensures r.Some? ==> r.value.conn == conn
    ensures r.Some? && !(model.relations[relationName].Other? || model.relations[relationName].MorphOne?
                         || model.relations[relationName].MorphMany?) ==>
      var rel := model.relations[relationName];
      r.value.pred == CountGroup(KeyTable(rel), Correlation(model, rel).0, Correlation(model, rel).1, CountOperator(mode), value)
    ensures r.Some? && (model.relations[relationName].Other? || model.relations[relationName].MorphOne?
                        || model.relations[relationName].MorphMany?) ==>
      r.value.pred == Has(relationName, [], CountOperator(mode), value)
  {
    match GetRelationInstance(model, relationName)
    case None => None
    case Some(rel) =>
      var op := CountOperator(mode);
      var base := model.table;
      var pred := match rel
        case HasOne(t, fk, lk) => CountGroup(t, t + "." + fk, base + "." + lk, op, value)
        case HasMany(t, fk, lk) => CountGroup(t, t + "." + fk, base + "." + lk, op, value)
        case BelongsTo(t, fk, ok) => CountGroup(t, t + "." + ok, base + "." + fk, op, value)
        case BelongsToMany(_, pivot, fpk, _) =>
          CountGroup(pivot, pivot + "." + fpk, base + "." + model.keyName, op, value)
        case _ => Has(relationName, [], op, value);
      Some(Clause(conn, pred))
  }

  /** `applyNestedRelationFilter` on a relation path below the first relation: one
      `whereHas` per further relation, the comparison on the last segment innermost. */
  function NestedRelationClauses(path: string, mode: string, value: Value): (r: seq<Clause>)
    ensures |r| == 1 && r[0].conn == And
    ensures '.' in path <==> r[0].pred.Has?
    ensures r[0].pred.Has? ==>
      r[0].pred.relation == SplitFirst(path, '.').0 && r[0].pred.op == ">=" && r[0].pred.count == Int(1)
    decreases |path|
  {
    if '.' !in path then [Clause(And, Cmp(path, MatchOperator(mode), MatchValue(mode, value)))]
    else
      var parts := SplitFirst(path, '.');
      [Clause(And, Has(parts.0, NestedRelationClauses(parts.1, mode, value), ">=", Int(1)))]
  }

  /** The relations a chain of single-clause `whereHas` sub-queries walks through, and the
      predicate at its end (`None` when the chain ends in anything but one clause). */
  function HasChain(cs: seq<Clause>): (seq<string>, Option<Pred>)
    decreases cs
  {
    if |cs| != 1 then ([], None)
    else
      assert cs[0] in cs;
      ClauseChain(cs[0])
  }

  function ClauseChain(c: Clause): (seq<string>, Option<Pred>)
    decreases c
  {
    match c.pred
    case Has(rel, inner, _, _) => var t := HasChain(inner); ([rel] + t.0, t.1)
    case p => ([], Some(p))
  }

  /** A path of `k + 1` dot-separated segments becomes `k` nested `whereHas` sub-queries,
      one per leading segment in order, around the comparison on the last segment. */
  lemma NestedRelationPath(path: string, mode: string, value: Value)
    ensures var segs := Explode(path, '.');
      HasChain(NestedRelationClauses(path, mode, value))
      == (segs[..|segs| - 1], Some(Cmp(segs[|segs| - 1], MatchOperator(mode), MatchValue(mode, value))))
  {
    NestedRelationJoined(path, mode, value);
    var t := HasChain(NestedRelationClauses(path, mode, value));
    var pieces := t.0 + [t.1.value.column];
    ExplodeImplode(pieces, '.');
    assert pieces[..|pieces| - 1] == t.0;
  }

  /** The relations of the chain and the column of its comparison, joined with dots, give
      the path back, none of them holding a dot. */
  lemma {:induction false} NestedRelationJoined(path: string, mode: string, value: Value)
    ensures var t := HasChain(NestedRelationClauses(path, mode, value));
      t.1.Some? && t.1.value.Cmp?
      && t.1.value == Cmp(t.1.value.column, MatchOperator(mode), MatchValue(mode, value))
      && '.' !in t.1.value.column
      && (forall k :: 0 <= k < |t.0| ==> '.' !in t.0[k])
      && Implode(t.0 + [t.1.value.column], '.') == path
    decreases |path|
  {
    if '.' in path {
      var parts := SplitFirst(path, '.');
      NestedRelationJoined(parts.1, mode, value);
      NestedRelationUnfold(path, mode, value);
      HasChainStep(parts.0, NestedRelationClauses(parts.1, mode, value));
      var inner := HasChain(NestedRelationClauses(parts.1, mode, value));
      var pieces := [parts.0] + (inner.0 + [inner.1.value.column]);
      assert pieces[1..] == inner.0 + [inner.1.value.column];
      assert HasChain(NestedRelationClauses(path, mode, value)).0 + [inner.1.value.column] == pieces;
    } else {
      NestedRelationUndotted(path, mode, value);
    }
  }

  /** A path without a dot is the comparison alone. */
  lemma NestedRelationUndotted(path: string, mode: string, value: Value)
    requires '.' !in path
    ensures Explode(path, '.') == [path]
    ensures HasChain(NestedRelationClauses(path, mode, value)) == ([], Some(Cmp(path, MatchOperator(mode), MatchValue(mode, value))))
  {
    var c := Clause(And, Cmp(path, MatchOperator(mode), MatchValue(mode, value)));
    assert NestedRelationClauses(path, mode, value) == [c];
    assert HasChain([c]) == ClauseChain(c);
  }

  lemma NestedRelationUnfold(path: string, mode: string, value: Value)
    requires '.' in path
    ensures NestedRelationClauses(path, mode, value)
      == [Clause(And, Has(SplitFirst(path, '.').0, NestedRelationClauses(SplitFirst(path, '.').1, mode, value), ">=", Int(1)))]
  {
  }

  lemma HasChainStep(name: string, inner: seq<Clause>)
    ensures HasChain([Clause(And, Has(name, inner, ">=", Int(1)))]) == ([name] + HasChain(inner).0, HasChain(inner).1)
  {
    var c := Clause(And, Has(name, inner, ">=", Int(1)));
    assert HasChain([c]) == ClauseChain(c);
  }


  /** One comparison inside a relation sub-query, as `getMatchOperator`/`getMatchValue`
      translate it. */
  function RelatedCmp(column: string, mode: string, value: Value): Clause {
    Clause(And, Cmp(column, MatchOperator(mode), MatchValue(mode, value)))
  }

  /** `applyRelationFilter` on the nested scope `s` of a dotted field `relation.column`.
      A deeper path becomes a `whereHas` chain. A BelongsTo relation registers its join on
      the nested scope and compares the joined table's column; HasOne/HasMany become a
      correlated `whereExists` on the related table; BelongsToMany becomes a `whereHas`
      with `>= 1`; MorphOne/MorphMany a `whereHasMorph` over every type; any other relation
      a plain `whereHas`. An unknown relation adds nothing. */
  function RelationFilterStep(s: QueryState, model: Model, field: string, mode: string, value: Value, conn: Conn): (r: QueryState)
    requires '.' in field
    ensures AppendsAtMostOne(s, r, conn)
    ensures r.wheres == s.wheres <==> SplitFirst(field, '.').0 !in model.relations
    ensures r.joins != s.joins ==>
      SplitFirst(field, '.').0 in model.relations && model.relations[SplitFirst(field, '.').0].BelongsTo?
    ensures var name := SplitFirst(field, '.').0;
      var column := SplitFirst(field, '.').1;
      name in model.relations ==>
        var rel := model.relations[name];
        var cmp := RelatedCmp(column, mode, value);
        ('.' in column ==>
           r == AddWhere(s, Clause(conn, Has(name, NestedRelationClauses(column, mode, value), ">=", Int(1)))))
        && ('.' !in column && rel.BelongsTo? ==>
              r == AddWhere(EnsureJoin(s, model.table, rel), Clause(conn, Cmp(rel.related + "." + column, cmp.pred.op, cmp.pred.value))))
        && ('.' !in column && (rel.HasOne? || rel.HasMany?) ==>
              r == AddWhere(s, Clause(conn, Exists(rel.related, [Clause(And, Correlated(model, rel)), cmp]))))
        && ('.' !in column && (rel.BelongsToMany? || rel.Other?) ==>
              r == AddWhere(s, Clause(conn, Has(name, [cmp], ">=", Int(1)))))
        && ('.' !in column && (rel.MorphOne? || rel.MorphMany?) ==>
              r == AddWhere(s, Clause(conn, HasMorph(name, "*", [cmp]))))
  {
    var parts := SplitFirst(field, '.');
    var name := parts.0;
    var column := parts.1;
    match GetRelationInstance(model, name)
    case None => s
    case Some(rel) =>
      if '.' in column then
        AddWhere(s, Clause(conn, Has(name, NestedRelationClauses(column, mode, value), ">=", Int(1))))
      else
        match rel
        case BelongsTo(t, _, _) =>
          AddWhere(EnsureJoin(s, model.table, rel), Clause(conn, Cmp(t + "." + column, MatchOperator(mode), MatchValue(mode, value))))
        case HasOne(t, fk, lk) =>
          AddWhere(s, Clause(conn, Exists(t, [Clause(And, ColumnEq(t + "." + fk, model.table + "." + lk)), RelatedCmp(column, mode, value)])))
        case HasMany(t, fk, lk) =>
          AddWhere(s, Clause(conn, Exists(t, [Clause(And, ColumnEq(t + "." + fk, model.table + "." + lk)), RelatedCmp(column, mode, value)])))
        case BelongsToMany(_, _, _, _) =>
          AddWhere(s, Clause(conn, Has(name, [RelatedCmp(column, mode, value)], ">=", Int(1))))
        case MorphOne(_, _, _) =>
          AddWhere(s, Clause(conn, HasMorph(name, "*", [RelatedCmp(column, mode, value)])))
        case MorphMany(_, _, _) =>
          AddWhere(s, Clause(conn, HasMorph(name, "*", [RelatedCmp(column, mode, value)])))
        case Other(_) =>
          AddWhere(s, Clause(conn, Has(name, [RelatedCmp(column, mode, value)], ">=", Int(1))))
  }

  /** The translation of one constraint at position `index` of field `field`, on the
      nested scope `s`: `_count` fields first, then dotted relation fields, then the base
      table's own column. */
  function ConstraintStep(s: QueryState, model: Model, field: string, operator: Value, index: nat, c: Constraint): (r: QueryState)
    ensures Skipped(c) ==> r == s
    ensures !(!IsCountField(field) && '.' !in field && SelectDirect(ModeOf(c)) in {Range, Membership}) ==>
      AppendsAtMostOne(s, r, Connective(operator, index))
    ensures !IsCountField(field) && '.' !in field && SelectDirect(ModeOf(c)) in {Range, Membership} ==>
      AppendsAtMostOne(s, r, And)
    ensures r.joins != s.joins ==> !IsCountField(field) && '.' in field
  {
    if Skipped(c) then s
    else
      var conn := Connective(operator, index);
      var mode := ModeOf(c);
      if IsCountField(field) then
        AddOptional(s, CountFilterClause(model, RemoveAll(field, "_count"), mode, c.value, conn))
      else if '.' in field then
        RelationFilterStep(s, model, field, mode, c.value, conn)
      else
        AddOptional(s, DirectClause(model.table + "." + field, mode, c.value, conn))
  }

  /** The nested scope after the first `|cs|` constraints, starting from a fresh query. */
  function ConstraintScope(model: Model, field: string, operator: Value, cs: seq<Constraint>): QueryState
    decreases |cs|
  {
    if cs == [] then Empty
    else ConstraintStep(ConstraintScope(model, field, operator, cs[..|cs| - 1]), model, field, operator, |cs| - 1, cs[|cs| - 1])
  }

  /** One more constraint is one more step on the scope of the ones before it. */
  lemma ConstraintScopeStep(model: Model, field: string, operator: Value, cs: seq<Constraint>, i: nat)
    requires i < |cs|
    ensures ConstraintScope(model, field, operator, cs[..i + 1])
         == ConstraintStep(ConstraintScope(model, field, operator, cs[..i]), model, field, operator, i, cs[i])
  {
    assert cs[..i + 1][..i] == cs[..i];
  }

  /** The clauses one field contributes to its nested group: the custom filter's, when a
      callable one is registered for the field, otherwise those of its constraints. Joins
      and projections registered on the nested scope are not part of the group. */
  function FieldGroup(model: Model, custom: map<string, CustomFilter>, e: FilterEntry): (r: seq<Clause>)
    ensures e.field in custom && custom[e.field].Callable? ==>
      r == custom[e.field].hook(e.filter.constraints, OperatorOf(e.filter))
    ensures !(e.field in custom && custom[e.field].Callable?) ==>
      |r| <= |e.filter.constraints|
      && (OperatorOf(e.filter) != Str("or") ==> forall k :: 0 <= k < |r| ==> r[k].conn == And)
      && ((forall k :: 0 <= k < |e.filter.constraints| ==> Skipped(e.filter.constraints[k])) ==> r == [])
  {
    if e.field in custom && custom[e.field].Callable? then
      custom[e.field].hook(e.filter.constraints, OperatorOf(e.filter))
    else
      ConstraintScopeShape(model, e.field, OperatorOf(e.filter), e.filter.constraints);
      ConstraintScope(model, e.field, OperatorOf(e.filter), e.filter.constraints).wheres
  }

  /** One field of the main loop: a filterable field adds its group (if non-empty) with AND. */
  function FilterStep(s: QueryState, model: Model, custom: map<string, CustomFilter>, filterable: seq<string>, e: FilterEntry): QueryState {
    if Allowed(e.field, filterable) then AddNested(s, And, FieldGroup(model, custom, e)) else s
  }

  function FilterGroups(s: QueryState, model: Model, custom: map<string, CustomFilter>, filterable: seq<string>, entries: seq<FilterEntry>): QueryState
    decreases |entries|
  {
    if entries == [] then s
    else FilterStep(FilterGroups(s, model, custom, filterable, entries[..|entries| - 1]), model, custom, filterable, entries[|entries| - 1])
  }

  /** One field of the join pre-pass. */
  function PrepassStep(s: QueryState, model: Model, filterable: seq<string>, field: string): QueryState {
    if Allowed(field, filterable) then JoinForField(s, model, field) else s
  }

  function FilterPrepass(s: QueryState, model: Model, filterable: seq<string>, entries: seq<FilterEntry>): QueryState
    decreases |entries|
  {
    if entries == [] then s
    else PrepassStep(FilterPrepass(s, model, filterable, entries[..|entries| - 1]), model, filterable, entries[|entries| - 1].field)
  }

  /** `apply`: the join pre-pass over every filterable field, then one group per field. */
  function FilterApply(s: QueryState, model: Model, custom: map<string, CustomFilter>, filterable: seq<string>, entries: seq<FilterEntry>): (r: QueryState)
    ensures r.orders == s.orders && r.distinct == s.distinct && r.offset == s.offset && r.limit == s.limit
    ensures |s.wheres| <= |r.wheres| <= |s.wheres| + |Permitted(filterable, entries)| && r.wheres[..|s.wheres|] == s.wheres
    ensures forall k :: |s.wheres| <= k < |r.wheres| ==> r.wheres[k].conn == And && r.wheres[k].pred.Group?
    ensures |s.joins| <= |r.joins| <= |s.joins| + |Permitted(filterable, entries)| && r.joins[..|s.joins|] == s.joins
  {
    FilterPrepassShape(s, model, filterable, entries);
    FilterGroupsShape(FilterPrepass(s, model, filterable, entries), model, custom, filterable, entries);
    FilterGroups(FilterPrepass(s, model, filterable, entries), model, custom, filterable, entries)
  }

  /** The entries that are translated at all. */
  function Permitted(filterable: seq<string>, entries: seq<FilterEntry>): (r: seq<FilterEntry>)
    ensures forall k :: 0 <= k < |r| ==> Allowed(r[k].field, filterable)
    decreases |entries|
  {
    if entries == [] then []
    else
      var init := Permitted(filterable, entries[..|entries| - 1]);
      var last := entries[|entries| - 1];
      if Allowed(last.field, filterable) then init + [last] else init
  }

  // ---------------------------------------------------------------------------------------
  // Properties

  /** Under any operator other than `or`, every clause of a field's group is attached with
      AND; a group never has more clauses than the field has constraints; and a field whose
      constraints are all value-less (outside `equals`) yields an empty group. */
  lemma {:induction false} ConstraintScopeShape(model: Model, field: string, operator: Value, cs: seq<Constraint>)
    ensures var r := ConstraintScope(model, field, operator, cs);
      |r.wheres| <= |cs|
      && (operator != Str("or") ==> forall k :: 0 <= k < |r.wheres| ==> r.wheres[k].conn == And)
      && ((forall k :: 0 <= k < |cs| ==> Skipped(cs[k])) ==> r.wheres == [])
    decreases |cs|
  {
    if cs != [] {
      var init := cs[..|cs| - 1];
      ConstraintScopeShape(model, field, operator, init);
      var prev := ConstraintScope(model, field, operator, init);
      ConstraintStepShape(prev, model, field, operator, |cs| - 1, cs[|cs| - 1]);
      if forall k :: 0 <= k < |cs| ==> Skipped(cs[k]) {
        forall k | 0 <= k < |init| ensures Skipped(init[k]) {
          assert init[k] == cs[k];
        }
      }
    }
  }

  /** One step adds at most one clause, with AND under any operator other than `or`, and
      none for a skipped constraint. */
  lemma ConstraintStepShape(s: QueryState, model: Model, field: string, operator: Value, index: nat, c: Constraint)
    ensures var r := ConstraintStep(s, model, field, operator, index, c);
      |r.wheres| <= |s.wheres| + 1
      && (operator != Str("or") && (forall k :: 0 <= k < |s.wheres| ==> s.wheres[k].conn == And) ==>
            forall k :: 0 <= k < |r.wheres| ==> r.wheres[k].conn == And)
      && (Skipped(c) ==> r.wheres == s.wheres)
  {
    var r := ConstraintStep(s, model, field, operator, index, c);
    if operator != Str("or") && (forall k :: 0 <= k < |s.wheres| ==> s.wheres[k].conn == And) {
      assert Connective(operator, index) == And;
      forall k | 0 <= k < |r.wheres| ensures r.wheres[k].conn == And {
        if k < |s.wheres| {
          assert r.wheres[k] == s.wheres[k];
        }
      }
    }
  }


  /** Under `or`, a constraint after the first that adds a comparison to a direct column is
      attached with OR, except under `between` and `in`, which are always AND. */
  lemma OrConnectiveOnDirectColumns(model: Model, field: string, index: nat, c: Constraint, s: QueryState)
    requires !IsCountField(field) && '.' !in field && !Skipped(c)
    ensures var r := ConstraintStep(s, model, field, Str("or"), index, c);
      |r.wheres| == |s.wheres| + 1 ==>
        r.wheres[|s.wheres|].conn == (if index > 0 && SelectDirect(ModeOf(c)) !in {Range, Membership} then Or else And)
  {
  }

  /** The groups pass adds only where-clauses: the joins, projection and everything else of
      the query stay as the pre-pass left them, the earlier clauses stay in place, and each
      added clause is one field's nested group, attached with AND. */
  lemma {:induction false} FilterGroupsShape(s: QueryState, model: Model, custom: map<string, CustomFilter>, filterable: seq<string>, entries: seq<FilterEntry>)
    ensures var r := FilterGroups(s, model, custom, filterable, entries);
      r.joins == s.joins && r.columns == s.columns && r.orders == s.orders
      && r.distinct == s.distinct && r.offset == s.offset && r.limit == s.limit
      && |s.wheres| <= |r.wheres| <= |s.wheres| + |Permitted(filterable, entries)|
      && r.wheres[..|s.wheres|] == s.wheres
      && forall k :: |s.wheres| <= k < |r.wheres| ==> r.wheres[k].conn == And && r.wheres[k].pred.Group?
    decreases |entries|
  {
    if entries != [] {
      var init := entries[..|entries| - 1];
      FilterGroupsShape(s, model, custom, filterable, init);
      var prev := FilterGroups(s, model, custom, filterable, init);
      var r := FilterGroups(s, model, custom, filterable, entries);
      assert r == FilterStep(prev, model, custom, filterable, entries[|entries| - 1]);
      if r != prev {
        assert r.wheres == prev.wheres + [r.wheres[|prev.wheres|]];
        assert r.wheres[..|s.wheres|] == prev.wheres[..|s.wheres|];
        forall k | |s.wheres| <= k < |r.wheres| ensures r.wheres[k].conn == And && r.wheres[k].pred.Group? {
          if k < |prev.wheres| {
            assert r.wheres[k] == prev.wheres[k];
          }
        }
      }
    }
  }

  /** The pre-pass adds only joins (and the base wildcard projection with the first one):
      the earlier joins stay, at most one join is added per filterable field, and afterwards
      every filterable field `relation.column` whose relation is a BelongsTo has a join on
      the related table. */
  lemma {:induction false} FilterPrepassShape(s: QueryState, model: Model, filterable: seq<string>, entries: seq<FilterEntry>)
    ensures var r := FilterPrepass(s, model, filterable, entries);
      r.wheres == s.wheres && r.orders == s.orders
      && r.distinct == s.distinct && r.offset == s.offset && r.limit == s.limit
      && |s.joins| <= |r.joins| <= |s.joins| + |Permitted(filterable, entries)|
      && r.joins[..|s.joins|] == s.joins
      && forall k :: 0 <= k < |entries| && Allowed(entries[k].field, filterable)
                     && JoinRelationOf(model, entries[k].field).Some?
                     ==> HasJoinOn(r.joins, JoinRelationOf(model, entries[k].field).value.related)
    decreases |entries|
  {
    if entries != [] {
      var init := entries[..|entries| - 1];
      FilterPrepassShape(s, model, filterable, init);
      var prev := FilterPrepass(s, model, filterable, init);
      var r := FilterPrepass(s, model, filterable, entries);
      var last := entries[|entries| - 1];
      assert r == PrepassStep(prev, model, filterable, last.field);
      assert r.joins[..|prev.joins|] == prev.joins;
      assert r.joins[..|s.joins|] == prev.joins[..|s.joins|];
      forall k | 0 <= k < |entries| && Allowed(entries[k].field, filterable)
                 && JoinRelationOf(model, entries[k].field).Some?
        ensures HasJoinOn(r.joins, JoinRelationOf(model, entries[k].field).value.related)
      {
        if k < |init| {
          assert entries[k] == init[k];
          var t := JoinRelationOf(model, entries[k].field).value.related;
          var j :| 0 <= j < |prev.joins| && prev.joins[j].table == t;
          assert r.joins[j] == prev.joins[j];
        }
      }
    }
  }

  /** After `apply`, every BelongsTo relation a filterable dotted field names is joined on
      the outer query, and the joins the query had before are still there first. The joins
      a BelongsTo filter registers on its nested scope never reach the outer query: all
      joins come from the pre-pass. */
  lemma FilterJoinsComeFromPrepass(s: QueryState, model: Model, custom: map<string, CustomFilter>, filterable: seq<string>, entries: seq<FilterEntry>)
    ensures var r := FilterApply(s, model, custom, filterable, entries);
      r.joins == FilterPrepass(s, model, filterable, entries).joins
      && |s.joins| <= |r.joins| && r.joins[..|s.joins|] == s.joins
      && forall k :: 0 <= k < |entries| && Allowed(entries[k].field, filterable)
                     && JoinRelationOf(model, entries[k].field).Some?
                     ==> HasJoinOn(r.joins, JoinRelationOf(model, entries[k].field).value.related)
  {
    FilterPrepassShape(s, model, filterable, entries);
    FilterGroupsShape(FilterPrepass(s, model, filterable, entries), model, custom, filterable, entries);
  }

  /** Fields outside the filterable list (and `global`) have no effect at all: filtering
      with the whole map equals filtering with only the permitted entries. */
  lemma {:induction false} OnlyFilterableFieldsMatter(s: QueryState, model: Model, custom: map<string, CustomFilter>, filterable: seq<string>, entries: seq<FilterEntry>)
    ensures FilterPrepass(s, model, filterable, entries) == FilterPrepass(s, model, filterable, Permitted(filterable, entries))
    ensures forall t :: FilterGroups(t, model, custom, filterable, entries) == FilterGroups(t, model, custom, filterable, Permitted(filterable, entries))
    ensures FilterApply(s, model, custom, filterable, entries) == FilterApply(s, model, custom, filterable, Permitted(filterable, entries))
    decreases |entries|
  {
    if entries != [] {
      var init := entries[..|entries| - 1];
      var last := entries[|entries| - 1];
      OnlyFilterableFieldsMatter(s, model, custom, filterable, init);
      var p := Permitted(filterable, init);
      if Allowed(last.field, filterable) {
        var q := p + [last];
        assert Permitted(filterable, entries) == q;
        assert q[..|q| - 1] == p;
      } else {
        assert Permitted(filterable, entries) == p;
      }
    }
    var t := FilterPrepass(s, model, filterable, entries);
    assert FilterGroups(t, model, custom, filterable, entries) == FilterGroups(t, model, custom, filterable, Permitted(filterable, entries));
  }

  /** A filter whose constraints are all value-less (outside `equals`) and that has no
      callable custom filter leaves the query unchanged. */
  lemma NullConstraintsAddNothing(s: QueryState, model: Model, custom: map<string, CustomFilter>, filterable: seq<string>, e: FilterEntry)
    requires !(e.field in custom && custom[e.field].Callable?)
    requires forall k :: 0 <= k < |e.filter.constraints| ==> Skipped(e.filter.constraints[k])
    ensures FilterStep(s, model, custom, filterable, e) == s
  {
    ConstraintScopeShape(model, e.field, OperatorOf(e.filter), e.filter.constraints);
  }

  /** A callable custom filter replaces the translation of its field: the field adds the one
      group its hook builds from the constraints and the operator (nothing when the hook
      adds nothing), whatever the model's relations are. */
  lemma CustomFilterGroup(s: QueryState, model: Model, other: Model, custom: map<string, CustomFilter>, filterable: seq<string>, e: FilterEntry)
    requires Allowed(e.field, filterable) && e.field in custom && custom[e.field].Callable?
    ensures var group := custom[e.field].hook(e.filter.constraints, OperatorOf(e.filter));
      var r := FilterStep(s, model, custom, filterable, e);
      r == FilterStep(s, other, custom, filterable, e)
      && (group == [] ==> r == s)
      && (group != [] ==> r == s.(wheres := s.wheres + [Clause(And, Group(group))]))
  {
  }

  /** A `<relation>_count` field whose relation name has no other `_count` in it filters on
      exactly that relation. */
  lemma CountFieldRelation(model: Model, relation: string, operator: Value, index: nat, c: Constraint, s: QueryState)
    requires !Occurs(relation, "_count") && !Skipped(c)
    ensures ConstraintStep(s, model, relation + "_count", operator, index, c)
      == AddOptional(s, CountFilterClause(model, relation, ModeOf(c), c.value, Connective(operator, index)))
  {
    RemoveCountSuffix(relation);
    assert EndsWith(relation + "_count", "_count") by {
      var f := relation + "_count";
      assert f[|f| - 6..] == "_count";
    }
  }

  // ---------------------------------------------------------------------------------------
  // The translator on the mutable builder

  /** The body of the constraint loop: translates one constraint into the nested scope. */
  method ApplyConstraint(nested: Builder, field: string, operator: Value, index: nat, c: Constraint)
    modifies nested
    ensures nested.State() == ConstraintStep(old(nested.State()), nested.model, field, operator, index, c)
  {
    var mode := ModeOf(c);
    if c.value == Null && mode != "equals" {
      return;
    }
    var conn := Connective(operator, index);
    if EndsWith(field, "_count") {
      var clause := CountFilterClause(nested.model, RemoveAll(field, "_count"), mode, c.value, conn);
      if clause.Some? {
        nested.Where(clause.value);
      }
      return;
    }
    if '.' in field {
      ApplyRelationFilter(nested, field, mode, c.value, conn);
      return;
    }
    var clause := DirectClause(nested.model.table + "." + field, mode, c.value, conn);
    if clause.Some? {
      nested.Where(clause.value);
    }
  }

  /** `applyRelationFilter`: a BelongsTo relation registers its join on the scope it is
      given before comparing the joined column. */
  method ApplyRelationFilter(q: Builder, field: string, mode: string, value: Value, conn: Conn)
    requires '.' in field
    modifies q
    ensures q.State() == RelationFilterStep(old(q.State()), q.model, field, mode, value, conn)
  {
    var (name, column) := SplitFirst(field, '.');
    var relation := GetRelationInstance(q.model, name);
    if relation.None? {
      return;
    }
    var rel := relation.value;
    if '.' in column {
      q.Where(Clause(conn, Has(name, NestedRelationClauses(column, mode, value), ">=", Int(1))));
      return;
    }
    match rel {
      case BelongsTo(t, _, _) =>
        EnsureJoinExists(q, rel);
        q.Where(Clause(conn, Cmp(t + "." + column, MatchOperator(mode), MatchValue(mode, value))));
      case HasOne(t, fk, lk) =>
        q.Where(Clause(conn, Exists(t, [Clause(And, ColumnEq(t + "." + fk, q.model.table + "." + lk)), RelatedCmp(column, mode, value)])));
      case HasMany(t, fk, lk) =>
        q.Where(Clause(conn, Exists(t, [Clause(And, ColumnEq(t + "." + fk, q.model.table + "." + lk)), RelatedCmp(column, mode, value)])));
      case BelongsToMany(_, _, _, _) =>
        q.Where(Clause(conn, Has(name, [RelatedCmp(column, mode, value)], ">=", Int(1))));
      case MorphOne(_, _, _) =>
        q.Where(Clause(conn, HasMorph(name, "*", [RelatedCmp(column, mode, value)])));
      case MorphMany(_, _, _) =>
        q.Where(Clause(conn, HasMorph(name, "*", [RelatedCmp(column, mode, value)])));
      case Other(_) =>
        q.Where(Clause(conn, Has(name, [RelatedCmp(column, mode, value)], ">=", Int(1))));
    }
  }

  /** One iteration of the constraint loop: the scope of the first `index` constraints
      becomes that of the first `index + 1`. */
  method ApplyNextConstraint(nested: Builder, field: string, operator: Value, constraints: seq<Constraint>, index: nat)
    requires index < |constraints|
    requires nested.State() == ConstraintScope(nested.model, field, operator, constraints[..index])
    modifies nested
    ensures nested.State() == ConstraintScope(nested.model, field, operator, constraints[..index + 1])
  {
    ConstraintScopeStep(nested.model, field, operator, constraints, index);
    ApplyConstraint(nested, field, operator, index, constraints[index]);
  }

  /** The constraint loop of the closure, on the nested scope. */
  method ApplyConstraints(nested: Builder, field: string, operator: Value, constraints: seq<Constraint>)
    requires nested.State() == Empty
    modifies nested
    ensures nested.State() == ConstraintScope(nested.model, field, operator, constraints)
  {
    var index := 0;
    while index < |constraints|
      invariant 0 <= index <= |constraints|
      invariant nested.State() == ConstraintScope(nested.model, field, operator, constraints[..index])
    {
      ApplyNextConstraint(nested, field, operator, constraints, index);
      index := index + 1;
    }
    assert constraints[..index] == constraints;
  }

  /** The closure of the main loop: builds a field's group in a fresh nested scope on the
      same model. */
  method BuildFieldGroup(model: Model, hasOrderBySub: bool, custom: map<string, CustomFilter>, e: FilterEntry) returns (group: seq<Clause>)
    ensures group == FieldGroup(model, custom, e)
  {
    var constraints := e.filter.constraints;
    var operator := if e.filter.operator == Null then Str("and") else e.filter.operator;
    assert operator == OperatorOf(e.filter);
    if e.field in custom && custom[e.field].Callable? {
      group := custom[e.field].hook(constraints, operator);
      return;
    }
    var nested := new Builder(model, hasOrderBySub, Empty);
    ApplyConstraints(nested, e.field, operator, constraints);
    group := nested.wheres;
  }

  /** `apply`: the join pre-pass loop, then the group loop. */
  method Apply(q: Builder, filters: seq<FilterEntry>, filterable: seq<string>, custom: map<string, CustomFilter>)
    modifies q
    ensures q.State() == FilterApply(old(q.State()), q.model, custom, filterable, filters)
  {
    ApplyPrepass(q, filters, filterable);
    ApplyGroups(q, filters, filterable, custom);
  }

  /** The first loop of `apply`: the joins of every filterable dotted field. */
  method ApplyPrepass(q: Builder, filters: seq<FilterEntry>, filterable: seq<string>)
    modifies q
    ensures q.State() == FilterPrepass(old(q.State()), q.model, filterable, filters)
  {
    var i := 0;
    while i < |filters|
      invariant 0 <= i <= |filters|
      invariant q.State() == FilterPrepass(old(q.State()), q.model, filterable, filters[..i])
    {
      var field := filters[i].field;
      if field in filterable && field != "global" {
        EnsureJoinForField(q, field);
      }
      assert filters[..i + 1][..i] == filters[..i];
      i := i + 1;
    }
    assert filters[..i] == filters;
  }

  /** The second loop of `apply`: one nested group per filterable field. */
  method ApplyGroups(q: Builder, filters: seq<FilterEntry>, filterable: seq<string>, custom: map<string, CustomFilter>)
    modifies q
    ensures q.State() == FilterGroups(old(q.State()), q.model, custom, filterable, filters)
  {
    var i := 0;
    while i < |filters|
      invariant 0 <= i <= |filters|
      invariant q.State() == FilterGroups(old(q.State()), q.model, custom, filterable, filters[..i])
    {
      var entry := filters[i];
      if entry.field in filterable && entry.field != "global" {
        var group := BuildFieldGroup(q.model, q.hasOrderBySub, custom, entry);
        q.WhereNested(And, group);
      }
      assert filters[..i + 1][..i] == filters[..i];
      i := i + 1;
    }
    assert filters[..i] == filters;
  }

}
