/**
 * The global-search translator (GlobalSearchApplier): a search term is matched with
 * `like %term%` against every searchable field, the fields OR-combined inside one nested
 * where group attached with AND, after a pre-pass that registers the joins BelongsTo fields
 * refer to.
 */
module GlobalSearch {
  import opened Wrappers
  import opened Query
  import opened Strings
  import opened Relations

  /** The search does nothing for a missing or blank term, or when no field is searchable. */
  predicate SearchSkipped(term: Option<string>, fields: seq<string>) {
    term.None? || Blank(term.value) || fields == []
  }

  /** The pattern every field is matched against. */
  function Pattern(term: string): Value {
    Str("%" + term + "%")
  }

  /** `applyRelationSearch`: the clause a dotted field `relation.column` adds, always with
      OR. A BelongsTo relation compares the joined table's column; HasOne/HasMany use a
      correlated `orWhereExists` on the related table; every other relation an
      `orWhereHas`. An unknown relation adds nothing. */
  function RelationSearchClause(model: Model, name: string, column: string, term: string): (r: Option<Clause>)
    ensures r.None? <==> name !in model.relations
    ensures r.Some? ==> r.value.conn == Or
    ensures r.Some? && model.relations[name].BelongsTo? ==>
      r.value.pred == Cmp(model.relations[name].related + "." + column, "like", Pattern(term))
    ensures r.Some? && (model.relations[name].HasOne? || model.relations[name].HasMany?) ==>
      var rel := model.relations[name];
      r.value.pred == Exists(rel.related, [Clause(And, Correlated(model, rel)), Clause(And, Cmp(column, "like", Pattern(term)))])
    ensures r.Some? && !(model.relations[name].BelongsTo? || model.relations[name].HasOne? || model.relations[name].HasMany?) ==>
      r.value.pred == Has(name, [Clause(And, Cmp(column, "like", Pattern(term)))], ">=", Int(1))
  {
    match GetRelationInstance(model, name)
    case None => None
    case Some(rel) =>
      var like := Clause(And, Cmp(column, "like", Pattern(term)));
      match rel
      case BelongsTo(t, _, _) => Some(Clause(Or, Cmp(t + "." + column, "like", Pattern(term))))
      case HasOne(t, fk, lk) => Some(Clause(Or, Exists(t, [Clause(And, ColumnEq(t + "." + fk, model.table + "." + lk)), like])))
      case HasMany(t, fk, lk) => Some(Clause(Or, Exists(t, [Clause(And, ColumnEq(t + "." + fk, model.table + "." + lk)), like])))
      case _ => Some(Clause(Or, Has(name, [like], ">=", Int(1))))
  }

  /** The clause one searchable field adds: a dotted field goes through the relation, any
      other field is the base table's column. */
  function FieldSearchClause(model: Model, field: string, term: string): (r: Option<Clause>)
    ensures '.' !in field ==> r == Some(Clause(Or, Cmp(model.table + "." + field, "like", Pattern(term))))
    ensures r.Some? ==> r.value.conn == Or
  {
    if '.' in field then
      var parts := SplitFirst(field, '.');
      RelationSearchClause(model, parts.0, parts.1, term)
    else Some(Clause(Or, Cmp(model.table + "." + field, "like", Pattern(term))))
  }

  /** The group the nested closure builds, field by field. */
  function SearchClauses(model: Model, fields: seq<string>, term: string): seq<Clause>
    decreases |fields|
  {
    if fields == [] then []
    else
      var c := FieldSearchClause(model, fields[|fields| - 1], term);
      SearchClauses(model, fields[..|fields| - 1], term) + (if c.Some? then [c.value] else [])
  }

  /** `apply`: the join pre-pass over the dotted fields, then the one OR group. */
  function SearchApply(s: QueryState, model: Model, term: Option<string>, fields: seq<string>): (r: QueryState)
    ensures SearchSkipped(term, fields) ==> r == s
    ensures r.orders == s.orders && r.distinct == s.distinct && r.offset == s.offset && r.limit == s.limit
    ensures |s.wheres| <= |r.wheres| <= |s.wheres| + 1 && r.wheres[..|s.wheres|] == s.wheres
    ensures |r.wheres| == |s.wheres| + 1 ==>
      r.wheres[|s.wheres|].conn == And && r.wheres[|s.wheres|].pred.Group?
      && |r.wheres[|s.wheres|].pred.clauses| <= |fields|
      && forall k :: 0 <= k < |r.wheres[|s.wheres|].pred.clauses| ==> r.wheres[|s.wheres|].pred.clauses[k].conn == Or
  {
    if SearchSkipped(term, fields) then s
    else
      JoinsForFieldsShape(s, model, fields);
      SearchClausesShape(model, fields, term.value);
      AddNested(JoinsForFields(s, model, fields), And, SearchClauses(model, fields, term.value))
  }

  // ---------------------------------------------------------------------------------------
  // Properties

  /** Every clause of the group is OR-combined; a field adds at most one clause; and when no
      field is dotted, clause `k` is exactly the `like` comparison on the base table's `k`-th
      field. */
  lemma {:induction false} SearchClausesShape(model: Model, fields: seq<string>, term: string)
    ensures var cs := SearchClauses(model, fields, term);
      |cs| <= |fields|
      && (forall k :: 0 <= k < |cs| ==> cs[k].conn == Or)
      && ((forall k :: 0 <= k < |fields| ==> '.' !in fields[k]) ==>
            |cs| == |fields|
            && forall k :: 0 <= k < |cs| ==> cs[k] == Clause(Or, Cmp(model.table + "." + fields[k], "like", Pattern(term))))
    decreases |fields|
  {
    if fields != [] {
      var init := fields[..|fields| - 1];
      SearchClausesShape(model, init, term);
      var prev := SearchClauses(model, init, term);
      var cs := SearchClauses(model, fields, term);
      var c := FieldSearchClause(model, fields[|fields| - 1], term);
      assert cs == prev + (if c.Some? then [c.value] else []);
      forall k | 0 <= k < |cs| ensures cs[k].conn == Or {
        if k < |prev| {
          assert cs[k] == prev[k];
        }
      }
      if forall k :: 0 <= k < |fields| ==> '.' !in fields[k] {
        assert forall k :: 0 <= k < |init| ==> '.' !in init[k] by {
          forall k | 0 <= k < |init| ensures '.' !in init[k] {
            assert init[k] == fields[k];
          }
        }
        forall k | 0 <= k < |cs|
          ensures cs[k] == Clause(Or, Cmp(model.table + "." + fields[k], "like", Pattern(term)))
        {
          if k < |prev| {
            assert cs[k] == prev[k] && init[k] == fields[k];
          }
        }
      }
    }
  }

  /** A skipped search leaves the query unchanged. Otherwise the search adds exactly one
      where-clause, a nested group attached with AND whose clauses are all OR-combined,
      unless no field produced a clause; the orderings stay; earlier joins stay in place, and
      every join it adds is the BelongsTo join of one of the search fields. */
  lemma SearchApplyShape(s: QueryState, model: Model, term: Option<string>, fields: seq<string>)
    ensures var r := SearchApply(s, model, term, fields);
      (SearchSkipped(term, fields) ==> r == s)
      && r.orders == s.orders
      && (r.wheres == s.wheres
          || (|r.wheres| == |s.wheres| + 1 && r.wheres[..|s.wheres|] == s.wheres
              && r.wheres[|s.wheres|].conn == And && r.wheres[|s.wheres|].pred.Group?
              && forall k :: 0 <= k < |r.wheres[|s.wheres|].pred.clauses| ==> r.wheres[|s.wheres|].pred.clauses[k].conn == Or))
      && |s.joins| <= |r.joins| && r.joins[..|s.joins|] == s.joins
      && forall j :: |s.joins| <= j < |r.joins| ==> JoinOfSomeField(r.joins[j], model, fields)
  {
    JoinsForFieldsShape(s, model, fields);
    if !SearchSkipped(term, fields) {
      var cs := SearchClauses(model, fields, term.value);
      SearchClausesShape(model, fields, term.value);
      var r := SearchApply(s, model, term, fields);
      if cs != [] {
        assert r.wheres == s.wheres + [Clause(And, Group(cs))];
      }
    }
  }

  /** Searching on plain columns only yields the group of one `like %term%` per field, on the
      base table's columns, in field order. */
  lemma PlainFieldsSearch(s: QueryState, model: Model, term: string, fields: seq<string>)
    requires !Blank(term) && fields != []
    requires forall k :: 0 <= k < |fields| ==> '.' !in fields[k]
    ensures var r := SearchApply(s, model, Some(term), fields);
      r.joins == s.joins
      && |r.wheres| == |s.wheres| + 1 && r.wheres[..|s.wheres|] == s.wheres
      && r.wheres[|s.wheres|].pred.Group?
      && var cs := r.wheres[|s.wheres|].pred.clauses;
         |cs| == |fields| && forall k :: 0 <= k < |cs| ==> cs[k] == Clause(Or, Cmp(model.table + "." + fields[k], "like", Pattern(term)))
  {
    SearchClausesShape(model, fields, term);
    JoinsForFieldsShape(s, model, fields);
    NoDottedFieldsNoJoins(s, model, fields);
    var r := SearchApply(s, model, Some(term), fields);
    assert r.wheres[..|s.wheres|] == s.wheres;
  }

  // ---------------------------------------------------------------------------------------
  // The translator on the mutable builder

  /** `apply`. */
  method Apply(q: Builder, term: Option<string>, fields: seq<string>)
    modifies q
    ensures q.State() == SearchApply(old(q.State()), q.model, term, fields)
  {
    if term.None? || Blank(term.value) || fields == [] {
      return;
    }
    var i := 0;
    while i < |fields|
      invariant 0 <= i <= |fields|
      invariant q.State() == JoinsForFields(old(q.State()), q.model, fields[..i])
    {
      EnsureJoinForField(q, fields[i]);
      assert fields[..i + 1][..i] == fields[..i];
      i := i + 1;
    }
    assert fields[..i] == fields;
    var nested := new Builder(q.model, q.hasOrderBySub, Empty);
    i := 0;
    while i < |fields|
      invariant 0 <= i <= |fields|
      invariant nested.model == q.model
      invariant q.State() == JoinsForFields(old(q.State()), q.model, fields)
      invariant nested.wheres == SearchClauses(q.model, fields[..i], term.value)
    {
      var field := fields[i];
      if '.' in field {
        var (relationName, column) := SplitFirst(field, '.');
        ApplyRelationSearch(nested, relationName, column, term.value);
      } else {
        nested.Where(Clause(Or, Cmp(q.model.table + "." + field, "like", Pattern(term.value))));
      }
      assert fields[..i + 1][..i] == fields[..i];
      i := i + 1;
    }
    assert fields[..i] == fields;
    q.WhereNested(And, nested.wheres);
  }

  /** `applyRelationSearch` on the nested scope. */
  method ApplyRelationSearch(q: Builder, name: string, column: string, term: string)
    modifies q
    ensures q.State() == AddOptional(old(q.State()), RelationSearchClause(q.model, name, column, term))
  {
    var relation := GetRelationInstance(q.model, name);
    if relation.None? {
      return;
    }
    var like := Clause(And, Cmp(column, "like", Pattern(term)));
    match relation.value {
      case BelongsTo(t, _, _) =>
        q.Where(Clause(Or, Cmp(t + "." + column, "like", Pattern(term))));
      case HasOne(t, fk, lk) =>
        q.Where(Clause(Or, Exists(t, [Clause(And, ColumnEq(t + "." + fk, q.model.table + "." + lk)), like])));
      case HasMany(t, fk, lk) =>
        q.Where(Clause(Or, Exists(t, [Clause(And, ColumnEq(t + "." + fk, q.model.table + "." + lk)), like])));
      case _ =>
        q.Where(Clause(Or, Has(name, [like], ">=", Int(1))));
    }
  }
}
