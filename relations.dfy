/**
 * Relation lookup and idempotent join registration (the ResolvesRelations concern shared by
 * the filter, search and sort translators).
 */
module Relations {
  import opened Wrappers
  import opened Query
  import opened Strings

  /** `getRelationInstance`: the relation a name denotes on the model, or none when the name
      is not a relation method of the model. Never fails for unknown names. */
  function GetRelationInstance(model: Model, name: string): (r: Option<Relation>)
    ensures r.None? <==> name !in model.relations
    ensures r.Some? ==> r.value == model.relations[name]
  {
    if name in model.relations then Some(model.relations[name]) else None
  }

  /** Some registered join is on `table`. Join identity is the table name alone. */
  predicate HasJoinOn(joins: seq<Join>, table: string) {
    exists i | 0 <= i < |joins| :: joins[i].table == table
  }

  /** The table whose rows a relation's key comparison ranges over: the pivot table for a
      BelongsToMany, the related table for every other kind. */
  function KeyTable(rel: Relation): string {
    if rel.BelongsToMany? then rel.pivot else rel.related
  }

  /** The key comparison that ties a related row (a pivot row, for BelongsToMany) to the
      base row, as the pair (related-side column, base-side column): a BelongsTo relation's
      owner key against the base row's foreign key; a HasOne/HasMany relation's foreign key
      against the base row's local key; a BelongsToMany pivot's foreign pivot key, and a
      morph relation's foreign key, against the base row's primary key. */
  function Correlation(model: Model, rel: Relation): (string, string)
    requires !rel.Other?
  {
    match rel
    case BelongsTo(t, fk, ok) => (t + "." + ok, model.table + "." + fk)
    case HasOne(t, fk, lk) => (t + "." + fk, model.table + "." + lk)
    case HasMany(t, fk, lk) => (t + "." + fk, model.table + "." + lk)
    case BelongsToMany(_, pivot, fpk, _) => (pivot + "." + fpk, model.table + "." + model.keyName)
    case MorphOne(t, fk, _) => (t + "." + fk, model.table + "." + model.keyName)
    case MorphMany(t, fk, _) => (t + "." + fk, model.table + "." + model.keyName)
  }

  /** The correlation as a `whereColumn` predicate. */
  function Correlated(model: Model, rel: Relation): Pred
    requires !rel.Other?
  {
    ColumnEq(Correlation(model, rel).0, Correlation(model, rel).1)
  }

  /** The join registered for a BelongsTo relation: a left join on
      `base.foreignKey = related.ownerKey`, with no alias. */
  function BelongsToJoin(base: string, rel: Relation): (j: Join)
    requires rel.BelongsTo?
    ensures forall model: Model | model.table == base ::
      j.table == KeyTable(rel) && (j.second, j.first) == Correlation(model, rel)
  {
    Join(Left, rel.related, base + "." + rel.foreignKey, rel.related + "." + rel.ownerKey)
  }

  /** The state `ensureJoinExists` leaves: a join on the related table is present
      afterwards; if one was already there nothing changes; otherwise exactly the BelongsTo
      left join is appended and, only when no columns were selected, the base wildcard
      projection is added. Where-predicates and orderings are never touched. */
  function EnsureJoin(s: QueryState, base: string, rel: Relation): (r: QueryState)
    requires rel.BelongsTo?
    ensures HasJoinOn(r.joins, rel.related)
    ensures HasJoinOn(s.joins, rel.related) ==> r == s
    ensures !HasJoinOn(s.joins, rel.related) ==> r.joins == s.joins + [BelongsToJoin(base, rel)]
    ensures s.columns != [] ==> r.columns == s.columns
    ensures !HasJoinOn(s.joins, rel.related) && s.columns == [] ==> r.columns == [base + ".*"]
    ensures r.wheres == s.wheres && r.orders == s.orders
    ensures r.distinct == s.distinct && r.offset == s.offset && r.limit == s.limit
  {
    if HasJoinOn(s.joins, rel.related) then s
    else
      var joined := s.(joins := s.joins + [BelongsToJoin(base, rel)]);
      assert joined.joins[|s.joins|].table == rel.related;
      if joined.columns == [] then joined.(columns := [base + ".*"]) else joined
  }

  /** `ensureJoinExists`: scans the registered joins for one on the related table and
      registers the BelongsTo join only when there is none. */
  method EnsureJoinExists(q: Builder, rel: Relation)
    requires rel.BelongsTo?
    modifies q
    ensures q.State() == EnsureJoin(old(q.State()), q.model.table, rel)
  {
    var relatedTable := rel.related;
    var baseTable := q.model.table;
    var joins := q.joins;
    var i := 0;
    while i < |joins|
      invariant 0 <= i <= |joins|
      invariant forall k :: 0 <= k < i ==> joins[k].table != relatedTable
    {
      if joins[i].table == relatedTable {
        return;
      }
      i := i + 1;
    }
    q.LeftJoin(relatedTable, baseTable + "." + rel.foreignKey, relatedTable + "." + rel.ownerKey);
    if q.columns == [] {
      q.Select([baseTable + ".*"]);
    }
  }

  /** Two registrations of the same relation have the effect of one. */
  lemma EnsureJoinIdempotent(s: QueryState, base: string, rel: Relation)
    requires rel.BelongsTo?
    ensures EnsureJoin(EnsureJoin(s, base, rel), base, rel) == EnsureJoin(s, base, rel)
  {
  }

  /** A second relation to an already joined table, under any name or foreign key, adds no
      join: identity is the related table alone. */
  lemma JoinIdentityIsTable(s: QueryState, base: string, first: Relation, second: Relation)
    requires first.BelongsTo? && second.BelongsTo? && first.related == second.related
    ensures EnsureJoin(EnsureJoin(s, base, first), base, second) == EnsureJoin(s, base, first)
  {
  }

  /** The BelongsTo relation a dotted field's first segment names, if any: the fields the
      join pre-passes register a join for. */
  function JoinRelationOf(model: Model, field: string): (r: Option<Relation>)
    ensures r.Some? ==> '.' in field && r.value.BelongsTo?
    ensures r.Some? ==> SplitFirst(field, '.').0 in model.relations
                        && r.value == model.relations[SplitFirst(field, '.').0]
    ensures ('.' in field && SplitFirst(field, '.').0 in model.relations
             && model.relations[SplitFirst(field, '.').0].BelongsTo?) ==> r.Some?
  {
    if '.' in field then
      match GetRelationInstance(model, SplitFirst(field, '.').0)
      case Some(rel) => if rel.BelongsTo? then Some(rel) else None
      case None => None
    else None
  }

  /** One step of a join pre-pass: join the relation a dotted field starts with when it is
      a BelongsTo; leave every other field alone. */
  function JoinForField(s: QueryState, model: Model, field: string): QueryState {
    match JoinRelationOf(model, field)
    case Some(rel) => EnsureJoin(s, model.table, rel)
    case None => s
  }

  /** The body of the pre-pass loops of the filter and search translators. */
  method EnsureJoinForField(q: Builder, field: string)
    modifies q
    ensures q.State() == JoinForField(old(q.State()), q.model, field)
  {
    if '.' in field {
      var (relationName, _) := SplitFirst(field, '.');
      var relation := GetRelationInstance(q.model, relationName);
      if relation.Some? && relation.value.BelongsTo? {
        EnsureJoinExists(q, relation.value);
      }
    }
  }

  /** The join pre-pass of the search translator: one `JoinForField` per field, in order. */
  function JoinsForFields(s: QueryState, model: Model, fields: seq<string>): QueryState
    decreases |fields|
  {
    if fields == [] then s
    else JoinForField(JoinsForFields(s, model, fields[..|fields| - 1]), model, fields[|fields| - 1])
  }

  /** `join` is the BelongsTo join of one of the fields. */
  predicate JoinOfSomeField(join: Join, model: Model, fields: seq<string>) {
    exists k :: 0 <= k < |fields| && JoinRelationOf(model, fields[k]).Some?
                && join == BelongsToJoin(model.table, JoinRelationOf(model, fields[k]).value)
  }

  /** A join pre-pass only appends joins (and the base wildcard projection when nothing was
      selected): afterwards every field `relation.column` whose relation is a BelongsTo has
      a join on the related table, and every join it appended is the BelongsTo join of one
      of the fields. */
  lemma {:induction false} JoinsForFieldsShape(s: QueryState, model: Model, fields: seq<string>)
    ensures var r := JoinsForFields(s, model, fields);
      r.wheres == s.wheres && r.orders == s.orders
      && r.distinct == s.distinct && r.offset == s.offset && r.limit == s.limit
      && |s.joins| <= |r.joins| <= |s.joins| + |fields|
      && r.joins[..|s.joins|] == s.joins
      && (forall k :: 0 <= k < |fields| && JoinRelationOf(model, fields[k]).Some?
                      ==> HasJoinOn(r.joins, JoinRelationOf(model, fields[k]).value.related))
      && (forall j :: |s.joins| <= j < |r.joins| ==> JoinOfSomeField(r.joins[j], model, fields))
    decreases |fields|
  {
    if fields != [] {
      var init := fields[..|fields| - 1];
      var last := fields[|fields| - 1];
      JoinsForFieldsShape(s, model, init);
      var prev := JoinsForFields(s, model, init);
      var r := JoinsForFields(s, model, fields);
      assert r == JoinForField(prev, model, last);
      assert r.joins[..|prev.joins|] == prev.joins;
      assert r.joins[..|s.joins|] == prev.joins[..|s.joins|];
      forall k | 0 <= k < |fields| && JoinRelationOf(model, fields[k]).Some?
        ensures HasJoinOn(r.joins, JoinRelationOf(model, fields[k]).value.related)
      {
        if k < |init| {
          assert fields[k] == init[k];
          var t := JoinRelationOf(model, fields[k]).value.related;
          var j :| 0 <= j < |prev.joins| && prev.joins[j].table == t;
          assert r.joins[j] == prev.joins[j];
        }
      }
      forall j | |s.joins| <= j < |r.joins|
        ensures JoinOfSomeField(r.joins[j], model, fields)
      {
        if j < |prev.joins| {
          assert r.joins[j] == prev.joins[j];
          assert JoinOfSomeField(prev.joins[j], model, init);
          var k :| 0 <= k < |init| && JoinRelationOf(model, init[k]).Some?
                   && prev.joins[j] == BelongsToJoin(model.table, JoinRelationOf(model, init[k]).value);
          assert fields[k] == init[k];
        } else {
          var rel := JoinRelationOf(model, last).value;
          assert r.joins == prev.joins + [BelongsToJoin(model.table, rel)];
          assert r.joins[j] == BelongsToJoin(model.table, rel);
          assert fields[|fields| - 1] == last;
        }
      }
    }
  }

  /** A pre-pass over fields none of which is dotted changes nothing. */
  lemma {:induction false} NoDottedFieldsNoJoins(s: QueryState, model: Model, fields: seq<string>)
    requires forall k :: 0 <= k < |fields| ==> '.' !in fields[k]
    ensures JoinsForFields(s, model, fields) == s
    decreases |fields|
  {
    if fields != [] {
      var init := fields[..|fields| - 1];
      assert forall k :: 0 <= k < |init| ==> '.' !in init[k] by {
        forall k | 0 <= k < |init| ensures '.' !in init[k] {
          assert init[k] == fields[k];
        }
      }
      NoDottedFieldsNoJoins(s, model, init);
    }
  }
}
