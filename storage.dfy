/**
 * The database as the exporters and the manager see it. SQL execution is outside the
 * model: a database is the list of rows a query selects, in the order its orderings
 * give, and the number its `count()` reports. Offset and limit cut a window out of the
 * selected rows, so paging through an ordered query reads its rows in order.
 */
module Storage {
  import opened Wrappers
  import opened Query
  import opened Cells

  datatype Database = Database(select: QueryState -> seq<Cell>, count: QueryState -> nat)

  function Min(a: int, b: int): int { if a <= b then a else b }

  /** The rows from position `offset` on, at most `limit` of them. */
  function Window(all: seq<Cell>, offset: Option<nat>, limit: Option<nat>): (r: seq<Cell>)
    ensures var from := Min(offset.GetOr(0), |all|);
      |r| == (if limit.Some? then Min(limit.value, |all| - from) else |all| - from)
      && r == all[from..from + |r|]
  {
    var from := Min(offset.GetOr(0), |all|);
    var rest := all[from..];
    if limit.Some? && limit.value < |rest| then rest[..limit.value] else rest
  }

  /** `get()`: the rows of the unwindowed query, windowed by the query's offset and limit. */
  function Get(db: Database, s: QueryState): seq<Cell> {
    Window(db.select(s.(offset := None, limit := None)), s.offset, s.limit)
  }
}
