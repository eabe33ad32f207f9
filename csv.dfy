/**
 * The CSV exporter (CsvExporter): a streamed download whose stream writes the heading
 * record and then one `;`-separated record per row, reading the query in chunks of 1000
 * rows in primary-key order.
 */
module CsvExporting {
  import opened Wrappers
  import opened Query
  import opened Cells
  import opened Storage
  import opened Exports

  const ChunkSize: nat := 1000

  /** The response headers: the CSV content type and an attachment with the file name. */
  function CsvHeaders(fileName: string): seq<(string, string)> {
    [("Content-Type", "text/csv; charset=UTF-8"),
     ("Content-Disposition", "attachment; filename=\"" + fileName + "\"")]
  }

  /** The record of one mapped row: its values stringified, in order. */
  function Record(mapped: PhpArray): (r: seq<string>)
    ensures |r| == |mapped| && forall i :: 0 <= i < |r| ==> r[i] == Stringify(mapped[i].1)
  {
    seq(|mapped|, i requires 0 <= i < |mapped| => Stringify(mapped[i].1))
  }

  /** One record per row, in row order. */
  function RowRecords(rows: seq<Cell>, mapRow: Cell -> PhpArray): (r: seq<seq<string>>)
    ensures |r| == |rows| && forall i :: 0 <= i < |r| ==> r[i] == Record(mapRow(rows[i]))
  {
    seq(|rows|, i requires 0 <= i < |rows| => Record(mapRow(rows[i])))
  }

  /** The query the stream reads: the export query further ordered by the qualified
      primary key, after the orderings it already has. */
  function ExportOrder(s: QueryState, model: Model): QueryState {
    AddOrder(s, Column(model.table + "." + model.keyName, Asc))
  }

  /** Everything the stream writes: nothing when the output handle cannot be opened;
      otherwise the heading record followed by one record per row of the ordered query. */
  function CsvContent(db: Database, s: QueryState, model: Model, columns: ColumnMap, mapRow: Cell -> PhpArray, handleOpened: bool): (r: seq<seq<string>>)
    ensures r == [] <==> !handleOpened
    ensures handleOpened ==> r[0] == Values(columns)
  {
    if !handleOpened then []
    else [Values(columns)] + RowRecords(db.select(ExportOrder(s, model).(offset := None, limit := None)), mapRow)
  }

  // ---------------------------------------------------------------------------------------
  // Properties

  /** The heading record comes first and holds the headings in column order; after it, the
      `k`-th record belongs to the `k`-th row in primary-key order (after the caller's
      orderings); no row yields more or fewer than one record. */
  lemma CsvRecordSequence(db: Database, s: QueryState, model: Model, columns: ColumnMap, mapRow: Cell -> PhpArray)
    ensures var all := db.select(ExportOrder(s, model).(offset := None, limit := None));
      var rs := CsvContent(db, s, model, columns, mapRow, true);
      |rs| == |all| + 1 && rs[0] == Values(columns)
      && forall k :: 0 <= k < |all| ==> rs[k + 1] == Record(mapRow(all[k]))
    ensures ExportOrder(s, model).orders == s.orders + [Column(model.table + "." + model.keyName, Asc)]
    ensures ExportOrder(s, model).wheres == s.wheres && ExportOrder(s, model).joins == s.joins
  {
  }

  // ---------------------------------------------------------------------------------------
  // The exporter on the mutable builder

  /** The rows of the ordered query from position `done` on, at most one chunk of them:
      what `forPage($page, 1000)->get()` returns. */
  lemma PageWindow(all: seq<Cell>, done: nat)
    requires done <= |all|
    ensures var page := Window(all, Some(done), Some(ChunkSize));
      page == all[done..done + |page|]
      && (page == [] <==> done == |all|)
      && (|page| < ChunkSize ==> done + |page| == |all|)
  {
  }

  /** The records of consecutive rows are the records of each part, one after the other. */
  lemma RowRecordsAppend(a: seq<Cell>, b: seq<Cell>, mapRow: Cell -> PhpArray)
    ensures RowRecords(a + b, mapRow) == RowRecords(a, mapRow) + RowRecords(b, mapRow)
  {
    var l, r := RowRecords(a + b, mapRow), RowRecords(a, mapRow) + RowRecords(b, mapRow);
    forall i | 0 <= i < |l| ensures l[i] == r[i] {
      if i < |a| {
        assert (a + b)[i] == a[i];
      } else {
        assert (a + b)[i] == b[i - |a|];
      }
    }
  }

  /** The chunk callback's loop: one record per row of the chunk, written after the
      records already written. */
  method WriteRecords(records: seq<seq<string>>, chunk: seq<Cell>, mapRow: Cell -> PhpArray)
    returns (written: seq<seq<string>>)
    ensures written == records + RowRecords(chunk, mapRow)
  {
    written := records;
    var j := 0;
    while j < |chunk|
      invariant 0 <= j <= |chunk|
      invariant written == records + RowRecords(chunk[..j], mapRow)
    {
      written := written + [Record(mapRow(chunk[j]))];
      j := j + 1;
    }
    assert chunk[..j] == chunk;
  }

  /** `export`, with the streaming callback run to completion; `handleOpened` says whether
      `fopen('php://output')` succeeded. The query it is given is ordered by the primary key
      only once the handle is open. Laravel's `chunk` also leaves the last page's offset and
      limit on that builder; the model does not keep them, since the builder is a clone that
      is discarded after the export. */
  method Export(q: Builder, db: Database, columns: ColumnMap, mapRow: Cell -> PhpArray, fileName: string, handleOpened: bool)
    returns (r: Response)
    modifies q
    ensures q.State() == if handleOpened then ExportOrder(old(q.State()), q.model) else old(q.State())
    ensures r == CsvDownload(CsvHeaders(fileName), CsvContent(db, old(q.State()), q.model, columns, mapRow, handleOpened))
  {
    var records: seq<seq<string>> := [];
    if handleOpened {
      q.OrderBy(Column(q.model.table + "." + q.model.keyName, Asc));
      records := Stream(q, db, Values(columns), mapRow);
    }
    r := CsvDownload(CsvHeaders(fileName), records);
  }

  /** One chunk read at offset `done`: the rows from `done` on, at most a chunk of them; the
      last chunk is the one shorter than a chunk; the records so far extend by its rows. */
  lemma ChunkStep(all: seq<Cell>, done: nat, records: seq<seq<string>>, headers: seq<string>, mapRow: Cell -> PhpArray)
    requires done <= |all|
    requires records == [headers] + RowRecords(all[..done], mapRow)
    ensures var chunk := Window(all, Some(done), Some(ChunkSize));
      done + |chunk| <= |all|
      && (chunk == [] <==> done == |all|)
      && (|chunk| < ChunkSize ==> done + |chunk| == |all|)
      && records + RowRecords(chunk, mapRow) == [headers] + RowRecords(all[..done + |chunk|], mapRow)
  {
    var chunk := Window(all, Some(done), Some(ChunkSize));
    PageWindow(all, done);
    RowRecordsAppend(all[..done], chunk, mapRow);
    assert all[..done] + chunk == all[..done + |chunk|];
  }

  /** The stream callback: the heading record, then the rows chunk by chunk, each chunk the
      next page of the ordered query, until a chunk comes back short. */
  method Stream(q: Builder, db: Database, headers: seq<string>, mapRow: Cell -> PhpArray)
    returns (records: seq<seq<string>>)
    ensures records == [headers] + RowRecords(db.select(q.State().(offset := None, limit := None)), mapRow)
  {
    records := [headers];
    ghost var all := db.select(q.State().(offset := None, limit := None));
    var page: nat := 1;
    var more := true;
    ghost var done: nat := 0;
    while more
      invariant done <= |all|
      invariant records == [headers] + RowRecords(all[..done], mapRow)
      invariant more ==> done == (page - 1) * ChunkSize
      invariant !more ==> done == |all|
      decreases if more then |all| - done + 1 else 0
    {
      var chunk := Get(db, q.State().(offset := Some((page - 1) * ChunkSize), limit := Some(ChunkSize)));
      ChunkStep(all, done, records, headers, mapRow);
      if chunk == [] {
        more := false;
      } else {
        records := WriteRecords(records, chunk, mapRow);
        done := done + |chunk|;
        page := page + 1;
        more := |chunk| == ChunkSize;
      }
    }
    assert all[..done] == all;
  }

}
