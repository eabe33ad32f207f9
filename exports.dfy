/**
 * What the exporters share: the column map of an export (attribute => heading), the
 * spreadsheet export object handed to the Excel library, the responses an export
 * produces, and the base class of custom exports (BaseDataTableExport), which decides
 * between queueing the export and downloading it at once.
 */
module Exports {
  import opened Wrappers
  import opened Query
  import opened Cells
  import opened Storage

  /** `array<string, string>` of attribute => heading, in the caller's order. */
  type ColumnMap = seq<(string, string)>

  /** The export object the Excel library reads (DataTableQueryExport): the query whose
      rows it exports, the heading row, and the function giving one sheet row per query
      row (already passed through `array_values`). */
  datatype QueryExport = QueryExport(query: QueryState, headings: seq<string>, mapRow: Cell -> seq<Cell>)

  /** The sheet an export object yields: one mapped row per row of its query. */
  function SheetRows(db: Database, e: QueryExport): (r: seq<seq<Cell>>)
    ensures var rows := Get(db, e.query);
      |r| == |rows| && forall i :: 0 <= i < |r| ==> r[i] == e.mapRow(rows[i])
  {
    var rows := Get(db, e.query);
    seq(|rows|, i requires 0 <= i < |rows| => e.mapRow(rows[i]))
  }

  /** The response of an export: a queued spreadsheet export (a JSON body with a message
      and the file name, status 202), a spreadsheet download, or a streamed CSV download
      with its response headers and the records the stream writes. */
  datatype Response =
    | Queued(sheet: QueryExport, file: string, message: string)
    | ExcelDownload(sheet: QueryExport, file: string)
    | CsvDownload(headers: seq<(string, string)>, records: seq<seq<string>>)

  function Status(r: Response): nat {
    if r.Queued? then 202 else 200
  }

  /** The JSON body of a queued export. */
  function QueuedBody(r: Response): PhpArray
    requires r.Queued?
  {
    [("message", CStr(r.message)), ("file", CStr(r.file))]
  }

  /** The translation key of the queued-export message, returned as is when no translation
      exists. */
  const QueuedMessage: string := "Export i\U{015F}lemi kuyru\U{011F}a al\U{0131}nd\U{0131}."

  /** A custom export, a subclass of BaseDataTableExport: its queue settings, its heading
      row, its row mapper, and the file name it returns when it overrides `fileName()`. */
  datatype ExportConfig = ExportConfig(
    queueThreshold: int,
    forceQueue: bool,
    headings: seq<string>,
    mapRow: Cell -> PhpArray,
    fileName: Option<string>)

  const DefaultQueueThreshold: int := 10000

  /** A subclass that overrides only `headings()` and `mapRow()`. */
  function WithDefaults(headings: seq<string>, mapRow: Cell -> PhpArray): ExportConfig {
    ExportConfig(DefaultQueueThreshold, false, headings, mapRow, None)
  }

  /** `fileName()`: `export-<stamp>.xlsx`, where the clock's `Ymd_His` rendering is passed
      in as `stamp`, unless the subclass overrides it. */
  function FileName(cfg: ExportConfig, stamp: string): (r: string)
    ensures cfg.fileName.Some? ==> r == cfg.fileName.value
    ensures cfg.fileName.None? ==>
      |r| == |stamp| + 12 && r[..7] == "export-" && r[7..|r| - 5] == stamp && r[|r| - 5..] == ".xlsx"
  {
    cfg.fileName.GetOr("export-" + stamp + ".xlsx")
  }

  /** `shouldQueue`, given the row count of the query. */
  function ShouldQueue(cfg: ExportConfig, count: nat): bool {
    if cfg.forceQueue then true
    else if cfg.queueThreshold <= 0 then false
    else count > cfg.queueThreshold
  }

  /** The export object `toResponse` builds over (a clone of) the query. */
  function ExportOf(cfg: ExportConfig, s: QueryState): (e: QueryExport)
    ensures e.query == s && e.headings == cfg.headings
    ensures forall row :: e.mapRow(row) == Values(cfg.mapRow(row))
  {
    QueryExport(s, cfg.headings, row => Values(cfg.mapRow(row)))
  }

  /** `toResponse`: queue the export when `shouldQueue` says so, download it otherwise. */
  function ToResponse(cfg: ExportConfig, db: Database, s: QueryState, stamp: string): (r: Response)
    ensures Status(r) == 202 <==> ShouldQueue(cfg, db.count(s))
    ensures r.Queued? || r.ExcelDownload?
    ensures r.sheet == ExportOf(cfg, s) && r.file == FileName(cfg, stamp)
    ensures r.Queued? ==> QueuedBody(r) == [("message", CStr(QueuedMessage)), ("file", CStr(FileName(cfg, stamp)))]
  {
    var sheet := ExportOf(cfg, s);
    var file := FileName(cfg, stamp);
    if ShouldQueue(cfg, db.count(s)) then Queued(sheet, file, QueuedMessage)
    else ExcelDownload(sheet, file)
  }

  // ---------------------------------------------------------------------------------------
  // Properties

  /** A forced export is queued whatever its size; with the threshold switched off (zero or
      less) an unforced export never is; otherwise it is queued exactly when it has more
      rows than the threshold, so an export of exactly the threshold runs at once. */
  lemma QueueDecision(cfg: ExportConfig, count: nat)
    ensures cfg.forceQueue ==> ShouldQueue(cfg, count)
    ensures !cfg.forceQueue && cfg.queueThreshold <= 0 ==> !ShouldQueue(cfg, count)
    ensures !cfg.forceQueue && cfg.queueThreshold > 0 ==> (ShouldQueue(cfg, count) <==> count > cfg.queueThreshold)
    ensures !cfg.forceQueue ==> !ShouldQueue(cfg, if cfg.queueThreshold > 0 then cfg.queueThreshold as nat else count)
  {
  }

  /** A larger export is queued whenever a smaller one is. */
  lemma QueueMonotone(cfg: ExportConfig, count: nat, larger: nat)
    requires count <= larger && ShouldQueue(cfg, count)
    ensures ShouldQueue(cfg, larger)
  {
  }

  /** With the defaults, up to 10000 rows download at once and anything more is queued. */
  lemma DefaultQueueThresholdIs10000(headings: seq<string>, mapRow: Cell -> PhpArray, count: nat)
    ensures ShouldQueue(WithDefaults(headings, mapRow), count) <==> count > 10000
  {
  }
}
