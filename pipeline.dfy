/**
 * The result of processing a request (DataTablePipeline): the page of rows and the total
 * for the JSON answer, and everything an export needs, which `toExport` hands to the
 * custom export when one was given and to the bound default exporter otherwise.
 */
module Pipelines {
  import opened Wrappers
  import opened Query
  import opened Strings
  import opened Cells
  import opened Storage
  import opened Exports
  import opened CsvExporting
  import opened ExcelExporting
  import opened Requests

  /** The exporter the service container binds as the default: the service provider binds
      the spreadsheet exporter; the CSV exporter is the other implementation. */
  datatype DefaultExporter = Csv | Excel

  /** The JSON answer of `handle`: the page of rows and the unwindowed total. */
  datatype DataTableResult = DataTableResult(data: seq<Cell>, total: nat)

  /** The pipeline's read-only fields. The export query is a clone of the processed query,
      kept as its model, builder capability and state. */
  datatype Pipeline = Pipeline(
    data: seq<Cell>,
    total: nat,
    model: Model,
    hasOrderBySub: bool,
    exportQuery: QueryState,
    request: DataTableRequest,
    exporter: Option<ExportConfig>,
    defaultExporter: DefaultExporter,
    exportColumns: ColumnMap,
    mapRow: Option<Cell -> PhpArray>,
    fileName: Option<string>)

  /** `toJson`: the rows and the total as they are. */
  function ToJson(p: Pipeline): (r: DataTableResult)
    ensures r.data == p.data && r.total == p.total
  {
    DataTableResult(p.data, p.total)
  }

  /** The entries `mapRowUsingColumns` stores, in column order: the row's value at the
      attribute, under the heading. */
  function HeadingEntries(columns: seq<(string, string)>, row: Cell): (r: seq<(string, Cell)>)
    ensures |r| == |columns|
    ensures forall i :: 0 <= i < |columns| ==> r[i] == (columns[i].1, DataGet(row, columns[i].0))
  {
    seq(|columns|, i requires 0 <= i < |columns| => (columns[i].1, DataGet(row, columns[i].0)))
  }

  /** `mapRowUsingColumns`: the heading-keyed array those entries build. */
  function HeadingPayload(columns: seq<(string, string)>, row: Cell): PhpArray {
    PutAll([], HeadingEntries(columns, row))
  }

  /** The row mapper of the default export: the caller's, or the heading-keyed one. */
  function MapperOf(p: Pipeline): Cell -> PhpArray {
    if p.mapRow.Some? then p.mapRow.value else row => HeadingPayload(p.exportColumns, row)
  }

  /** `toExport`, with the clock's stamp for a custom export's file name and whether the CSV
      stream could open its output. */
  function ExportResponse(p: Pipeline, db: Database, stamp: string, handleOpened: bool): Response {
    if p.exporter.Some? then ToResponse(p.exporter.value, db, p.exportQuery, stamp)
    else
      var fileName := p.fileName.GetOr("export.csv");
      match p.defaultExporter
      case Csv => CsvDownload(CsvHeaders(fileName), CsvContent(db, p.exportQuery, p.model, p.exportColumns, MapperOf(p), handleOpened))
      case Excel => ExcelExport(p.exportQuery, p.exportColumns, MapperOf(p), fileName)
  }

  // ---------------------------------------------------------------------------------------
  // Properties

  /** A key that is no column's heading reads as null in the heading-keyed payload. */
  lemma HeadingPayloadAbsent(columns: seq<(string, string)>, row: Cell, h: string)
    requires forall i :: 0 <= i < |columns| ==> columns[i].1 != h
    ensures Lookup(HeadingPayload(columns, row), h) == CNull
  {
    PutAllAbsent([], HeadingEntries(columns, row), h);
  }

  /** A column whose heading no later column reuses has its attribute value under that
      heading: of two columns sharing a heading, the later one wins. */
  lemma HeadingPayloadLastWins(columns: seq<(string, string)>, row: Cell, i: nat)
    requires i < |columns|
    requires forall j :: i < j < |columns| ==> columns[j].1 != columns[i].1
    ensures Lookup(HeadingPayload(columns, row), columns[i].1) == DataGet(row, columns[i].0)
  {
    PutAllLastWins([], HeadingEntries(columns, row), i);
  }

  /** With distinct headings, the payload holds one entry per column, in column order, so
      its keys are the headings. */
  lemma HeadingPayloadOrder(columns: seq<(string, string)>, row: Cell)
    requires forall i, j :: 0 <= i < j < |columns| ==> columns[i].1 != columns[j].1
    ensures HeadingPayload(columns, row) == HeadingEntries(columns, row)
    ensures Keys(HeadingPayload(columns, row)) == Values(columns)
  {
    PutAllDistinct(HeadingEntries(columns, row));
  }

  /** Without a custom export or mapper, the spreadsheet exporter's row is the heading-keyed
      payload projected on the attributes. */
  lemma DefaultExcelRow(p: Pipeline, db: Database, stamp: string, handleOpened: bool, row: Cell)
    requires p.exporter.None? && p.mapRow.None? && p.defaultExporter == Excel
    ensures var r := ExportResponse(p, db, stamp, handleOpened);
      r.ExcelDownload?
      && r.sheet.mapRow(row) == Projected(Keys(p.exportColumns), HeadingPayload(p.exportColumns, row))
  {
  }

  /** The as-written composition of the heading-keyed mapper with the spreadsheet exporter's
      projection: the mapper keys its output by heading, the exporter reads it by attribute.
      Cell `i` is null whenever attribute `i` is not also a heading, and it is the row's
      attribute value when every column's heading is its attribute. */
  lemma HeadingProjection(columns: ColumnMap, row: Cell)
    requires UniqueKeys(columns)
    ensures var cells := Projected(Keys(columns), HeadingPayload(columns, row));
      |cells| == |columns|
      && (forall i :: 0 <= i < |columns| && (forall j :: 0 <= j < |columns| ==> columns[j].1 != columns[i].0)
                      ==> cells[i] == CNull)
      && ((forall i :: 0 <= i < |columns| ==> columns[i].1 == columns[i].0) ==>
            forall i :: 0 <= i < |columns| ==> cells[i] == DataGet(row, columns[i].0))
  {
    var cells := Projected(Keys(columns), HeadingPayload(columns, row));
    forall i | 0 <= i < |columns| && (forall j :: 0 <= j < |columns| ==> columns[j].1 != columns[i].0)
      ensures cells[i] == CNull
    {
      HeadingPayloadAbsent(columns, row, columns[i].0);
    }
    if forall i :: 0 <= i < |columns| ==> columns[i].1 == columns[i].0 {
      forall i | 0 <= i < |columns| ensures cells[i] == DataGet(row, columns[i].0) {
        forall j | i < j < |columns| ensures columns[j].1 != columns[i].1 {
          assert columns[j].0 != columns[i].0;
        }
        HeadingPayloadLastWins(columns, row, i);
      }
    }
  }

  /** A one-column export whose heading differs from its attribute exports an empty cell,
      even for a row that has a value under the attribute. */
  lemma KeyMismatchExample(p: Pipeline, db: Database, stamp: string, handleOpened: bool,
                           attribute: string, heading: string, v: Cell)
    requires p.exporter.None? && p.mapRow.None? && p.defaultExporter == Excel
    requires p.exportColumns == [(attribute, heading)] && heading != attribute && '.' !in attribute
    ensures var row := CMap([(attribute, v)]);
      DataGet(row, attribute) == v
      && ExportResponse(p, db, stamp, handleOpened).sheet.mapRow(row) == [CNull]
  {
    var row := CMap([(attribute, v)]);
    DataGetPlain([(attribute, v)], attribute);
    var columns := p.exportColumns;
    var cells := Projected(Keys(columns), HeadingPayload(columns, row));
    HeadingPayloadAbsent(columns, row, attribute);
    assert |cells| == 1 && cells[0] == CNull;
    assert cells == [CNull];
    DefaultExcelRow(p, db, stamp, handleOpened, row);
  }

  /** A custom export receives the export query itself, without the page's window; the
      request it is also handed is not read by the base export class. Without one, the default exporter gets the pipeline's columns, the
      caller's mapper when given, and `export.csv` when no file name was given; the
      spreadsheet exporter then downloads `export.csv.xlsx`. */
  lemma ExportDispatch(p: Pipeline, db: Database, stamp: string, handleOpened: bool)
    ensures var r := ExportResponse(p, db, stamp, handleOpened);
      (p.exporter.Some? ==> r == ToResponse(p.exporter.value, db, p.exportQuery, stamp)
                            && r.sheet.query == p.exportQuery)
      && (p.exporter.None? && p.mapRow.Some? ==> MapperOf(p) == p.mapRow.value)
      && (p.exporter.None? && p.defaultExporter == Excel ==>
            r.sheet.headings == Values(p.exportColumns)
            && r.file == (if p.fileName.Some? then NormalizeXlsx(p.fileName.value) else "export.csv.xlsx"))
      && (p.exporter.None? && p.defaultExporter == Csv ==>
            r.headers == CsvHeaders(p.fileName.GetOr("export.csv")))
  {
    if p.exporter.None? && p.defaultExporter == Excel && p.fileName.None? {
      assert !EndsWith("export.csv", ".xlsx") by {
        assert "export.csv"[5..] == "t.csv";
        assert "t.csv" != ".xlsx" by { assert "t.csv"[0] != ".xlsx"[0]; }
      }
    }
  }

  // ---------------------------------------------------------------------------------------
  // The pipeline's operations as written

  /** The heading-keyed mapper's loop. */
  method MapRowUsingColumns(columns: seq<(string, string)>, row: Cell) returns (payload: PhpArray)
    ensures payload == HeadingPayload(columns, row)
  {
    ghost var entries := HeadingEntries(columns, row);
    payload := [];
    var i := 0;
    while i < |columns|
      invariant 0 <= i <= |columns|
      invariant payload == PutAll([], entries[..i])
    {
      var (attribute, heading) := columns[i];
      assert entries[..i + 1][..i] == entries[..i];
      payload := Put(payload, heading, DataGet(row, attribute));
      i := i + 1;
    }
    assert entries[..i] == entries;
  }

  /** `toExport`. The export query is cloned into a fresh builder for the CSV exporter, so
      the pipeline's own query is never touched. */
  method ToExport(p: Pipeline, db: Database, stamp: string, handleOpened: bool) returns (r: Response)
    ensures r == ExportResponse(p, db, stamp, handleOpened)
  {
    if p.exporter.Some? {
      return ToResponse(p.exporter.value, db, p.exportQuery, stamp);
    }
    var mapRow := MapperOf(p);
    var fileName := if p.fileName.Some? then p.fileName.value else "export.csv";
    match p.defaultExporter {
      case Csv =>
        var query := new Builder(p.model, p.hasOrderBySub, p.exportQuery);
        r := Export(query, db, p.exportColumns, mapRow, fileName, handleOpened);
      case Excel =>
        r := ExcelExport(p.exportQuery, p.exportColumns, mapRow, fileName);
    }
  }
}
