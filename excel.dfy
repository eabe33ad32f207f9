/**
 * The spreadsheet exporter (LaravelExcelExporter): the headings are the column map's
 * values, each sheet row holds the mapped row's values under the column map's keys, in
 * key order, and the file name is made to end in `.xlsx`.
 */
module ExcelExporting {
  import opened Wrappers
  import opened Query
  import opened Strings
  import opened Cells
  import opened Exports

  /** The download name: the given name when it already ends in `.xlsx`, the name with
      `.xlsx` appended otherwise. */
  function NormalizeXlsx(name: string): (r: string)
    ensures EndsWith(r, ".xlsx")
    ensures EndsWith(name, ".xlsx") ==> r == name
    ensures !EndsWith(name, ".xlsx") ==> r == name + ".xlsx"
  {
    if EndsWith(name, ".xlsx") then name
    else
      var r := name + ".xlsx";
      assert r[|r| - 5..] == ".xlsx";
      r
  }

  /** The sheet row for a mapped row: entry `i` is the mapped value under the `i`-th key,
      or null when the mapped row has no such key. */
  function Projected(keys: seq<string>, mapped: PhpArray): (r: seq<Cell>)
    ensures |r| == |keys| && forall i :: 0 <= i < |keys| ==> r[i] == Lookup(mapped, keys[i])
  {
    seq(|keys|, i requires 0 <= i < |keys| => Lookup(mapped, keys[i]))
  }

  /** `export`: the spreadsheet download of the query's rows. */
  function ExcelExport(s: QueryState, columns: ColumnMap, mapRow: Cell -> PhpArray, fileName: string): (r: Response)
    ensures r.ExcelDownload? && r.sheet.query == s && r.sheet.headings == Values(columns)
    ensures forall row :: r.sheet.mapRow(row) == Projected(Keys(columns), mapRow(row))
    ensures r.file == NormalizeXlsx(fileName)
  {
    var keys := Keys(columns);
    ExcelDownload(QueryExport(s, Values(columns), row => Projected(keys, mapRow(row))), NormalizeXlsx(fileName))
  }

  // ---------------------------------------------------------------------------------------
  // Properties

  /** Normalising a normalised name changes nothing. */
  lemma NormalizeXlsxIdempotent(name: string)
    ensures NormalizeXlsx(NormalizeXlsx(name)) == NormalizeXlsx(name)
  {
  }

  /** Only the column keys of a mapped row matter: two mapped rows that agree on every
      column key give the same sheet row, whatever other keys they hold. */
  lemma ProjectionIgnoresOtherKeys(keys: seq<string>, a: PhpArray, b: PhpArray)
    requires forall i :: 0 <= i < |keys| ==> Lookup(a, keys[i]) == Lookup(b, keys[i])
    ensures Projected(keys, a) == Projected(keys, b)
  {
  }

  /** A mapped row keyed by the column keys themselves, in their order, is exported entry for
      entry. */
  lemma ProjectionOfKeyedRow(keys: seq<string>, mapped: PhpArray)
    requires UniqueKeys(mapped) && Keys(mapped) == keys
    ensures Projected(keys, mapped) == Values(mapped)
  {
    forall i | 0 <= i < |keys| ensures Projected(keys, mapped)[i] == Values(mapped)[i] {
      UniqueIndex(mapped, keys[i], i);
    }
  }

  // ---------------------------------------------------------------------------------------
  // The row projector as written

  /** The row closure's loop: one value per key, appended in key order. */
  method ProjectRow(keys: seq<string>, mapped: PhpArray) returns (values: seq<Cell>)
    ensures values == Projected(keys, mapped)
  {
    values := [];
    var i := 0;
    while i < |keys|
      invariant 0 <= i <= |keys|
      invariant values == Projected(keys[..i], mapped)
    {
      values := values + [Lookup(mapped, keys[i])];
      i := i + 1;
    }
    assert keys[..i] == keys;
  }
}
