# Laravel DataTable kit: request-to-query translation

This project models the engine of the Laravel DataTable kit. A table request arrives as a service-level request, a validated form request or a raw array. It carries:

- a window (`first`, `rows`);
- a sort field and order;
- a global search term;
- per-field filter constraints.

The engine normalises the request and rewrites the caller's Eloquent query in a fixed order: the global search, then the filters, then the sort. It counts the matching rows and reads one page of them. The result is a pipeline, which answers as JSON (page and total) or as an export: a custom export built on the base export class (a queued or downloaded spreadsheet), the bound spreadsheet exporter, or the streamed CSV exporter.

The model is built from these parts:

- **The query.** The query builder is the class `Query.Builder`. Its fields are the where-clauses, joins, orderings, selected columns, `distinct`, offset and limit. It has a constant model: the table, the primary key, the class name and the relation methods. Each translator is a pure function on the builder's snapshot (`QueryState`). An imperative method on the builder is proved to produce exactly that snapshot. A nested `where(function ($nested) ...)` is a fresh builder, and only its where-clauses are kept, as Laravel keeps them.
- **The database.** SQL execution is outside the model. A database is given by two functions: the rows an unwindowed query selects, in the order its orderings give, and the number `count()` reports. Offset and limit cut a window out of the selected rows.
- **Rows and arrays.** Rows and mapped rows are cell values. PHP's ordered arrays are sequences of key–value entries.
- **CSV output.** The CSV stream is the sequence of records it writes.

The model follows the code as written, except where "## Left out" says otherwise, including these behaviours:

- The alias helper `getJoinAlias` that the BelongsTo filter and search call is not part of this model. The alias is taken to be the related table's name, which is also the name under which the join is registered.
- The direct-column `switch` of `applyMatchMode` has two `notContains` cases. The second, with the operator `" not like"`, can never run.
- `between` and `in` always use `whereBetween`/`whereIn`, so they are AND-combined even under the `or` operator.
- A BelongsTo filter registers its join on the nested scope, where it is dropped. Every join of the outer query comes from the pre-pass.
- The sort sub-query for a BelongsToMany relation joins the related and pivot tables on the `relatedPivotKey` column on both sides.
- An undotted sort field is ordered by as given, without the base-table prefix that filters and search add.
- The row count of a joined query selects the hard-coded column `<table>.id`, whatever the primary key is called.
- The pipeline's default row mapper keys its output by column heading. The spreadsheet exporter reads the mapped row by attribute key. So a column whose heading differs from its attribute exports an empty cell. Without a file name, the spreadsheet exporter downloads `export.csv.xlsx`.
- `process` resolves the custom exporter only after it has rewritten the caller's query. An exporter that fails to resolve therefore leaves that query filtered and sorted.

## Model

| member | source | states |
|---|---|---|
| Strings.SplitFirst | src/Services/DataTable/Operations/FilterApplier.php:33 | `explode('.', $field, 2)`: the head holds no separator, and head, separator and tail rebuild the field |
| Strings.Explode | src/Services/DataTable/DataTablePipeline.php:76 | splitting at every dot gives one more piece than there are dots, none holding a dot |
| Strings.RemoveAll | src/Services/DataTable/Operations/FilterApplier.php:71 | `str_replace('_count', '', $field)` never lengthens the field |
| Strings.RemoveAllAbsent | src/Services/DataTable/Operations/FilterApplier.php:71 | a field without `_count` is left as it is |
| Strings.RemoveAllSplit | src/Services/DataTable/Operations/FilterApplier.php:71 | a pattern whose first character does not recur in it is removed on both sides of one occurrence independently: no occurrence overlaps it |
| Strings.RemoveCountSplit | src/Services/DataTable/Operations/FilterApplier.php:71 | `str_replace('_count', '', ...)` on `a_countb` is the replacement on `a` followed by the one on `b`, whatever `a` and `b` hold |
| Strings.RemoveCountSuffix | src/Services/DataTable/Operations/FilterApplier.php:70-72 | a `_count` field whose relation name holds no other `_count` yields exactly that relation name |
| Strings.IntStringRoundTrip | src/Services/DataTable/Export/CsvExporter.php:71 | writing an integer in decimal and casting it back with `(int)` gives the same integer |
| Query.Builder.Clone | src/Services/DataTable/DataTableManager.php:169 | a clone is a fresh builder on the same model with the same state |
| Query.Builder.Skip | src/Services/DataTable/DataTableManager.php:116 | `skip($n)` sets the offset to `max(0, $n)` and changes nothing else |
| Query.Builder.Take | src/Services/DataTable/DataTableManager.php:117 | `take($n)` sets the limit for `$n >= 0` and ignores a negative one |
| Query.Builder.Select | src/Services/DataTable/DataTableManager.php:176 | `select` replaces the projection and nothing else |
| Query.Builder.Distinct | src/Services/DataTable/DataTableManager.php:179 | `distinct()` sets the flag and nothing else |
| Query.Builder.Where | src/Services/DataTable/Operations/FilterApplier.php:151 | `where`/`orWhere` append one where-clause after the existing ones and change nothing else |
| Query.Builder.LeftJoin | src/Services/DataTable/Operations/Concerns/ResolvesRelations.php:40-45 | `leftJoin` appends one left join after the existing ones |
| Query.Builder.OrderBy | src/Services/DataTable/Operations/Sorter.php:28 | an ordering is appended after the existing ones |
| Query.Builder.WhereNested | src/Services/DataTable/Operations/FilterApplier.php:51-53 | a nested where adds its group only when the group received clauses |
| Cells.Put | src/Services/DataTable/DataTablePipeline.php:76 | after `$a[$k] = $v`, a lookup of `$k` gives `$v` |
| Cells.PutOther | src/Services/DataTable/DataTablePipeline.php:76 | storing under one key leaves every other key's value as it was |
| Cells.PutKeys | src/Services/DataTable/DataTablePipeline.php:76 | an existing key keeps its position; a new key goes last |
| Cells.PutAllLastWins | src/Services/DataTable/DataTablePipeline.php:75-77 | of several entries stored under one key, the last one is the key's value |
| Cells.PutAllDistinct | src/Services/DataTable/DataTablePipeline.php:75-77 | storing entries with distinct keys into an empty array gives exactly those entries, in order |
| Cells.DataGetPlain | src/Services/DataTable/DataTablePipeline.php:76 | `data_get` of an undotted attribute on a row is the plain lookup of that key |
| Cells.ListIndex | src/Services/DataTable/DataTablePipeline.php:76 | a path segment selects list position `n` only when it is the decimal text of `n` |
| Cells.ListIndexOfNat | src/Services/DataTable/DataTablePipeline.php:76 | the decimal text of every position selects that position |
| Cells.DataGetListItem | src/Services/DataTable/DataTablePipeline.php:76 | `data_get($row, 'key.n')` on a list stored under `key` gives the list's item `n` |
| Cells.UnescapeEscape | src/Services/DataTable/Export/CsvExporter.php:67-69 | the JSON string escaping of array values is lossless: unescaping restores the string |
| Cells.EscapeIsSafe | src/Services/DataTable/Export/CsvExporter.php:67-69 | escaped JSON text holds no control character and no Unicode line terminator |
| Cells.EscapeChar | src/Services/DataTable/Export/CsvExporter.php:67-69 | a character is written as itself exactly when it is no control character, quote, backslash, slash or Unicode line terminator: non-ASCII text stays unescaped, as `JSON_UNESCAPED_UNICODE` asks |
| Cells.EscapeVerbatim | src/Services/DataTable/Export/CsvExporter.php:67-69 | text made only of such characters is written unchanged |
| Cells.JsonEncode | src/Services/DataTable/Export/CsvExporter.php:67-69 | the JSON text is never empty; a list is a bracketed array, a non-empty keyed array a braced object and an empty one `[]`, a string or date a quoted string |
| Cells.JsonEncodeList | src/Services/DataTable/Export/CsvExporter.php:67-69 | a list is written as the JSON texts of its items, in order, comma-separated in brackets; an empty one as `[]` |
| Cells.JsonEncodeMap | src/Services/DataTable/Export/CsvExporter.php:67-69 | a non-empty keyed array is written as its `"key":value` members, in order, comma-separated in braces; an empty one as `[]` |
| Cells.StringifyScalars | src/Services/DataTable/Export/CsvExporter.php:57-72 | booleans become `1`/`0`, integers decimal text that `(int)` reads back, strings stay, null becomes empty |
| Cells.StringifyStringList | src/Services/DataTable/Export/CsvExporter.php:57-72 | an array is written as its JSON text: a list of one string needing no escape is that string, quoted, in brackets |
| Storage.Window | src/Services/DataTable/DataTableManager.php:114-118 | the page is the contiguous run of selected rows from the offset on, at most `limit` long |
| Exports.SheetRows | src/Services/DataTable/Export/Support/DataTableQueryExport.php:28-42 | an export object's sheet has one mapped row per row of its query, in order |
| Exports.ExportOf | src/Export/BaseDataTableExport.php:28-32 | the export object holds the query, the export's headings and its mapper passed through `array_values` |
| Exports.ToResponse | src/Export/BaseDataTableExport.php:26-46 | the answer is 202 (queued, with the message and file name) exactly when `shouldQueue` holds, otherwise a download; both carry the export object and `fileName()` |
| Exports.QueueDecision | src/Export/BaseDataTableExport.php:63-76 | forced exports always queue; a threshold of 0 or less never queues; otherwise queue exactly above the threshold, not at it |
| Exports.QueueMonotone | src/Export/BaseDataTableExport.php:63-76 | a larger export is queued whenever a smaller one is |
| Exports.DefaultQueueThresholdIs10000 | src/Export/BaseDataTableExport.php:19-24 | with the defaults, an export is queued exactly when it has more than 10000 rows |
| Exports.FileName | src/Export/BaseDataTableExport.php:58-61 | without an override the name is `export-`, the clock's stamp and `.xlsx`; an override is used as it is |
| CsvExporting.Record | src/Services/DataTable/Export/CsvExporter.php:40-41 | a row's record is its mapped values stringified, in order |
| CsvExporting.RowRecords | src/Services/DataTable/Export/CsvExporter.php:39-42 | one record per row, in row order |
| CsvExporting.CsvContent | src/Services/DataTable/Export/CsvExporter.php:28-46 | nothing is written exactly when the output cannot be opened; otherwise the heading record comes first |
| CsvExporting.CsvRecordSequence | src/Services/DataTable/Export/CsvExporter.php:35-43 | the heading record comes first; record `k+1` is row `k` of the query ordered additionally by the qualified primary key |
| CsvExporting.PageWindow | src/Services/DataTable/Export/CsvExporter.php:37-38 | a chunk is the next run of at most 1000 ordered rows; it is empty only at the end, and a short chunk is the last |
| CsvExporting.WriteRecords | src/Services/DataTable/Export/CsvExporter.php:38-43 | the chunk callback appends one record per row of the chunk |
| CsvExporting.Stream | src/Services/DataTable/Export/CsvExporter.php:28-46 | chunking writes the heading record and then exactly the records of all rows of the ordered query, each once, in order |
| CsvExporting.Export | src/Services/DataTable/Export/CsvExporter.php:20-55 | the response carries the CSV headers and the records; nothing is written when the handle cannot be opened, and the query gains the key ordering only when it can |
| ExcelExporting.NormalizeXlsx | src/Services/DataTable/Export/LaravelExcelExporter.php:44 | the download name ends in `.xlsx`; a name that already does is kept, any other gets `.xlsx` appended |
| ExcelExporting.NormalizeXlsxIdempotent | src/Services/DataTable/Export/LaravelExcelExporter.php:44 | normalising a normalised name changes nothing |
| ExcelExporting.Projected | src/Services/DataTable/Export/LaravelExcelExporter.php:31-41 | a sheet row has one cell per column key: the mapped value under the key, or null |
| ExcelExporting.ProjectRow | src/Services/DataTable/Export/LaravelExcelExporter.php:34-40 | the row closure's loop computes that projection |
| ExcelExporting.ProjectionIgnoresOtherKeys | src/Services/DataTable/Export/LaravelExcelExporter.php:36-38 | mapped rows that agree on the column keys give the same sheet row |
| ExcelExporting.ProjectionOfKeyedRow | src/Services/DataTable/Export/LaravelExcelExporter.php:31-41 | a mapped row keyed by the column keys, in order, is exported entry for entry |
| ExcelExporting.ExcelExport | src/Services/DataTable/Export/LaravelExcelExporter.php:19-47 | a download of the query with the headings, the projected rows and the normalised name |
| Relations.GetRelationInstance | src/Services/DataTable/Operations/Concerns/ResolvesRelations.php:14-24 | the relation is found exactly when the name is a relation of the model; unknown names never fail |
| Relations.BelongsToJoin | src/Services/DataTable/Operations/Concerns/ResolvesRelations.php:40-45 | the registered join is on the related table, base foreign key against related owner key: the same key pair the relation's correlation names |
| Relations.EnsureJoin | src/Services/DataTable/Operations/Concerns/ResolvesRelations.php:26-51 | afterwards the related table is joined; an existing join changes nothing; otherwise exactly the BelongsTo left join is appended, and a query that selected nothing then selects `<base>.*` |
| Relations.EnsureJoinExists | src/Services/DataTable/Operations/Concerns/ResolvesRelations.php:26-51 | the scan-then-join method leaves exactly that state |
| Relations.EnsureJoinIdempotent | src/Services/DataTable/Operations/Concerns/ResolvesRelations.php:33-38 | registering a relation twice has the effect of once |
| Relations.JoinIdentityIsTable | src/Services/DataTable/Operations/Concerns/ResolvesRelations.php:33-38 | a second relation to an already joined table adds no join, whatever its keys |
| Relations.JoinRelationOf | src/Services/DataTable/Operations/FilterApplier.php:32-38 | a field names a join relation exactly when it is dotted and its first segment is a BelongsTo relation |
| Relations.EnsureJoinForField | src/Services/DataTable/Operations/FilterApplier.php:32-38 | one pre-pass step joins exactly a dotted field's BelongsTo relation |
| Relations.JoinsForFieldsShape | src/Services/DataTable/Operations/GlobalSearchApplier.php:31-42 | a pre-pass keeps the earlier joins, adds at most one per field, joins every BelongsTo field, and every added join is some field's BelongsTo join |
| Relations.NoDottedFieldsNoJoins | src/Services/DataTable/Operations/GlobalSearchApplier.php:31-42 | a pre-pass over undotted fields changes nothing |
| MatchModes.DirectClause | src/Services/DataTable/Operations/FilterApplier.php:284-375 | a direct-column constraint adds nothing only under `between`/`in`; those are AND-combined, the others take the field's connective |
| MatchModes.SelectDirect | src/Services/DataTable/Operations/FilterApplier.php:291-374 | `between`, `in` and the null checks select their own cases, `isNotNull` the negated one; no mode reaches the second `notContains` case (`" not like"`); an unnamed mode behaves as `contains` |
| MatchModes.MatchOperator | src/Services/DataTable/Operations/FilterApplier.php:377-390 | the operator is one of the eight comparison operators, `like` exactly for the like modes other than `notContains`, and `=` for every mode the table does not name |
| MatchModes.MatchValue | src/Services/DataTable/Operations/FilterApplier.php:392-401 | outside the like modes the value is unchanged; `contains`/`notContains` give `%<text>%`, `startsWith` gives `<text>%` and `endsWith` gives `%<text>`, with `<text>` the value as PHP interpolates it |
| MatchModes.CountOperator | src/Services/DataTable/Operations/FilterApplier.php:403-414 | the count operator is a comparison operator, the match operator on the comparison modes and `=` otherwise |
| MatchModes.DirectClauseDropsOnlyMalformedRanges | src/Services/DataTable/Operations/FilterApplier.php:336-347 | a constraint adds nothing exactly for `between` without a two-element array or `in` without an array |
| MatchModes.RelationTablesAgreeWithDirect | src/Services/DataTable/Operations/FilterApplier.php:377-401 | on the like and comparison modes the relation tables translate as the direct switch does |
| Filters.CountFilterClause | src/Services/DataTable/Operations/FilterApplier.php:222-282 | an unknown relation adds nothing; a BelongsTo, HasOne/HasMany or BelongsToMany relation adds one count of its key table's rows under the relation's correlation, compared with the count operator and value; morph and other kinds add a `whereHas` with them |
| Filters.NestedRelationClauses | src/Services/DataTable/Operations/FilterApplier.php:144-161 | one AND clause, a `whereHas(first segment, ..., '>=', 1)` exactly when the path is dotted |
| Filters.NestedRelationJoined | src/Services/DataTable/Operations/FilterApplier.php:144-161 | the relations of the chain and the column at its end, none dotted, joined with dots give the path back |
| Filters.NestedRelationPath | src/Services/DataTable/Operations/FilterApplier.php:144-161 | a path of `k+1` segments becomes `k` nested `whereHas`, one per leading segment in order, around the comparison on the last |
| Filters.RelationFilterStep | src/Services/DataTable/Operations/FilterApplier.php:88-142 | a relation filter appends at most one clause with the connective, none exactly for an unknown relation, and joins only for a BelongsTo; per kind: a nested path a `whereHas` chain, BelongsTo the join and the joined column, HasOne/HasMany a correlated EXISTS, BelongsToMany and others `whereHas(..., '>=', 1)`, morph kinds `whereHasMorph(..., '*')` |
| Filters.ConstraintStep | src/Services/DataTable/Operations/FilterApplier.php:60-83 | a skipped constraint adds nothing; any other adds at most one clause with its connective (AND for direct `between`/`in`); joins only for dotted fields |
| Filters.Permitted | src/Services/DataTable/Operations/FilterApplier.php:27-45 | only filterable fields other than `global` are translated |
| Filters.ConstraintScopeShape | src/Services/DataTable/Operations/FilterApplier.php:59-84 | a group has at most one clause per constraint, all AND-combined unless the operator is `or`, and none when every constraint is skipped |
| Filters.FieldGroup | src/Services/DataTable/Operations/FilterApplier.php:47-84 | a callable custom filter gives its hook's clauses; otherwise at most one clause per constraint, AND-combined unless the operator is `or`, none when every constraint is skipped |
| Filters.ConstraintStepShape | src/Services/DataTable/Operations/FilterApplier.php:60-83 | one constraint adds at most one clause, AND-combined unless the operator is `or`, none when skipped |
| Filters.OrConnectiveOnDirectColumns | src/Services/DataTable/Operations/FilterApplier.php:68-82 | under `or` a direct comparison after the first is OR-combined, except under `between` and `in` |
| Filters.FilterGroupsShape | src/Services/DataTable/Operations/FilterApplier.php:42-85 | the group loop adds only where-clauses, at most one per permitted field, each an AND-attached nested group, after the earlier ones |
| Filters.FilterPrepassShape | src/Services/DataTable/Operations/FilterApplier.php:27-40 | the pre-pass adds only joins, at most one per permitted field, and joins every permitted BelongsTo field |
| Filters.FilterJoinsComeFromPrepass | src/Services/DataTable/Operations/FilterApplier.php:25-86 | after `apply`, the joins are exactly those of the pre-pass; the earlier ones stay first |
| Filters.FilterApply | src/Services/DataTable/Operations/FilterApplier.php:25-86 | `apply` keeps the orderings and the window, adds at most one AND-attached group per permitted field after the earlier where-clauses, and at most one join per permitted field after the earlier joins |
| Filters.OnlyFilterableFieldsMatter | src/Services/DataTable/Operations/FilterApplier.php:27-45 | filtering with the whole map equals filtering with its permitted entries |
| Filters.NullConstraintsAddNothing | src/Services/DataTable/Operations/FilterApplier.php:61-66 | a field whose constraints are all value-less (outside `equals`) leaves the query unchanged |
| Filters.CustomFilterGroup | src/Services/DataTable/Operations/FilterApplier.php:50-56 | a callable custom filter replaces the field's translation with the one group its hook builds, independent of the model's relations |
| Filters.CountFieldRelation | src/Services/DataTable/Operations/FilterApplier.php:70-74 | a `<relation>_count` constraint is the count filter on that relation |
| Filters.ApplyConstraint | src/Services/DataTable/Operations/FilterApplier.php:60-83 | the constraint loop's body performs one constraint step on the nested scope |
| Filters.ApplyRelationFilter | src/Services/DataTable/Operations/FilterApplier.php:88-142 | the relation dispatch on the builder performs the relation filter step |
| Filters.ApplyNextConstraint | src/Services/DataTable/Operations/FilterApplier.php:60-83 | one loop iteration extends the scope of the first `i` constraints to `i+1` |
| Filters.ApplyConstraints | src/Services/DataTable/Operations/FilterApplier.php:59-84 | the constraint loop leaves the scope of all constraints |
| Filters.BuildFieldGroup | src/Services/DataTable/Operations/FilterApplier.php:47-84 | the closure builds the field's group, custom or translated |
| Filters.Apply | src/Services/DataTable/Operations/FilterApplier.php:25-86 | `apply` leaves the pre-pass followed by the group loop |
| Filters.ApplyPrepass | src/Services/DataTable/Operations/FilterApplier.php:27-40 | the first loop performs the join pre-pass |
| Filters.ApplyGroups | src/Services/DataTable/Operations/FilterApplier.php:42-85 | the second loop adds one group per permitted field |
| GlobalSearch.RelationSearchClause | src/Services/DataTable/Operations/GlobalSearchApplier.php:58-105 | a relation field adds one OR clause unless the relation is unknown: for a BelongsTo `like %term%` on the joined column, for HasOne/HasMany a correlated EXISTS, for the others `whereHas(..., '>=', 1)` |
| GlobalSearch.FieldSearchClause | src/Services/DataTable/Operations/GlobalSearchApplier.php:45-55 | an undotted field adds `orWhere(table.field like %term%)`; every clause is OR |
| GlobalSearch.SearchClausesShape | src/Services/DataTable/Operations/GlobalSearchApplier.php:45-55 | the group has at most one OR clause per field, exactly the base-table comparisons when no field is dotted |
| GlobalSearch.SearchApplyShape | src/Services/DataTable/Operations/GlobalSearchApplier.php:23-56 | a blank term or no fields change nothing; otherwise at most one AND-attached group of OR clauses; orderings stay; added joins come from the fields |
| GlobalSearch.SearchApply | src/Services/DataTable/Operations/GlobalSearchApplier.php:23-56 | a blank term or no fields change nothing; otherwise orderings and window stay and at most one AND-attached group of at most one OR clause per field is added |
| GlobalSearch.PlainFieldsSearch | src/Services/DataTable/Operations/GlobalSearchApplier.php:45-55 | on plain columns the search adds one group of one `like` per field, in order, and no join |
| GlobalSearch.Apply | src/Services/DataTable/Operations/GlobalSearchApplier.php:23-56 | `apply` leaves the search's state |
| GlobalSearch.ApplyRelationSearch | src/Services/DataTable/Operations/GlobalSearchApplier.php:58-105 | the relation dispatch adds the relation search clause |
| Sorting.SortOrdering | src/Services/DataTable/Operations/Sorter.php:22-69 | the ordering is descending exactly when the order is `-1`; per kind: the field as given, the joined BelongsTo column, or the relation's correlated sub-query, raw for morph kinds exactly without `orderBySub` |
| Sorting.BelongsToManySub | src/Services/DataTable/Operations/Sorter.php:71-91 | the sub-query selects the related column through one inner join on the pivot, on `relatedPivotKey` on both sides as written, keyed on the pivot's foreign pivot key against the base key, first row only |
| Sorting.HasSub | src/Services/DataTable/Operations/Sorter.php:93-110 | the sub-query selects the column from the related table keyed on its foreign key against the base local key, first row only |
| Sorting.MorphSub | src/Services/DataTable/Operations/Sorter.php:112-139 | the same for a morph relation, restricted to rows whose morph type is the base model's class |
| Sorting.SortApply | src/Services/DataTable/Operations/Sorter.php:22-69 | sorting appends exactly the field's ordering, keeps the where-clauses and window, and joins exactly as the BelongsTo join registration does |
| Sorting.SortAppendsOneOrdering | src/Services/DataTable/Operations/Sorter.php:22-69 | sorting appends exactly one ordering, touches no where-clause or window, and joins only for a BelongsTo |
| Sorting.BelongsToSortJoins | src/Services/DataTable/Operations/Sorter.php:42-48 | a BelongsTo sort orders by the joined column, with its join present and added at most once |
| Sorting.PlainSortByField | src/Services/DataTable/Operations/Sorter.php:26-68 | undotted fields, unknown relations and unhandled kinds order by the field as given |
| Sorting.Apply | src/Services/DataTable/Operations/Sorter.php:22-69 | `apply` leaves the sort's state |
| RelationKinds.HasRelationsCorrelate | src/Services/DataTable/Operations/FilterApplier.php:184-205 | for HasOne/HasMany, the filter, search, count filter and sort all key the related rows on the related foreign key against the base local key |
| RelationKinds.BelongsToAgreesWithJoin | src/Services/DataTable/Operations/FilterApplier.php:163-182 | for BelongsTo, filter, search and sort read the joined column and the count filter uses the join's own key pair |
| RelationKinds.BelongsToManyThroughPivot | src/Services/DataTable/Operations/FilterApplier.php:207-220 | for BelongsToMany, filter and search are `whereHas(..., '>=', 1)`; count filter and sort go through the pivot on its foreign pivot key |
| RelationKinds.MorphRelationsByType | src/Services/DataTable/Operations/FilterApplier.php:129-137 | for morph kinds, the filter is `whereHasMorph(..., '*')`; the sort restricts the morph type to the base class and is raw exactly without `orderBySub` |
| Requests.FromArray | src/Services/DataTable/DataTableRequest.php:27-37 | fails exactly on a non-string sort field or search term or a non-array filter map, with the `TypeError` of the first such parameter; otherwise normalised, with the optional fields present exactly when given |
| Requests.WindowClamping | src/Services/DataTable/DataTableRequest.php:30-31 | offset defaults to 0 and is at least 0; page size defaults to 25 and is clamped to [1, 1000] |
| Requests.RequestRoundTrip | src/Services/DataTable/DataTableRequest.php:14-37 | a normalised request survives the trip through a payload |
| Requests.FromArrayIdempotent | src/Services/DataTable/DataTableRequest.php:27-37 | normalising a normalised request changes nothing |
| Requests.DecimalStringsReadAsIntegers | src/Services/DataTable/DataTableRequest.php:30-33 | decimal strings are read exactly as the integers they spell |
| Pipelines.ToJson | src/Services/DataTable/DataTablePipeline.php:42-45 | the JSON result carries the page and the total unchanged |
| Pipelines.HeadingEntries | src/Services/DataTable/DataTablePipeline.php:71-80 | one entry per column: the attribute's value under the heading |
| Pipelines.HeadingPayloadAbsent | src/Services/DataTable/DataTablePipeline.php:71-80 | a key that is no heading reads as null in the payload |
| Pipelines.HeadingPayloadLastWins | src/Services/DataTable/DataTablePipeline.php:75-77 | of columns sharing a heading, the later one's value is kept |
| Pipelines.HeadingPayloadOrder | src/Services/DataTable/DataTablePipeline.php:71-80 | with distinct headings, the payload is one entry per column, keyed by the headings in order |
| Pipelines.DefaultExcelRow | src/Services/DataTable/DataTablePipeline.php:58-65 | without a custom export or mapper, the spreadsheet row is the heading-keyed payload read by attribute |
| Pipelines.HeadingProjection | src/Services/DataTable/DataTablePipeline.php:58-80 | cell `i` is null when attribute `i` is no heading, and the attribute's value when every heading equals its attribute |
| Pipelines.KeyMismatchExample | src/Services/DataTable/DataTablePipeline.php:71-80 | a one-column export whose heading differs from its attribute exports an empty cell for a row that has the value |
| Pipelines.ExportDispatch | src/Services/DataTable/DataTablePipeline.php:52-66 | a custom export gets the export query; otherwise the default exporter gets the columns, the mapper and `export.csv` (`export.csv.xlsx` for the spreadsheet) |
| Pipelines.MapRowUsingColumns | src/Services/DataTable/DataTablePipeline.php:71-80 | the mapper's loop builds the heading-keyed payload |
| Pipelines.ToExport | src/Services/DataTable/DataTablePipeline.php:52-66 | `toExport` gives the export response, streaming the CSV from a clone of the export query |
| Manager.NormalizeRequest | src/Services/DataTable/DataTableManager.php:235-246 | a service request is used as is; form data and arrays go through `fromArray` |
| Manager.ResolveExporter | src/Services/DataTable/DataTableManager.php:200-230 | none stays none, an instance is kept, a class name fails when unbound or not an exporter and otherwise gives the built exporter |
| Manager.CountQuery | src/Services/DataTable/DataTableManager.php:167-183 | a joined query is counted with `distinct` set, selecting `<table>.id` unless columns are selected; any other query is counted as it is |
| Manager.Paged | src/Services/DataTable/DataTableManager.php:114-118 | the page query changes only the offset (`max(0, first)`) and the limit (when `rows >= 0`) |
| Manager.SearchKeeps | src/Services/DataTable/DataTableManager.php:156 | the search keeps the window, `distinct`, the earlier joins and the orderings |
| Manager.FilterStageKeeps | src/Services/DataTable/DataTableManager.php:158-160 | the filter stage keeps those too, and does nothing without filters |
| Manager.SortStageKeeps | src/Services/DataTable/DataTableManager.php:162-164 | the sort stage does nothing without a sort request and otherwise appends one ordering |
| Manager.OperationsShape | src/Services/DataTable/DataTableManager.php:149-165 | `applyOperations` (`Manager.Operations`) keeps the window, `distinct` and earlier joins, add an ordering exactly when sorting, and change nothing for an empty request |
| Manager.ProcessPaging | src/Services/DataTable/DataTableManager.php:110-142 | for `process` (`Manager.Process`), the page is the requested window of the processed query's rows, exactly `min(rows, |all| - first)` long for `rows >= 0` and `0 <= first <= |all|` (`all` the rows the unwindowed query selects), the total counts the whole processed query, and the export query is that query |
| Manager.AssemblePaging | src/Services/DataTable/DataTableManager.php:110-142 | once the operations are applied, the page is the requested window of that query's rows, exactly `min(rows, |all| - first)` long for `rows >= 0` and `0 <= first <= |all|` (`all` the rows the unwindowed query selects), and the total counts the whole query |
| Manager.ProcessTransform | src/Services/DataTable/DataTableManager.php:120-122 | the transform is applied to the page as read and changes nothing else |
| Manager.WindowOnlyChangesPage | src/Services/DataTable/DataTableManager.php:110-142 | requests differing only in their window give the same total, export query and exporter |
| Manager.ProcessFailures | src/Services/DataTable/DataTableManager.php:102-142 | a malformed request fails first; otherwise `process` fails exactly when the exporter cannot be resolved |
| Manager.FormAndRawAgree | src/Services/DataTable/DataTableManager.php:241-245 | a form request and an array with the same data give the same pipeline |
| Manager.ApplyOperations | src/Services/DataTable/DataTableManager.php:149-165 | search, filters when present and sort when requested are applied to the caller's query |
| Manager.Count | src/Services/DataTable/DataTableManager.php:167-183 | the total is the count of the count query, read from a clone |
| Manager.ProcessQuery | src/Services/DataTable/DataTableManager.php:90-143 | `process` gives its result; the caller's query is processed whenever the request is well-formed, even when the exporter then fails |
| Manager.Pack | src/Services/DataTable/DataTableManager.php:112-142 | count, page and export query are read from clones, leaving the query as it is |
| Manager.Handle | src/Services/DataTable/DataTableManager.php:38-54 | `handle` fails exactly on a malformed request and otherwise answers with the page and total of `process`; the caller's query is left filtered and sorted, and untouched for a malformed request |
| Manager.Export | src/Services/DataTable/DataTableManager.php:62-88 | `export` fails as `process` fails and otherwise answers with the pipeline's export response; the caller's query is left filtered and sorted, and untouched for a malformed request |

## Left out

- SQL execution is not modelled: the database is two given functions, and the SQL text, bindings and driver behaviour are not modelled.
- Query logging (`shouldCollectQueryLogs` and the query-log calls around `process`) is left out, because it only observes the queries. The result's `queries` field is dropped with it.
- The form request's validation rules and `prepareForValidation` are left out, because they run in the HTTP layer before the engine. The engine is modelled on the validated data.
- The service provider's bindings are left out. The default exporter is a parameter, and the spreadsheet exporter is the one the provider binds.
- The table base class is left out, because it holds no behaviour of the engine.
- `toJsonResponse` and `DataTableResult::toArray` are left out, because they only render the JSON result.
- The manager's private `mapRowUsingColumns` is left out, because nothing calls it.
- The clock is a parameter: `fileName()`'s `Ymd_His` stamp is passed in as a string.
- Whether `fopen('php://output')` succeeds is a parameter. The streamed callback is modelled as run to completion, and `fclose` is not modelled.
- Closures are modelled as pure functions: the transform, the row mappers and the custom filter hooks. A custom filter hook is modelled by the where-clauses it adds to its nested scope. Anything else it does there is dropped, as Laravel drops it.
- CSV quoting by `fputcsv` and the `;` delimiter are not modelled. The stream is its sequence of records.
- `Stringify` on floats is not modelled, and `(int)` casts ignore float and exponent strings and 64-bit overflow. The model's integers are unbounded.
- `data_get` wildcards (`*`, `{first}`, `{last}`), object properties and rows that are relation objects are not modelled. A row is a keyed array of cells; a list is indexed by the decimal text of a position.
- `Excel::queue`, `Excel::download` and the streamed response are not modelled as I/O. They become response values that hold the export object and file name.
- The translation of the queued-export message is not modelled. The untranslated key is returned.
- Subclass overrides of `headings()`, `mapRow()`, `fileName()` and the queue settings are data of the export. An override of `shouldQueue` is not modelled.
- PHP errors other than the request's TypeErrors and the exporter resolution failures are not modelled. Examples: a filter entry whose constraints are not arrays, or a non-string key in the column map.
- Laravel's rewriting of `where(col, '=', null)` into `whereNull` is not modelled. An `equals` constraint without a value stays a comparison with null.
- Manager.CountQuery: states the query handed to `count()`, not how many rows come back. Whether the database's count honours `distinct` on a joined query (Laravel's aggregate drops the select list) is the database function's concern, so duplicate joined rows are not ruled out.
- Manager.ProcessPaging: assumes no transform. `Manager.ProcessTransform` covers the transform separately.
- Cells.JsonEncode: a date inside an array is written as the JSON string of its ISO-8601 text. PHP's `json_encode` writes a `DateTime` as an object with `date`, `timezone_type` and `timezone` members and a Carbon date as its `toJSON` text; the model's cells do not carry a date's class or time zone. A date outside an array is written as `format('c')`, as modelled. A keyed array whose keys are `0` to `n-1` in order is written as an object, where PHP writes such an array as a list; lists arrive as list cells in the model.
- Filters.RelationFilterStep, GlobalSearch.RelationSearchClause: for HasOne/HasMany relations the model gives the correlated EXISTS clause the closure builds. As written, the closures passed to `whereExists`/`orWhereExists` (FilterApplier.php:199, GlobalSearchApplier.php:84) declare Eloquent's `Builder`, while Laravel's query builder calls them with a base query builder, so PHP would raise a `TypeError` on these branches. The model does not capture that failure.
- Strings.RemoveAll: its own contract states only that the result is no longer; that a string without the pattern is unchanged and that removal splits around an occurrence are the lemmas `Strings.RemoveAllAbsent` and `Strings.RemoveAllSplit`.
- Pipelines.ExportDispatch: a custom exporter is modelled only as a subclass of the base export class (`BaseDataTableExport`), which queues or downloads a spreadsheet. Any other implementation of the exporter interface, whose `toResponse($request, $query)` may answer arbitrarily, is not modelled, and the request argument it receives is dropped, as the base class does not read it.
