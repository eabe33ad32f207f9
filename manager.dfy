/**
 * The entry point (DataTableManager): `process` normalises the request, applies the global
 * search, the filters and the sort to the caller's query in that order, counts the matching
 * rows, reads one page of them from a clone, and packs everything into a pipeline; `handle`
 * answers with the page and the total, `export` with the pipeline's export response.
 */
module Manager {
  import opened Wrappers
  import opened Query
  import opened Cells
  import opened Storage
  import opened Exports
  import opened Requests
  import opened Relations
  import opened Filters
  import opened GlobalSearch
  import opened Sorting
  import opened Pipelines

  /** What `process` accepts as the request: the service-level request as it is, the form
      request's validated data, or a raw array. */
  datatype RequestInput =
    | Service(request: DataTableRequest)
    | Form(validated: Payload)
    | Raw(payload: Payload)

  /** What `process` accepts as the custom exporter: none, an exporter instance, or a class
      name the service container resolves. */
  datatype ExporterInput = NoExporter | Instance(config: ExportConfig) | ClassName(name: string)

  /** What the container builds for a class name: an exporter, or an object of some other
      kind. Names the container cannot build are absent from its bindings. */
  datatype Binding = Exportable(config: ExportConfig) | NotExportable

  /** The exceptions `process` lets escape. */
  datatype ManagerError =
    | InvalidRequest(error: RequestError)  // the request's TypeError
    | BindingResolution(name: string)      // the container cannot build the class
    | InvalidArgument(message: string)     // the class built is no exporter

  const NotExportableMessage: string := "Custom exporter must implement DataTableExportable."

  /** The manager's collaborators: the service container's bindings and the default
      exporter. The three translators hold no state and are the functions of their
      modules. */
  datatype DataTableManager = DataTableManager(container: map<string, Binding>, defaultExporter: DefaultExporter)

  /** The arguments of `process` besides the query and the request. */
  datatype Arguments = Arguments(
    searchable: seq<string>,
    filterable: seq<string>,
    transform: Option<seq<Cell> -> seq<Cell>>,
    customExporter: ExporterInput,
    exportColumns: ColumnMap,
    mapRow: Option<Cell -> PhpArray>,
    fileName: Option<string>,
    customFilters: map<string, CustomFilter>)

  /** `normalizeRequest`: a service-level request is used as it is; the other two go
      through `fromArray`. */
  function NormalizeRequest(input: RequestInput): (r: Result<DataTableRequest, RequestError>)
    ensures input.Service? ==> r == Success(input.request)
    ensures input.Form? ==> r == FromArray(input.validated)
    ensures input.Raw? ==> r == FromArray(input.payload)
  {
    match input
    case Service(request) => Success(request)
    case Form(validated) => FromArray(validated)
    case Raw(payload) => FromArray(payload)
  }

  /** `resolveExporter`: no exporter stays none, an instance is used as it is, and a class
      name is built by the container, which must give an exporter. */
  function ResolveExporter(input: ExporterInput, container: map<string, Binding>): (r: Result<Option<ExportConfig>, ManagerError>)
    ensures input.NoExporter? ==> r == Success(None)
    ensures input.Instance? ==> r == Success(Some(input.config))
    ensures input.ClassName? ==>
      (r.Failure? <==> input.name !in container || container[input.name].NotExportable?)
      && (input.name !in container ==> r == Failure(BindingResolution(input.name)))
      && (input.name in container && container[input.name].NotExportable? ==> r == Failure(InvalidArgument(NotExportableMessage)))
      && (r.Success? ==> r.value == Some(container[input.name].config))
  {
    match input
    case NoExporter => Success(None)
    case Instance(config) => Success(Some(config))
    case ClassName(name) =>
      if name !in container then Failure(BindingResolution(name))
      else match container[name]
        case Exportable(config) => Success(Some(config))
        case NotExportable => Failure(InvalidArgument(NotExportableMessage))
  }

  /** `! empty($request->filters)`: a filter map with at least one entry. */
  predicate FiltersRequested(request: DataTableRequest) {
    request.filters.Some? && request.filters.value != []
  }

  /** A sort field and an order other than 0. */
  predicate SortRequested(request: DataTableRequest) {
    request.sortField.Some? && request.sortOrder != 0
  }

  /** The filter step of `applyOperations`: only a non-empty filter map is applied. */
  function FilterStage(s: QueryState, model: Model, request: DataTableRequest, args: Arguments): QueryState {
    if FiltersRequested(request) then FilterApply(s, model, args.customFilters, args.filterable, request.filters.value)
    else s
  }

  /** The sort step of `applyOperations`. */
  function SortStage(s: QueryState, model: Model, hasOrderBySub: bool, request: DataTableRequest): QueryState {
    if SortRequested(request) then SortApply(s, model, hasOrderBySub, request.sortField.value, request.sortOrder)
    else s
  }

  /** `applyOperations`: the global search, then the filters when there are any, then the
      sort when one is requested. */
  function Operations(s: QueryState, model: Model, hasOrderBySub: bool, request: DataTableRequest, args: Arguments): QueryState {
    SortStage(FilterStage(SearchApply(s, model, request.globalSearch, args.searchable), model, request, args),
              model, hasOrderBySub, request)
  }

  /** The query `count` is asked to count: a query with joins gets `distinct` set and
      selects the base table's `id` column unless it already selects columns; any other
      query is passed as it is. What the database counts for it is the database's concern. */
  function CountQuery(s: QueryState, model: Model): (r: QueryState)
    ensures s.joins == [] ==> r == s
    ensures s.joins != [] ==>
      r.distinct && r.columns != []
      && (s.columns == [] ==> r.columns == [model.table + ".id"])
      && (s.columns != [] ==> r.columns == s.columns)
      && r == s.(columns := r.columns, distinct := true)
  {
    if s.joins == [] then s
    else s.(columns := if s.columns == [] then [model.table + ".id"] else s.columns, distinct := true)
  }

  /** The page the data query reads: `skip($first)` then `take($rows)` on a clone. */
  function Paged(s: QueryState, first: int, rows: int): (r: QueryState)
    ensures r.offset == Some(if first < 0 then 0 else first)
    ensures r.limit == (if rows >= 0 then Some(rows) else s.limit)
    ensures r.(offset := s.offset, limit := s.limit) == s
  {
    s.(offset := Some(if first < 0 then 0 else first), limit := if rows >= 0 then Some(rows) else s.limit)
  }

  /** What `process` does once the operations are applied: count, read the page, apply the
      transform, resolve the exporter, and pack the pipeline with the processed query as the
      export query. */
  function Assemble(m: DataTableManager, db: Database, applied: QueryState, model: Model, hasOrderBySub: bool,
                    request: DataTableRequest, args: Arguments): Result<Pipeline, ManagerError>
  {
    var total := db.count(CountQuery(applied, model));
    var page := Get(db, Paged(applied, request.first, request.rows));
    var data := if args.transform.Some? then args.transform.value(page) else page;
    match ResolveExporter(args.customExporter, m.container)
    case Failure(e) => Failure(e)
    case Success(exporter) =>
      Success(Pipeline(data, total, model, hasOrderBySub, applied, request, exporter,
                       m.defaultExporter, args.exportColumns, args.mapRow, args.fileName))
  }

  /** `process` on a query whose model, builder capability and state are given; the
      database answers the count and the page query. */
  function Process(m: DataTableManager, db: Database, s: QueryState, model: Model, hasOrderBySub: bool,
                   input: RequestInput, args: Arguments): Result<Pipeline, ManagerError>
  {
    match NormalizeRequest(input)
    case Failure(e) => Failure(InvalidRequest(e))
    case Success(request) => Assemble(m, db, Operations(s, model, hasOrderBySub, request, args), model, hasOrderBySub, request, args)
  }

  // ---------------------------------------------------------------------------------------
  // Properties

  /** What every operation keeps: the window, `distinct`, and the joins there were, in
      front of any it registers. */
  predicate Keeps(s: QueryState, r: QueryState) {
    r.offset == s.offset && r.limit == s.limit && r.distinct == s.distinct
    && |s.joins| <= |r.joins| && r.joins[..|s.joins|] == s.joins
  }

  lemma KeepsTransitive(a: QueryState, b: QueryState, c: QueryState)
    requires Keeps(a, b) && Keeps(b, c)
    ensures Keeps(a, c)
  {
    assert c.joins[..|b.joins|][..|a.joins|] == c.joins[..|a.joins|];
  }

  lemma SearchKeeps(s: QueryState, model: Model, term: Option<string>, fields: seq<string>)
    ensures Keeps(s, SearchApply(s, model, term, fields))
    ensures SearchApply(s, model, term, fields).orders == s.orders
  {
    SearchApplyShape(s, model, term, fields);
    JoinsForFieldsShape(s, model, fields);
  }

  lemma FilterStageKeeps(s: QueryState, model: Model, request: DataTableRequest, args: Arguments)
    ensures Keeps(s, FilterStage(s, model, request, args))
    ensures FilterStage(s, model, request, args).orders == s.orders
    ensures !FiltersRequested(request) ==> FilterStage(s, model, request, args) == s
  {
    if FiltersRequested(request) {
      var entries := request.filters.value;
      FilterJoinsComeFromPrepass(s, model, args.customFilters, args.filterable, entries);
      FilterPrepassShape(s, model, args.filterable, entries);
      FilterGroupsShape(FilterPrepass(s, model, args.filterable, entries), model, args.customFilters, args.filterable, entries);
    }
  }

  lemma SortStageKeeps(s: QueryState, model: Model, hasOrderBySub: bool, request: DataTableRequest)
    ensures var r := SortStage(s, model, hasOrderBySub, request);
      Keeps(s, r)
      && (!SortRequested(request) ==> r == s)
      && (SortRequested(request) ==> |r.orders| == |s.orders| + 1 && r.orders[..|s.orders|] == s.orders)
  {
    if SortRequested(request) {
      SortAppendsOneOrdering(s, model, hasOrderBySub, request.sortField.value, request.sortOrder);
    }
  }

  /** The operations never touch the window or `distinct`, and keep the joins there were in
      front of any they register; they add an ordering exactly when a sort is requested, and
      then exactly one, after the existing ones. A request asking for nothing leaves the
      query as it was. */
  lemma OperationsShape(s: QueryState, model: Model, hasOrderBySub: bool, request: DataTableRequest, args: Arguments)
    ensures var r := Operations(s, model, hasOrderBySub, request, args);
      Keeps(s, r)
      && (!SortRequested(request) ==> r.orders == s.orders)
      && (SortRequested(request) ==> |r.orders| == |s.orders| + 1 && r.orders[..|s.orders|] == s.orders)
      && (SearchSkipped(request.globalSearch, args.searchable) && !FiltersRequested(request) && !SortRequested(request) ==> r == s)
  {
    var searched := SearchApply(s, model, request.globalSearch, args.searchable);
    var filtered := FilterStage(searched, model, request, args);
    SearchKeeps(s, model, request.globalSearch, args.searchable);
    FilterStageKeeps(searched, model, request, args);
    SortStageKeeps(filtered, model, hasOrderBySub, request);
    KeepsTransitive(s, searched, filtered);
    KeepsTransitive(s, filtered, Operations(s, model, hasOrderBySub, request, args));
  }

  /** A processed request's page is the window the request asks for over the rows of the
      whole filtered and sorted query, before the transform; the total counts that whole
      query, and the export query is that query itself, so neither depends on the page. */
  lemma ProcessPaging(m: DataTableManager, db: Database, s: QueryState, model: Model, hasOrderBySub: bool,
                      input: RequestInput, args: Arguments)
    requires Process(m, db, s, model, hasOrderBySub, input, args).Success?
    requires args.transform.None?
    ensures var p := Process(m, db, s, model, hasOrderBySub, input, args).value;
      var applied := Operations(s, model, hasOrderBySub, p.request, args);
      var all := db.select(applied.(offset := None, limit := None));
      p.exportQuery == applied
      && p.total == db.count(CountQuery(applied, model))
      && (p.request.rows >= 0 ==> |p.data| <= p.request.rows)
      && (p.request.first >= 0 && p.request.first <= |all| ==>
            p.data == all[p.request.first..p.request.first + |p.data|])
      && (p.request.rows >= 0 && 0 <= p.request.first <= |all| ==>
            |p.data| == Storage.Min(p.request.rows, |all| - p.request.first))
      && (!input.Service? ==> 1 <= p.request.rows <= 1000 && |p.data| <= 1000)
  {
    var request := NormalizeRequest(input).value;
    AssemblePaging(m, db, Operations(s, model, hasOrderBySub, request, args), model, hasOrderBySub, request, args);
  }

  /** The paging half of `ProcessPaging`, for any processed query. */
  lemma AssemblePaging(m: DataTableManager, db: Database, applied: QueryState, model: Model, hasOrderBySub: bool,
                       request: DataTableRequest, args: Arguments)
    requires Assemble(m, db, applied, model, hasOrderBySub, request, args).Success?
    requires args.transform.None?
    ensures var p := Assemble(m, db, applied, model, hasOrderBySub, request, args).value;
      var all := db.select(applied.(offset := None, limit := None));
      p.exportQuery == applied && p.request == request
      && p.total == db.count(CountQuery(applied, model))
      && (request.rows >= 0 ==> |p.data| <= request.rows)
      && (request.first >= 0 && request.first <= |all| ==> p.data == all[request.first..request.first + |p.data|])
      && (request.rows >= 0 && 0 <= request.first <= |all| ==> |p.data| == Storage.Min(request.rows, |all| - request.first))
  {
    var paged := Paged(applied, request.first, request.rows);
    var all := db.select(applied.(offset := None, limit := None));
    assert paged.(offset := None, limit := None) == applied.(offset := None, limit := None);
    var p := Assemble(m, db, applied, model, hasOrderBySub, request, args).value;
    assert p.data == Window(all, paged.offset, paged.limit);
  }

  /** The transform is applied once, to the page as read, and changes nothing else of the
      pipeline: processing with it is processing without it, with the page transformed. */
  lemma ProcessTransform(m: DataTableManager, db: Database, s: QueryState, model: Model, hasOrderBySub: bool,
                         input: RequestInput, args: Arguments)
    requires args.transform.Some?
    ensures var plain := Process(m, db, s, model, hasOrderBySub, input, args.(transform := None));
      var r := Process(m, db, s, model, hasOrderBySub, input, args);
      r.Success? == plain.Success?
      && (r.Success? ==> r.value == plain.value.(data := args.transform.value(plain.value.data)))
  {
    var none := args.(transform := None);
    if NormalizeRequest(input).Success? {
      var request := NormalizeRequest(input).value;
      assert Operations(s, model, hasOrderBySub, request, args) == Operations(s, model, hasOrderBySub, request, none);
    }
  }

  /** Two requests that differ only in their window produce the same total and the same
      export query: paging changes the page and nothing else. */
  lemma WindowOnlyChangesPage(m: DataTableManager, db: Database, s: QueryState, model: Model, hasOrderBySub: bool,
                              r1: DataTableRequest, r2: DataTableRequest, args: Arguments)
    requires r1.(first := 0, rows := 0) == r2.(first := 0, rows := 0)
    ensures var p1 := Process(m, db, s, model, hasOrderBySub, Service(r1), args);
      var p2 := Process(m, db, s, model, hasOrderBySub, Service(r2), args);
      p1.Success? == p2.Success?
      && (p1.Success? ==> p1.value.total == p2.value.total && p1.value.exportQuery == p2.value.exportQuery
                          && p1.value.exporter == p2.value.exporter)
  {
    assert Operations(s, model, hasOrderBySub, r1, args) == Operations(s, model, hasOrderBySub, r2, args) by {
      assert r1.globalSearch == r2.globalSearch && r1.filters == r2.filters;
      assert r1.sortField == r2.sortField && r1.sortOrder == r2.sortOrder;
    }
  }

  /** A malformed request fails before anything else happens; an exporter that cannot be
      resolved fails the whole call, after the query has been processed. */
  lemma ProcessFailures(m: DataTableManager, db: Database, s: QueryState, model: Model, hasOrderBySub: bool,
                        input: RequestInput, args: Arguments)
    ensures var r := Process(m, db, s, model, hasOrderBySub, input, args);
      (NormalizeRequest(input).Failure? ==> r == Failure(InvalidRequest(NormalizeRequest(input).error)))
      && (NormalizeRequest(input).Success? ==>
            (r.Failure? <==> ResolveExporter(args.customExporter, m.container).Failure?)
            && (r.Failure? ==> r == Failure(ResolveExporter(args.customExporter, m.container).error)))
      && (r.Success? ==> r.value.exporter == ResolveExporter(args.customExporter, m.container).value
                         && r.value.defaultExporter == m.defaultExporter)
  {
  }

  /** A form request and a raw array with the same data give the same pipeline. */
  lemma FormAndRawAgree(m: DataTableManager, db: Database, s: QueryState, model: Model, hasOrderBySub: bool,
                        p: Payload, args: Arguments)
    ensures Process(m, db, s, model, hasOrderBySub, Form(p), args) == Process(m, db, s, model, hasOrderBySub, Raw(p), args)
  {
  }

  // ---------------------------------------------------------------------------------------
  // The manager on the mutable builder

  /** `applyOperations`: the caller's query itself is changed. */
  method ApplyOperations(q: Builder, request: DataTableRequest, args: Arguments)
    modifies q
    ensures q.State() == Operations(old(q.State()), q.model, q.hasOrderBySub, request, args)
  {
    GlobalSearch.Apply(q, request.globalSearch, args.searchable);
    if !(request.filters.None? || request.filters.value == []) {
      Filters.Apply(q, request.filters.value, args.filterable, args.customFilters);
    }
    if request.sortField.Some? && request.sortOrder != 0 {
      Sorting.Apply(q, request.sortField.value, request.sortOrder);
    }
  }

  /** `count`: counted on a clone, so the query itself is left as it was. */
  method Count(q: Builder, db: Database) returns (total: nat)
    ensures total == db.count(CountQuery(q.State(), q.model))
  {
    var totalQuery := q.Clone();
    if totalQuery.joins != [] {
      if totalQuery.columns == [] {
        totalQuery.Select([totalQuery.model.table + ".id"]);
      }
      totalQuery.Distinct();
    }
    total := db.count(totalQuery.State());
  }

  /** `process`. The caller's query ends up filtered and sorted, also when the exporter
      then fails to resolve; only a malformed request leaves it untouched. */
  method ProcessQuery(m: DataTableManager, db: Database, q: Builder, input: RequestInput, args: Arguments)
    returns (r: Result<Pipeline, ManagerError>)
    modifies q
    ensures r == Process(m, db, old(q.State()), q.model, q.hasOrderBySub, input, args)
    ensures NormalizeRequest(input).Failure? ==> q.State() == old(q.State())
    ensures NormalizeRequest(input).Success? ==>
      q.State() == Operations(old(q.State()), q.model, q.hasOrderBySub, NormalizeRequest(input).value, args)
  {
    var resolved := NormalizeRequest(input);
    if resolved.Failure? {
      return Failure(InvalidRequest(resolved.error));
    }
    ApplyOperations(q, resolved.value, args);
    r := Pack(m, db, q, resolved.value, args);
  }

  /** The rest of `process`: the count and the page are read from clones and the export
      query is one more clone, so the query itself is not changed. */
  method Pack(m: DataTableManager, db: Database, q: Builder, request: DataTableRequest, args: Arguments)
    returns (r: Result<Pipeline, ManagerError>)
    ensures r == Assemble(m, db, q.State(), q.model, q.hasOrderBySub, request, args)
  {
    var total := Count(q, db);
    var dataQuery := q.Clone();
    dataQuery.Skip(request.first);
    dataQuery.Take(request.rows);
    var data := Get(db, dataQuery.State());
    if args.transform.Some? {
      data := args.transform.value(data);
    }
    var exportQuery := q.Clone();
    var exporter := ResolveExporter(args.customExporter, m.container);
    if exporter.Failure? {
      return Failure(exporter.error);
    }
    r := Success(Pipeline(data, total, q.model, q.hasOrderBySub, exportQuery.State(), request, exporter.value,
                          m.defaultExporter, args.exportColumns, args.mapRow, args.fileName));
  }

  /** The arguments `handle` passes to `process`: its search fields, filter fields,
      transform and custom filters, with no custom exporter, export columns, mapper or file
      name. */
  function HandleArguments(searchable: seq<string>, filterable: seq<string>,
                           transform: Option<seq<Cell> -> seq<Cell>>,
                           customFilters: map<string, CustomFilter>): Arguments {
    Arguments(searchable, filterable, transform, NoExporter, [], None, None, customFilters)
  }

  /** `handle`: the page and the total of `process`. With no exporter to resolve, it fails
      exactly when the request is malformed. */
  method Handle(m: DataTableManager, db: Database, q: Builder, input: RequestInput,
                searchable: seq<string>, filterable: seq<string>,
                transform: Option<seq<Cell> -> seq<Cell>>, customFilters: map<string, CustomFilter>)
    returns (r: Result<DataTableResult, ManagerError>)
    modifies q
    ensures var p := Process(m, db, old(q.State()), q.model, q.hasOrderBySub, input,
                             HandleArguments(searchable, filterable, transform, customFilters));
      (r.Failure? <==> NormalizeRequest(input).Failure?)
      && (r.Failure? ==> r.error == InvalidRequest(NormalizeRequest(input).error))
      && (p.Success? ==> r.Success? && r.value.data == p.value.data && r.value.total == p.value.total)
    ensures NormalizeRequest(input).Failure? ==> q.State() == old(q.State())
    ensures NormalizeRequest(input).Success? ==>
      q.State() == Operations(old(q.State()), q.model, q.hasOrderBySub, NormalizeRequest(input).value, HandleArguments(searchable, filterable, transform, customFilters))
  {
    ghost var s := q.State();
    var args := HandleArguments(searchable, filterable, transform, customFilters);
    var p := ProcessQuery(m, db, q, input, args);
    ProcessFailures(m, db, s, q.model, q.hasOrderBySub, input, args);
    if p.Failure? {
      return Failure(p.error);
    }
    r := Success(ToJson(p.value));
  }

  /** `export`: the export response of `process`, with the clock's stamp and whether the
      CSV stream could open its output. */
  method Export(m: DataTableManager, db: Database, q: Builder, input: RequestInput, args: Arguments,
                stamp: string, handleOpened: bool)
    returns (r: Result<Response, ManagerError>)
    modifies q
    ensures var p := Process(m, db, old(q.State()), q.model, q.hasOrderBySub, input, args);
      (r.Failure? <==> p.Failure?)
      && (p.Failure? ==> r.error == p.error)
      && (p.Success? ==> r.value == ExportResponse(p.value, db, stamp, handleOpened))
    ensures NormalizeRequest(input).Failure? ==> q.State() == old(q.State())
    ensures NormalizeRequest(input).Success? ==>
      q.State() == Operations(old(q.State()), q.model, q.hasOrderBySub, NormalizeRequest(input).value, args)
  {
    var p := ProcessQuery(m, db, q, input, args);
    if p.Failure? {
      return Failure(p.error);
    }
    var response := ToExport(p.value, db, stamp, handleOpened);
    r := Success(response);
  }
}
