// The JSON API manager of webgrid/flask.py: a registry from grid identifier to
// grid class, and the request handler that builds a grid, attaches the manager,
// checks authorisation, applies the request's arguments and answers with the
// grid's JSON or an export. Flask itself (routing, request objects, `send_file`)
// is not modelled; what a grid class does when it checks authorisation, loads
// arguments or renders an export is supplied with the request.
//
// The class below models the evidently intended behaviour. The functions under
// "As written" model three places where the code as written raises instead.

module FlaskApi {
  import opened Wrappers
  import opened PyValues

  /**
   * A registered grid class (or creator), identified by its name, with the
   * manager its class attribute `manager` holds (`null` when it has none).
   */
  datatype GridFactory = GridFactory(className: string, classManager: object?)

  /**
   * What the grid built for one request does: whether `check_auth` aborts (and
   * with which HTTP status), the `export_to` its arguments set (`None` or a
   * target name), and whether rendering the export stays within the renderer's
   * record limit.
   */
  datatype ApiRequest = ApiRequest(authAbort: Option<nat>, exportTo: Option<string>, exportWithinLimit: bool)

  /** The responses the handler produces. */
  datatype Response =
    | Aborted(status: nat)
    | GridJson(grid: GridFactory)
    | ExportFile(grid: GridFactory, target: string)
    | ErrorJson(error: string)

  /** The observable steps of `api_view_method`, in the order they happen. */
  datatype Step = Lookup | InitGrid | AttachManager | CheckAuth | ApplyArgs | Export | RenderJson

  const UniqueIdentMessage := "API grid_ident must be unique"
  const RenderLimitMessage := "too many records for render target"

  /** Python truthiness of `grid.export_to`: set and not the empty string. */
  predicate ExportRequested(exportTo: Option<string>): (r: bool)
    ensures exportTo == None || exportTo == Some("") ==> !r
    ensures exportTo.Some? && |exportTo.value| > 0 ==> r
  {
    exportTo.Some? && exportTo.value != ""
  }

  // ---------------------------------------------------------------------
  // WebGrid.file_as_response

  datatype FileResponse = FileResponse(data: seq<bv8>, mimeType: string, asAttachment: bool, attachmentFilename: Option<string>)

  /** `file_as_response`: the file is sent as an attachment exactly when it has a name. */
  function FileAsResponse(dataStream: seq<bv8>, fileName: Option<string>, mimeType: string): (r: FileResponse)
    ensures r.asAttachment <==> fileName.Some?
    ensures r.attachmentFilename == fileName
    ensures r.data == dataStream && r.mimeType == mimeType
  {
    FileResponse(dataStream, mimeType, fileName != None, fileName)
  }

  // ---------------------------------------------------------------------
  // The export path

  /** `api_on_render_limit_exceeded`: the error JSON. */
  function OnRenderLimitExceeded(): (r: Response)
    ensures r == ErrorJson("too many records for render target")
  {
    ErrorJson(RenderLimitMessage)
  }

  /** `api_export_response(grid)`: the grid's export, or the limit error when rendering exceeds the limit. */
  function ExportResponse(grid: GridFactory, target: string, withinLimit: bool): (r: Response)
    ensures r.ExportFile? <==> withinLimit
    ensures r.ExportFile? ==> r.grid == grid && r.target == target
    ensures !withinLimit ==> r == ErrorJson("too many records for render target")
  {
    if withinLimit then ExportFile(grid, target) else OnRenderLimitExceeded()
  }

  /** The response `api_view_method` gives for a request, once the grid is built. */
  function ViewResponse(registry: map<string, GridFactory>, gridIdent: string, request: ApiRequest): (r: Response)
    ensures r.Aborted? <==> gridIdent !in registry || request.authAbort.Some?
    ensures gridIdent !in registry ==> r == Aborted(404)
    ensures gridIdent in registry && request.authAbort.Some? ==> r == Aborted(request.authAbort.value)
    ensures r.GridJson? <==>
      gridIdent in registry && request.authAbort.None? && !ExportRequested(request.exportTo)
    ensures r.ExportFile? <==>
      gridIdent in registry && request.authAbort.None? && ExportRequested(request.exportTo) && request.exportWithinLimit
    ensures r.ErrorJson? ==> r.error == RenderLimitMessage
    ensures (r.GridJson? || r.ExportFile?) ==> r.grid == registry[gridIdent]
    ensures r.ExportFile? ==> r.target == request.exportTo.value
  {
    if gridIdent !in registry then Aborted(404)
    else if request.authAbort.Some? then Aborted(request.authAbort.value)
    else if ExportRequested(request.exportTo) then
      ExportResponse(registry[gridIdent], request.exportTo.value, request.exportWithinLimit)
    else GridJson(registry[gridIdent])
  }

  // ---------------------------------------------------------------------
  // Grid instances and the manager

  /** The part of a grid instance the handler touches. */
  class Grid {
    const factory: GridFactory
    var manager: object?
    var authChecked: bool
    var argsApplied: bool
    var exportTo: Option<string>

    /**
     * `grid_cls_or_creator()`: a fresh grid that sees its class's manager, with
     * authorisation not yet checked and no arguments loaded.
     */
    constructor (factory: GridFactory)
      ensures this.factory == factory
      ensures manager == factory.classManager
      ensures !authChecked && !argsApplied && exportTo == None
    {
      this.factory := factory;
      manager := factory.classManager;
      authChecked := false;
      argsApplied := false;
      exportTo := None;
    }

    /**
     * `grid.check_auth()`, run by the manager serving the request, which must
     * already be attached; `refusal` is the status it aborts with, if any.
     */
    method CheckAuth(api: WebGridAPI, refusal: Option<nat>) returns (abort: Option<nat>)
      requires manager == api
      modifies this
      ensures abort == refusal && authChecked
      ensures manager == old(manager) && argsApplied == old(argsApplied) && exportTo == old(exportTo)
    {
      authChecked := true;
      abort := refusal;
    }

    /** `grid.apply_qs_args()`: loads the request's arguments, which set `export_to`. */
    method ApplyQsArgs(requested: Option<string>)
      modifies this
      ensures argsApplied && exportTo == requested
      ensures manager == old(manager) && authChecked == old(authChecked)
    {
      argsApplied := true;
      exportTo := requested;
    }
  }

  class WebGridAPI {
    var registeredGrids: map<string, GridFactory>

    /** `WebGridAPI()`, which runs `init`. */
    constructor ()
      ensures registeredGrids == map[]
    {
      new;
      Init();
    }

    /** `init`: the registry starts empty. */
    method Init()
      modifies this
      ensures registeredGrids == map[]
    {
      registeredGrids := map[];
    }

    /**
     * `register_grid`: a new identifier is added with its class and nothing
     * else changes; an identifier already present is refused and the registry
     * is left as it was.
     */
    method RegisterGrid(gridIdent: string, gridClsOrCreator: GridFactory) returns (r: Result<(), string>)
      modifies this
      ensures gridIdent in old(registeredGrids) ==> r == Err(UniqueIdentMessage) && registeredGrids == old(registeredGrids)
      ensures gridIdent !in old(registeredGrids) ==> r.Ok? && registeredGrids == old(registeredGrids)[gridIdent := gridClsOrCreator]
    {
      if gridIdent in registeredGrids {
        return Err(UniqueIdentMessage);
      }
      registeredGrids := registeredGrids[gridIdent := gridClsOrCreator];
      return Ok(());
    }

    /** `api_init_grid`: builds a grid from its class or creator. */
    method ApiInitGrid(gridClsOrCreator: GridFactory) returns (grid: Grid)
      ensures fresh(grid)
      ensures grid.factory == gridClsOrCreator && grid.manager == gridClsOrCreator.classManager
      ensures !grid.authChecked && !grid.argsApplied
    {
      grid := new Grid(gridClsOrCreator);
    }

    /** `api_export_response`, for a grid whose arguments set an export target. */
    method ApiExportResponse(grid: Grid, withinLimit: bool) returns (resp: Response)
      requires grid.exportTo.Some?
      ensures resp == ExportResponse(grid.factory, grid.exportTo.value, withinLimit)
    {
      if withinLimit {
        resp := ExportFile(grid.factory, grid.exportTo.value);
      } else {
        resp := OnRenderLimitExceeded();
      }
    }

    /**
     * `api_view_method(grid_ident)`. `steps` records what the handler did, in
     * order; `grid` is the grid it built, if any. The registry is not changed.
     */
    method ApiViewMethod(gridIdent: string, request: ApiRequest) returns (resp: Response, steps: seq<Step>, grid: Grid?)
      ensures resp == ViewResponse(registeredGrids, gridIdent, request)
      // An unknown identifier is a 404, before any grid is built.
      ensures gridIdent !in registeredGrids ==> resp == Aborted(404) && steps == [Lookup] && grid == null
      // A known one builds its grid and attaches this manager before authorisation is checked.
      ensures gridIdent in registeredGrids ==>
        && grid != null && fresh(grid)
        && grid.factory == registeredGrids[gridIdent]
        && grid.manager == this && grid.authChecked
        && |steps| >= 4 && steps[..4] == [Lookup, InitGrid, AttachManager, CheckAuth]
      // A refused authorisation answers with its status and never loads the arguments.
      ensures gridIdent in registeredGrids && request.authAbort.Some? ==>
        && resp == Aborted(request.authAbort.value)
        && ApplyArgs !in steps
        && grid != null && !grid.argsApplied
      // Otherwise the arguments are loaded, then the grid is exported or rendered as JSON.
      ensures gridIdent in registeredGrids && request.authAbort.None? ==>
        && grid != null && grid.argsApplied && grid.exportTo == request.exportTo
        && steps == [Lookup, InitGrid, AttachManager, CheckAuth, ApplyArgs,
                     if ExportRequested(request.exportTo) then Export else RenderJson]
    {
      steps := [Lookup];
      if gridIdent !in registeredGrids {
        return Aborted(404), steps, null;
      }
      var g := ApiInitGrid(registeredGrids[gridIdent]);
      grid := g;
      steps := steps + [InitGrid];
      g.manager := this;
      steps := steps + [AttachManager];
      var abort := g.CheckAuth(this, request.authAbort);
      steps := steps + [CheckAuth];
      if abort.Some? {
        return Aborted(abort.value), steps, grid;
      }
      g.ApplyQsArgs(request.exportTo);
      steps := steps + [ApplyArgs];
      if ExportRequested(g.exportTo) {
        resp := ApiExportResponse(g, request.exportWithinLimit);
        steps := steps + [Export];
        return resp, steps, grid;
      }
      return GridJson(g.factory), steps + [RenderJson], grid;
    }
  }

  // ---------------------------------------------------------------------
  // As written
  //
  // webgrid/flask.py does not import the name `flask`, yet calls `flask.abort`
  // and `flask.jsonify`; it calls `self.on_render_limit_exceeded`, which that file
  // does not define (the handler there is `api_on_render_limit_exceeded`); and it calls
  // `self.api_export_response()` without the grid. Each raises.

  /** How a Python call ends: it returns a response or raises. */
  datatype Outcome = Returned(response: Response) | Raised(error: PyError)

  /** `api_on_render_limit_exceeded` as written: `flask` is an unbound name. */
  function OnRenderLimitExceededAsWritten(): (r: Outcome)
    ensures r.Raised? && r.error == NameError("flask")
  {
    Raised(NameError("flask"))
  }

  /** `api_export_response` as written: the limit branch looks up a method `webgrid/flask.py` does not define. */
  function ExportResponseAsWritten(grid: GridFactory, target: string, withinLimit: bool): (r: Outcome)
    ensures r.Raised? <==> !withinLimit
    ensures r.Raised? ==> r.error == AttributeError("on_render_limit_exceeded")
    ensures r.Returned? ==> r.response == ExportFile(grid, target)
  {
    if withinLimit then Returned(ExportFile(grid, target))
    else Raised(AttributeError("on_render_limit_exceeded"))
  }

  /** `api_view_method` as written. */
  function ViewAsWritten(registry: map<string, GridFactory>, gridIdent: string, request: ApiRequest): (r: Outcome)
    ensures r.Raised? <==>
      gridIdent !in registry || (request.authAbort.None? && ExportRequested(request.exportTo))
    ensures r.Raised? ==> r.error == NameError("flask") || r.error == TypeError
    ensures r.Returned? ==> r.response.Aborted? || r.response.GridJson?
  {
    if gridIdent !in registry then Raised(NameError("flask"))
    else if request.authAbort.Some? then Returned(Aborted(request.authAbort.value))
    else if ExportRequested(request.exportTo) then Raised(TypeError)
    else Returned(GridJson(registry[gridIdent]))
  }

  /** The as-written handler agrees with the intended one exactly off the three faulty paths. */
  lemma ViewAsWrittenVersusIntended(registry: map<string, GridFactory>, gridIdent: string, request: ApiRequest)
    ensures gridIdent !in registry ==>
      ViewAsWritten(registry, gridIdent, request) == Raised(NameError("flask"))
      && ViewResponse(registry, gridIdent, request) == Aborted(404)
    ensures gridIdent in registry && request.authAbort.None? && ExportRequested(request.exportTo) ==>
      ViewAsWritten(registry, gridIdent, request) == Raised(TypeError)
      && ViewResponse(registry, gridIdent, request).ExportFile? == request.exportWithinLimit
    ensures ViewAsWritten(registry, gridIdent, request).Returned? <==>
      gridIdent in registry && (request.authAbort.Some? || !ExportRequested(request.exportTo))
    ensures ViewAsWritten(registry, gridIdent, request).Returned? ==>
      ViewAsWritten(registry, gridIdent, request).response == ViewResponse(registry, gridIdent, request)
  {
  }

  /** The export path as written agrees with the intended one exactly when the export stays within the limit. */
  lemma ExportAsWrittenVersusIntended(grid: GridFactory, target: string, withinLimit: bool)
    ensures ExportResponseAsWritten(grid, target, withinLimit) == Returned(ExportResponse(grid, target, withinLimit))
      <==> withinLimit
    ensures !withinLimit ==> ExportResponseAsWritten(grid, target, withinLimit).Raised?
    ensures OnRenderLimitExceededAsWritten().Raised? && OnRenderLimitExceeded() == ErrorJson(RenderLimitMessage)
  {
  }

  /** An unregistered identifier: the intended 404 becomes a NameError. */
  lemma UnknownIdentRaisesNameError()
    ensures ViewAsWritten(map[], "foo", ApiRequest(None, None, true)) == Raised(NameError("flask"))
    ensures ViewResponse(map[], "foo", ApiRequest(None, None, true)) == Aborted(404)
  {
  }

  /** A JSON export request: the intended export becomes a TypeError for the missing argument. */
  lemma ExportRequestRaisesTypeError()
    ensures var registry := map["foo" := GridFactory("Grid", null)];
      var request := ApiRequest(None, Some("json"), true);
      ViewAsWritten(registry, "foo", request) == Raised(TypeError)
      && ViewResponse(registry, "foo", request) == ExportFile(GridFactory("Grid", null), "json")
  {
  }

  /** An export over the record limit: the intended error JSON becomes an AttributeError. */
  lemma RenderLimitRaisesAttributeError()
    ensures ExportResponseAsWritten(GridFactory("Grid", null), "xlsx", false) == Raised(AttributeError("on_render_limit_exceeded"))
    ensures ExportResponse(GridFactory("Grid", null), "xlsx", false) == ErrorJson("too many records for render target")
  {
  }
}
