/**
 * The request-normalisation and decision layer of the learning-path HTTP
 * controller: how `GET /api/paths` turns its query string into search filters
 * and pagination options, when `POST /api/paths` refuses a request before
 * creating anything, which HTTP status each handler answers for each error the
 * path service raises, and how service results are projected into responses.
 *
 * A handler is a function from its request (and the path service, an oracle
 * whose behaviour this model does not specify) to the response it sends.
 */
module PathController {
  import opened Wrappers
  import EcmaParseInt

  // ---------------------------------------------------------------------------
  // Paths and their projection into responses

  /** A path record as the service returns it. */
  datatype Path = Path(
    id: string,
    title: string,
    description: string,
    category: string,
    difficulty: Option<string>,
    steps: seq<string>,
    stepCount: int,
    createdAt: int,
    updatedAt: int)

  /** The fields of a path that every handler copies into its response body. */
  datatype PathView = PathView(
    id: string,
    title: string,
    description: string,
    category: string,
    stepCount: int,
    steps: seq<string>,
    createdAt: int,
    updatedAt: int)

  /** The eight fields copied from a path into a response: everything but its difficulty. */
  function View(p: Path): (v: PathView)
    ensures v.id == p.id && v.title == p.title && v.description == p.description && v.category == p.category
    ensures v.stepCount == p.stepCount && v.steps == p.steps && v.createdAt == p.createdAt && v.updatedAt == p.updatedAt
  {
    PathView(p.id, p.title, p.description, p.category, p.stepCount, p.steps, p.createdAt, p.updatedAt)
  }

  /** The response never exposes a path's difficulty: two paths look the same exactly when they differ at most there. */
  lemma ViewHidesDifficulty(p: Path, q: Path)
    ensures View(p) == View(q) <==> p.(difficulty := q.difficulty) == q
  {
  }

  /** `paths.map(path => ({ id, title, ... }))`: one view per path, same length, same order. */
  function ViewsOf(ps: seq<Path>): (vs: seq<PathView>)
    ensures |vs| == |ps|
    ensures forall i :: 0 <= i < |ps| ==> vs[i] == View(ps[i])
  {
    if ps == [] then [] else [View(ps[0])] + ViewsOf(ps[1..])
  }

  /** Projection commutes with concatenation, so the order of the service's list is kept. */
  lemma {:induction false} ViewsOfAppend(xs: seq<Path>, ys: seq<Path>)
    ensures ViewsOf(xs + ys) == ViewsOf(xs) + ViewsOf(ys)
  {
    if xs != [] {
      assert (xs + ys)[1..] == xs[1..] + ys;
      ViewsOfAppend(xs[1..], ys);
    } else {
      assert xs + ys == ys;
    }
  }

  // ---------------------------------------------------------------------------
  // Query normalisation for GET /api/paths

  /** The raw query string of a search; each parameter is absent or one string. */
  datatype SearchQuery = SearchQuery(
    category: Option<string>,
    difficulty: Option<string>,
    search: Option<string>,
    aiRelevance: Option<string>,
    page: Option<string>,
    limit: Option<string>,
    sortBy: Option<string>,
    sortOrder: Option<string>)

  /** The authenticated user attached to the request, if any. */
  datatype User = User(id: string)

  /** The filters handed to the service; no other field is ever set. */
  datatype SearchFilters = SearchFilters(
    category: Option<string>,
    difficulty: Option<string>,
    search: Option<string>,
    aiRelevance: Option<string>,
    userId: Option<string>)

  datatype SortOrder = Asc | Desc

  datatype PaginationOptions = PaginationOptions(
    page: int,
    limit: int,
    sortBy: string,
    sortOrder: SortOrder)

  const DefaultPage := "1"
  const DefaultLimit := "10"
  const MaxLimit := 100
  const DefaultSortBy := "createdAt"
  const DefaultSortOrder := "desc"

  /** A query value that JavaScript treats as truthy (present and non-empty) is kept unchanged. */
  function Truthy(raw: Option<string>): (r: Option<string>)
    ensures r.Some? <==> raw.Some? && raw.value != ""
    ensures r.Some? ==> r == raw
  {
    if raw.Some? && raw.value != "" then raw else None
  }

  /** `n || fallback` for a parseInt result: NaN and zero are falsy. */
  function OrDefault(n: Option<int>, fallback: int): (r: int)
    ensures n.Some? && n.value != 0 ==> r == n.value
    ensures n.None? || n.value == 0 ==> r == fallback
  {
    if n.Some? && n.value != 0 then n.value else fallback
  }

  /** `parseInt(page, 10) || 1`, with `page` defaulting to "1". */
  function EffectivePage(raw: Option<string>): (page: int)
    ensures page != 0
    ensures var n := EcmaParseInt.ParseInt(raw.GetOr(DefaultPage));
      (n.Some? && n.value != 0 ==> page == n.value) && (n.None? || n.value == 0 ==> page == 1)
  {
    OrDefault(EcmaParseInt.ParseInt(raw.GetOr(DefaultPage)), 1)
  }

  /** `Math.min(parseInt(limit, 10) || 10, 100)`, with `limit` defaulting to "10". */
  function EffectiveLimit(raw: Option<string>): (limit: int)
    ensures limit != 0 && limit <= MaxLimit
    ensures var n := EcmaParseInt.ParseInt(raw.GetOr(DefaultLimit));
      (n.Some? && n.value != 0 ==> limit == if n.value < MaxLimit then n.value else MaxLimit)
      && (n.None? || n.value == 0 ==> limit == 10)
  {
    var l := OrDefault(EcmaParseInt.ParseInt(raw.GetOr(DefaultLimit)), 10);
    if l < MaxLimit then l else MaxLimit
  }

  /** Absent page and limit parameters mean page 1 with 10 paths per page. */
  lemma AbsentPageAndLimit()
    ensures EffectivePage(None) == 1
    ensures EffectiveLimit(None) == 10
  {
    assert EcmaParseInt.DecimalNotation(1) == DefaultPage;
    EcmaParseInt.ParseIntRoundTrip(1);
    assert EcmaParseInt.DecimalNotation(10) == DefaultLimit;
    EcmaParseInt.ParseIntRoundTrip(10);
  }

  /** `sortBy` passes through verbatim, even when empty; only an absent value becomes "createdAt". */
  function EffectiveSortBy(raw: Option<string>): (sortBy: string)
    ensures raw.Some? ==> sortBy == raw.value
    ensures raw.None? ==> sortBy == "createdAt"
  {
    raw.GetOr(DefaultSortBy)
  }

  /** Ascending exactly when the raw value is the string "asc"; anything else, or nothing, is descending. */
  function EffectiveSortOrder(raw: Option<string>): (order: SortOrder)
    ensures order == Asc <==> raw == Some("asc")
  {
    if raw.GetOr(DefaultSortOrder) == "asc" then Asc else Desc
  }

  /** The pagination options handed to the service, each field normalised on its own. */
  function PaginationOptionsOf(q: SearchQuery): (opts: PaginationOptions)
    ensures opts.page != 0 && opts.page == EffectivePage(q.page)
    ensures opts.limit != 0 && opts.limit <= MaxLimit && opts.limit == EffectiveLimit(q.limit)
    ensures q.sortBy.Some? ==> opts.sortBy == q.sortBy.value
    ensures q.sortBy.None? ==> opts.sortBy == "createdAt"
    ensures opts.sortOrder == Asc <==> q.sortOrder == Some("asc")
  {
    PaginationOptions(EffectivePage(q.page), EffectiveLimit(q.limit), EffectiveSortBy(q.sortBy), EffectiveSortOrder(q.sortOrder))
  }

  /** The filter record: each query filter only when truthy, the user id only for an authenticated request. */
  function FiltersOf(q: SearchQuery, user: Option<User>): (f: SearchFilters)
    ensures f.category.Some? <==> q.category.Some? && q.category.value != ""
    ensures f.difficulty.Some? <==> q.difficulty.Some? && q.difficulty.value != ""
    ensures f.search.Some? <==> q.search.Some? && q.search.value != ""
    ensures f.aiRelevance.Some? <==> q.aiRelevance.Some? && q.aiRelevance.value != ""
    ensures f.category.Some? ==> f.category == q.category
    ensures f.difficulty.Some? ==> f.difficulty == q.difficulty
    ensures f.search.Some? ==> f.search == q.search
    ensures f.aiRelevance.Some? ==> f.aiRelevance == q.aiRelevance
    ensures f.userId.Some? <==> user.Some?
    ensures user.Some? ==> f.userId == Some(user.value.id)
  {
    SearchFilters(
      Truthy(q.category),
      Truthy(q.difficulty),
      Truthy(q.search),
      Truthy(q.aiRelevance),
      if user.Some? then Some(user.value.id) else None)
  }

  /** A non-zero page written in decimal reaches the service as that number, negatives included. */
  lemma PageOfNumeral(n: int, tail: string)
    requires n != 0
    requires tail == [] || !EcmaParseInt.IsDigit(tail[0])
    ensures EffectivePage(Some(EcmaParseInt.DecimalNotation(n) + tail)) == n
  {
    EcmaParseInt.ParseIntOfNotation(n, tail);
  }

  /** A non-zero limit written in decimal is capped at 100 and otherwise kept, negatives included. */
  lemma LimitOfNumeral(n: int, tail: string)
    requires n != 0
    requires tail == [] || !EcmaParseInt.IsDigit(tail[0])
    ensures EffectiveLimit(Some(EcmaParseInt.DecimalNotation(n) + tail)) == if n < MaxLimit then n else MaxLimit
  {
    EcmaParseInt.ParseIntOfNotation(n, tail);
  }

  /** Text that parseInt reads as NaN or zero falls back to the defaults 1 and 10. */
  lemma FalsyNumbersUseDefaults(s: string)
    requires EcmaParseInt.ParseInt(s) == None || EcmaParseInt.ParseInt(s) == Some(0)
    ensures EffectivePage(Some(s)) == 1
    ensures EffectiveLimit(Some(s)) == 10
  {
  }

  /** "-5" reaches the service as page -5: negative pages are not clamped. */
  lemma NegativePagePassesThrough()
    ensures EffectivePage(Some("-5")) == -5
  {
    assert EcmaParseInt.DecimalNotation(-5) + "" == "-5";
    PageOfNumeral(-5, "");
  }

  /** "12abc" is page 12: parsing stops at the first non-digit. */
  lemma TrailingTextIgnored()
    ensures EffectivePage(Some("12abc")) == 12
  {
    assert EcmaParseInt.DecimalNotation(12) + "abc" == "12abc";
    PageOfNumeral(12, "abc");
  }

  /** "0" is falsy after parsing, so the page falls back to 1 and the limit to 10. */
  lemma ZeroFallsBack()
    ensures EffectivePage(Some("0")) == 1
    ensures EffectiveLimit(Some("0")) == 10
  {
    assert EcmaParseInt.DecimalNotation(0) == "0";
    EcmaParseInt.ParseIntRoundTrip(0);
  }

  /** Text without digits, the empty string included, parses to NaN and falls back. */
  lemma NonNumericFallsBack()
    ensures EffectivePage(Some("abc")) == 1
    ensures EffectiveLimit(Some("")) == 10
  {
    assert !EcmaParseInt.IsWhiteSpace('a') && !EcmaParseInt.IsDigit('a');
    assert EcmaParseInt.TrimStart("abc") == "abc";
    assert EcmaParseInt.SplitSign("abc").rest == "abc";
  }

  /** "500" is capped at 100. */
  lemma LargeLimitCapped()
    ensures EffectiveLimit(Some("500")) == 100
  {
    assert EcmaParseInt.DecimalString(5) == "5";
    assert EcmaParseInt.DecimalString(50) == "50";
    assert EcmaParseInt.DecimalNotation(500) + "" == "500";
    LimitOfNumeral(500, "");
  }

  /** "-3" passes through as -3: the cap has no lower bound. */
  lemma NegativeLimitPassesThrough()
    ensures EffectiveLimit(Some("-3")) == -3
  {
    assert EcmaParseInt.DecimalNotation(-3) + "" == "-3";
    LimitOfNumeral(-3, "");
  }

  /** Only the exact lower-case "asc" sorts ascending; an empty sortBy is passed on as it is. */
  lemma SortExamples()
    ensures EffectiveSortOrder(Some("ASC")) == Desc
    ensures EffectiveSortOrder(Some("Asc")) == Desc
    ensures EffectiveSortOrder(None) == Desc
    ensures EffectiveSortOrder(Some("asc")) == Asc
    ensures EffectiveSortBy(Some("")) == ""
  {
  }

  // ---------------------------------------------------------------------------
  // Responses and the error-to-status mapping

  datatype Status = OK | Created | BadRequest | NotFound | InternalServerError

  function Code(s: Status): int {
    match s
    case OK => 200
    case Created => 201
    case BadRequest => 400
    case NotFound => 404
    case InternalServerError => 500
  }

  datatype Pagination = Pagination(
    total: int,
    page: int,
    limit: int,
    totalPages: int,
    hasNext: bool,
    hasPrev: bool)

  /** The aggregate the service computes for the statistics endpoint, forwarded as it is. */
  datatype Stats = Stats(counts: map<string, int>)

  datatype Payload =
    | NoData
    | OnePath(path: PathView)
    | PathPage(paths: seq<PathView>, pagination: Pagination)
    | PathList(paths: seq<PathView>, total: int)
    | PathStats(stats: Stats)

  datatype Response =
    | Success(status: Status, message: string, data: Payload)
    | Failure(status: Status, message: string)

  datatype Handler = CreatePath | SearchPaths | GetPathById | UpdatePath | DeletePath | GetPathsByCategory | GetPathStats

  const PathNotFound := "Path not found"
  const InvalidPathId := "Invalid path ID"
  const InvalidPathData := "Invalid path data"

  /** The generic message each handler sends with a 500, in place of the error's own text. */
  function GenericFailure(h: Handler): string {
    match h
    case CreatePath => "Failed to create path"
    case SearchPaths => "Failed to search paths"
    case GetPathById => "Failed to fetch path"
    case UpdatePath => "Failed to update path"
    case DeletePath => "Failed to delete path"
    case GetPathsByCategory => "Failed to fetch paths by category"
    case GetPathStats => "Failed to get path statistics"
  }

  /** The handlers that look a path up by its identifier. */
  predicate ById(h: Handler) {
    h == GetPathById || h == UpdatePath || h == DeletePath
  }

  /** The handlers that hand a body of path fields to the service. */
  predicate TakesPathData(h: Handler) {
    h == CreatePath || h == UpdatePath
  }

  /** The `catch` block of `createPath`: only "Invalid path data" is a client error. */
  function CreatePathCatch(message: string): (r: Response)
    ensures r.Failure? && r.status in {BadRequest, InternalServerError}
    ensures r.status == BadRequest <==> message == InvalidPathData
    ensures r.status == BadRequest ==> r.message == message
    ensures r.status == InternalServerError ==> r.message == "Failed to create path"
  {
    if message == InvalidPathData then Failure(BadRequest, message)
    else Failure(InternalServerError, GenericFailure(CreatePath))
  }

  /** The `catch` block of `getPathById`: not found is 404, a malformed id 400. */
  function GetPathByIdCatch(message: string): (r: Response)
    ensures r.Failure? && r.status in {NotFound, BadRequest, InternalServerError}
    ensures r.status == NotFound <==> message == PathNotFound
    ensures r.status == BadRequest <==> message == InvalidPathId
    ensures r.status != InternalServerError ==> r.message == message
    ensures r.status == InternalServerError ==> r.message == "Failed to fetch path"
  {
    if message == PathNotFound then Failure(NotFound, message)
    else if message == InvalidPathId then Failure(BadRequest, message)
    else Failure(InternalServerError, GenericFailure(GetPathById))
  }

  /** The `catch` block of `updatePath`: not found is 404, bad data or a malformed id 400. */
  function UpdatePathCatch(message: string): (r: Response)
    ensures r.Failure? && r.status in {NotFound, BadRequest, InternalServerError}
    ensures r.status == NotFound <==> message == PathNotFound
    ensures r.status == BadRequest <==> message == InvalidPathData || message == InvalidPathId
    ensures r.status != InternalServerError ==> r.message == message
    ensures r.status == InternalServerError ==> r.message == "Failed to update path"
  {
    if message == PathNotFound then Failure(NotFound, message)
    else if message == InvalidPathData || message == InvalidPathId then Failure(BadRequest, message)
    else Failure(InternalServerError, GenericFailure(UpdatePath))
  }

  /** The `catch` block of `deletePath`: not found is 404, a malformed id 400. */
  function DeletePathCatch(message: string): (r: Response)
    ensures r.Failure? && r.status in {NotFound, BadRequest, InternalServerError}
    ensures r.status == NotFound <==> message == PathNotFound
    ensures r.status == BadRequest <==> message == InvalidPathId
    ensures r.status != InternalServerError ==> r.message == message
    ensures r.status == InternalServerError ==> r.message == "Failed to delete path"
  {
    if message == PathNotFound then Failure(NotFound, message)
    else if message == InvalidPathId then Failure(BadRequest, message)
    else Failure(InternalServerError, GenericFailure(DeletePath))
  }

  /**
   * The response every handler sends for an error with the given message: 404
   * exactly for "Path not found" on the by-id handlers, 400 exactly for the
   * malformed-id and bad-data messages on the handlers that check them, and
   * otherwise 500 with a fixed message that does not repeat the error's text.
   */
  function ErrorResponse(h: Handler, message: string): (r: Response)
    ensures r.Failure?
    ensures r.status == NotFound <==> ById(h) && message == PathNotFound
    ensures r.status == BadRequest <==>
      (ById(h) && message == InvalidPathId) || (TakesPathData(h) && message == InvalidPathData)
    ensures r.status == InternalServerError <==> !(r.status == NotFound || r.status == BadRequest)
    ensures r.status != InternalServerError ==> r.message == message
    ensures r.status == InternalServerError ==> r.message == GenericFailure(h)
  {
    match h
    case CreatePath => CreatePathCatch(message)
    case GetPathById => GetPathByIdCatch(message)
    case UpdatePath => UpdatePathCatch(message)
    case DeletePath => DeletePathCatch(message)
    case SearchPaths => Failure(InternalServerError, GenericFailure(h))
    case GetPathsByCategory => Failure(InternalServerError, GenericFailure(h))
    case GetPathStats => Failure(InternalServerError, GenericFailure(h))
  }

  /** Every error ends in 400, 404 or 500, and the list endpoints answer 500 whatever the error. */
  lemma ErrorCodes(h: Handler, message: string)
    ensures Code(ErrorResponse(h, message).status) in {400, 404, 500}
    ensures h == SearchPaths || h == GetPathsByCategory || h == GetPathStats ==>
      ErrorResponse(h, message) == Failure(InternalServerError, GenericFailure(h))
  {
  }

  /** Where the mapping is not uniform: each specific message is recognised only by some handlers. */
  lemma ErrorMappingExamples()
    ensures ErrorResponse(CreatePath, InvalidPathId).status == InternalServerError
    ensures ErrorResponse(CreatePath, PathNotFound).status == InternalServerError
    ensures ErrorResponse(GetPathById, InvalidPathData).status == InternalServerError
    ensures ErrorResponse(DeletePath, InvalidPathData).status == InternalServerError
    ensures ErrorResponse(UpdatePath, InvalidPathData).status == BadRequest
    ensures ErrorResponse(DeletePath, PathNotFound).status == NotFound
    ensures ErrorResponse(GetPathById, "path not found").status == InternalServerError
  {
  }

  // ---------------------------------------------------------------------------
  // The service oracle and the handlers

  /** What a service call yields: a value, or an error with a message. */
  datatype Outcome<+T> = Returned(value: T) | Threw(message: string)

  /** The fields `createPath` hands to the service. */
  datatype CreatePathData = CreatePathData(title: string, description: string, category: string)

  /** The JSON body of a create request; an absent field is `None`. */
  datatype CreateBody = CreateBody(
    title: Option<string>,
    description: Option<string>,
    category: Option<string>,
    difficulty: Option<string>)

  /** The JSON body of an update request, handed to the service unchanged. */
  datatype UpdateBody = UpdateBody(
    title: Option<string>,
    description: Option<string>,
    category: Option<string>,
    difficulty: Option<string>)

  datatype SearchResult = SearchResult(
    paths: seq<Path>,
    total: int,
    page: int,
    limit: int,
    totalPages: int,
    hasNext: bool,
    hasPrev: bool)

  /**
   * The path service, as the controller sees it. Its behaviour is not part of
   * this model; a lookup may also return null, which is `None` here.
   */
  datatype PathService = PathService(
    createPath: CreatePathData -> Outcome<Path>,
    searchPaths: (SearchFilters, PaginationOptions) -> Outcome<SearchResult>,
    getPathById: string -> Outcome<Option<Path>>,
    updatePath: (string, UpdateBody) -> Outcome<Option<Path>>,
    deletePath: string -> Outcome<()>,
    getPathsByCategory: string -> Outcome<seq<Path>>,
    getPathStats: () -> Outcome<Stats>)

  /** The message of the TypeError raised by `path!.id` when the service returns null. */
  const NullPathError := "Cannot read properties of null (reading 'id')"

  const RequiredFieldsMessage := "Title, description, and category are required"

  /** The request `createPath` makes of the service, or `None` when it refuses the body first. */
  function CreateRequest(body: CreateBody): (d: Option<CreatePathData>)
    ensures d.None? <==> Truthy(body.title).None? || Truthy(body.description).None? || Truthy(body.category).None?
    ensures d.Some? ==>
      Some(d.value.title) == body.title && Some(d.value.description) == body.description && Some(d.value.category) == body.category
  {
    if Truthy(body.title).None? || Truthy(body.description).None? || Truthy(body.category).None? then None
    else Some(CreatePathData(body.title.value, body.description.value, body.category.value))
  }

  /**
   * POST /api/paths: a body without all three required fields is refused with
   * 400 before any call; otherwise the service's path is answered with 201 and
   * its view, and its error with the create mapping.
   */
  function HandleCreatePath(body: CreateBody, service: PathService): (r: Response)
    ensures CreateRequest(body).None? ==> r == Failure(BadRequest, RequiredFieldsMessage)
    ensures CreateRequest(body).Some? ==>
      match service.createPath(CreateRequest(body).value)
      case Returned(p) => r == Success(Created, "Path created successfully", OnePath(View(p)))
      case Threw(m) => r == ErrorResponse(CreatePath, m)
  {
    match CreateRequest(body)
    case None => Failure(BadRequest, RequiredFieldsMessage)
    case Some(data) =>
      match service.createPath(data)
      case Returned(p) => Success(Created, "Path created successfully", OnePath(View(p)))
      case Threw(m) => CreatePathCatch(m)
  }

  /**
   * GET /api/paths: the service is asked once, with the normalised filters and
   * options; its pagination block is copied unchanged and its paths are
   * projected one by one, in order. Any error is a 500 whose text ignores the
   * error's message.
   */
  function HandleSearchPaths(q: SearchQuery, user: Option<User>, service: PathService): (r: Response)
    ensures match service.searchPaths(FiltersOf(q, user), PaginationOptionsOf(q))
      case Returned(res) =>
        && r.Success? && r.status == OK && r.message == "Paths retrieved successfully" && r.data.PathPage?
        && r.data.pagination == Pagination(res.total, res.page, res.limit, res.totalPages, res.hasNext, res.hasPrev)
        && |r.data.paths| == |res.paths|
        && (forall i :: 0 <= i < |res.paths| ==> r.data.paths[i] == View(res.paths[i]))
      case Threw(_) => r == Failure(InternalServerError, "Failed to search paths")
  {
    match service.searchPaths(FiltersOf(q, user), PaginationOptionsOf(q))
    case Returned(res) =>
      Success(OK, "Paths retrieved successfully",
        PathPage(ViewsOf(res.paths), Pagination(res.total, res.page, res.limit, res.totalPages, res.hasNext, res.hasPrev)))
    case Threw(_) => Failure(InternalServerError, GenericFailure(SearchPaths))
  }

  /** GET /api/paths/:id: the path's view, the lookup mapping for errors, and 500 for a null path. */
  function HandleGetPathById(id: string, service: PathService): (r: Response)
    ensures match service.getPathById(id)
      case Returned(Some(p)) => r == Success(OK, "Path retrieved successfully", OnePath(View(p)))
      case Returned(None) => r == Failure(InternalServerError, "Failed to fetch path")
      case Threw(m) => r == ErrorResponse(GetPathById, m)
  {
    match service.getPathById(id)
    case Returned(Some(p)) => Success(OK, "Path retrieved successfully", OnePath(View(p)))
    case Returned(None) => GetPathByIdCatch(NullPathError)
    case Threw(m) => GetPathByIdCatch(m)
  }

  /** PUT /api/paths/:id: the body goes to the service unchanged; the updated path's view, the update mapping for errors, 500 for null. */
  function HandleUpdatePath(id: string, body: UpdateBody, service: PathService): (r: Response)
    ensures match service.updatePath(id, body)
      case Returned(Some(p)) => r == Success(OK, "Path updated successfully", OnePath(View(p)))
      case Returned(None) => r == Failure(InternalServerError, "Failed to update path")
      case Threw(m) => r == ErrorResponse(UpdatePath, m)
  {
    match service.updatePath(id, body)
    case Returned(Some(p)) => Success(OK, "Path updated successfully", OnePath(View(p)))
    case Returned(None) => UpdatePathCatch(NullPathError)
    case Threw(m) => UpdatePathCatch(m)
  }

  /** DELETE /api/paths/:id: success without data whatever the service returns; errors by the delete mapping. */
  function HandleDeletePath(id: string, service: PathService): (r: Response)
    ensures match service.deletePath(id)
      case Returned(_) => r == Success(OK, "Path deleted successfully", NoData)
      case Threw(m) => r == ErrorResponse(DeletePath, m)
  {
    match service.deletePath(id)
    case Returned(_) => Success(OK, "Path deleted successfully", NoData)
    case Threw(m) => DeletePathCatch(m)
  }

  /** GET /api/paths/category/:category: every returned path's view, in order, and their number as `total`. */
  function HandleGetPathsByCategory(category: string, service: PathService): (r: Response)
    ensures match service.getPathsByCategory(category)
      case Returned(ps) =>
        && r.Success? && r.status == OK && r.message == "Paths retrieved successfully" && r.data.PathList?
        && r.data.total == |ps| == |r.data.paths|
        && (forall i :: 0 <= i < |ps| ==> r.data.paths[i] == View(ps[i]))
      case Threw(_) => r == Failure(InternalServerError, "Failed to fetch paths by category")
  {
    match service.getPathsByCategory(category)
    case Returned(ps) => Success(OK, "Paths retrieved successfully", PathList(ViewsOf(ps), |ps|))
    case Threw(_) => Failure(InternalServerError, GenericFailure(GetPathsByCategory))
  }

  /** GET /api/paths/stats: the statistics forwarded unchanged; any error is a 500. */
  function HandleGetPathStats(service: PathService): (r: Response)
    ensures match service.getPathStats()
      case Returned(stats) => r == Success(OK, "Path statistics retrieved successfully", PathStats(stats))
      case Threw(_) => r == Failure(InternalServerError, "Failed to get path statistics")
  {
    match service.getPathStats()
    case Returned(stats) => Success(OK, "Path statistics retrieved successfully", PathStats(stats))
    case Threw(_) => Failure(InternalServerError, GenericFailure(GetPathStats))
  }

  // ---------------------------------------------------------------------------
  // Properties of the handlers

  /** A body missing a required field is refused with 400 whatever the service would do: it is never called. */
  lemma CreateRejectsBeforeService(body: CreateBody, s1: PathService, s2: PathService)
    requires body.title in {None, Some("")} || body.description in {None, Some("")} || body.category in {None, Some("")}
    ensures HandleCreatePath(body, s1) == HandleCreatePath(body, s2)
    ensures HandleCreatePath(body, s1) == Failure(BadRequest, RequiredFieldsMessage)
  {
  }

  /**
   * With all three fields present the service is called with exactly them: two
   * services that agree on that one call give the same response, and the
   * body's difficulty plays no part.
   */
  lemma CreateCallsServiceWithRequiredFields(body: CreateBody, s1: PathService, s2: PathService, d: Option<string>)
    requires body.title.Some? && body.title.value != ""
    requires body.description.Some? && body.description.value != ""
    requires body.category.Some? && body.category.value != ""
    requires s1.createPath(CreatePathData(body.title.value, body.description.value, body.category.value))
          == s2.createPath(CreatePathData(body.title.value, body.description.value, body.category.value))
    ensures HandleCreatePath(body, s1) == HandleCreatePath(body.(difficulty := d), s2)
    ensures HandleCreatePath(body, s1).status in {Created, BadRequest, InternalServerError}
  {
  }

  /** Two services that agree on the normalised call give the same search response. */
  lemma SearchCallsServiceOnce(q: SearchQuery, user: Option<User>, s1: PathService, s2: PathService)
    requires s1.searchPaths(FiltersOf(q, user), PaginationOptionsOf(q)) == s2.searchPaths(FiltersOf(q, user), PaginationOptionsOf(q))
    ensures HandleSearchPaths(q, user, s1) == HandleSearchPaths(q, user, s2)
  {
  }

  // The four lemmas below are per-message tables. Each follows from its
  // handler's ensures together with those of `ErrorResponse`; they spell out,
  // message by message, the status and text each handler answers with.

  /** The statuses a create request ends in once the service has been called. */
  lemma CreateOutcomes(body: CreateBody, service: PathService)
    requires CreateRequest(body).Some?
    ensures var call := service.createPath(CreateRequest(body).value);
      && (call.Returned? ==> Code(HandleCreatePath(body, service).status) == 201)
      && (call == Threw(InvalidPathData) ==> HandleCreatePath(body, service) == Failure(BadRequest, InvalidPathData))
      && (call.Threw? && call.message != InvalidPathData ==>
            HandleCreatePath(body, service) == Failure(InternalServerError, "Failed to create path"))
  {
  }

  /** The statuses a lookup by id ends in, for every service answer. */
  lemma GetByIdOutcomes(id: string, service: PathService)
    ensures var call := service.getPathById(id);
      && (call.Returned? && call.value.Some? ==> Code(HandleGetPathById(id, service).status) == 200)
      && (call == Threw(PathNotFound) ==> HandleGetPathById(id, service) == Failure(NotFound, PathNotFound))
      && (call == Threw(InvalidPathId) ==> HandleGetPathById(id, service) == Failure(BadRequest, InvalidPathId))
      && (call.Threw? && call.message != PathNotFound && call.message != InvalidPathId ==>
            HandleGetPathById(id, service) == Failure(InternalServerError, "Failed to fetch path"))
  {
  }

  /** The statuses an update ends in, for every service answer. */
  lemma UpdateOutcomes(id: string, body: UpdateBody, service: PathService)
    ensures var call := service.updatePath(id, body);
      && (call.Returned? && call.value.Some? ==> Code(HandleUpdatePath(id, body, service).status) == 200)
      && (call == Returned(None) ==> HandleUpdatePath(id, body, service) == Failure(InternalServerError, "Failed to update path"))
      && (call == Threw(PathNotFound) ==> HandleUpdatePath(id, body, service) == Failure(NotFound, PathNotFound))
      && (call == Threw(InvalidPathData) ==> HandleUpdatePath(id, body, service) == Failure(BadRequest, InvalidPathData))
      && (call == Threw(InvalidPathId) ==> HandleUpdatePath(id, body, service) == Failure(BadRequest, InvalidPathId))
      && (call.Threw? && call.message != PathNotFound && call.message != InvalidPathData && call.message != InvalidPathId ==>
            HandleUpdatePath(id, body, service) == Failure(InternalServerError, "Failed to update path"))
  {
  }

  /** The statuses a delete ends in, for every service answer; "Invalid path data" is not recognised here. */
  lemma DeleteOutcomes(id: string, service: PathService)
    ensures var call := service.deletePath(id);
      && (call.Returned? ==> HandleDeletePath(id, service) == Success(OK, "Path deleted successfully", NoData))
      && (call == Threw(PathNotFound) ==> HandleDeletePath(id, service) == Failure(NotFound, PathNotFound))
      && (call == Threw(InvalidPathId) ==> HandleDeletePath(id, service) == Failure(BadRequest, InvalidPathId))
      && (call.Threw? && call.message != PathNotFound && call.message != InvalidPathId ==>
            HandleDeletePath(id, service) == Failure(InternalServerError, "Failed to delete path"))
  {
  }
}


