/**
 * The response-cache interception: the cacheability decision, the read side
 * (`get_cached_response`), the write side (`cache_response`) and the request
 * handler (`app`) that splices both around the framework's own steps.
 *
 * The framework's internals are the hooks of `Framework`, all pure functions. Those
 * standing for calls that can raise return a value or the exception; content-type
 * parsing, error normalisation, the body-allowed test and the response class's
 * renderer return plain values.
 */
module Utils {
  import opened Wrappers
  import opened Http
  import opened Errors
  import opened Storages
  import opened Constants
  import opened Encoders

  // ---------------------------------------------------------------------------
  // Cacheability
  // ---------------------------------------------------------------------------

  /** `is_cachable`: the one predicate both the read and the write side use. */
  predicate IsCachable(req: Request, policy: Option<CachePolicy>) {
    && req.httpMethod == "GET"
    && policy.Some?
    && policy.value.isActive
    && (!policy.value.respectNoCache || HeaderGet(req.headers, "cache-control") != Some("no-cache"))
  }

  // ---------------------------------------------------------------------------
  // The storage a policy points at
  // ---------------------------------------------------------------------------

  function StorageOf(policy: Option<CachePolicy>): set<object> {
    if policy.Some? then {policy.value.storage} else {}
  }

  /** An untouched no-op store, standing for "no storage" where no policy is attached. */
  function NoStore(): StoreState {
    StoreState(Dummy, true, map[], [])
  }

  ghost function StoreOf(policy: Option<CachePolicy>): StoreState
    reads StorageOf(policy)
  {
    if policy.Some? then policy.value.storage.State() else NoStore()
  }

  // ---------------------------------------------------------------------------
  // Read side
  // ---------------------------------------------------------------------------

  /** The record a hit is built from: the stored record with the hit header stamped on it. */
  function StampHit(p: CachePolicy, e: ResponseEncoder): ResponseEncoder {
    if p.cachedResponseHeader != "" then e.(headers := SetHeader(e.headers, p.cachedResponseHeader, "true"))
    else e
  }

  /** `get_cached_response`: the result and the storage state afterwards. */
  function LookupSpec(req: Request, policy: Option<CachePolicy>, st: StoreState)
    : (Result<Option<ResponseValue>, Exc>, StoreState)
  {
    if !IsCachable(req, policy) then (Ok(None), st)
    else
      var p := policy.value;
      var (got, st') := GetStep(st, GetKey(p, req));
      match got
      case Err(e) => (Err(e), st')
      case Ok(None) => (Ok(None), st')
      case Ok(Some(data)) =>
        if data == [] then (Ok(None), st')
        else match ModelValidateJson(data)
          case None => (Err(InvalidEntry), st')
          case Some(e) => (Ok(Some(Decode(StampHit(p, e)))), st')
  }

  ghost predicate LookupModels(r: Result<Option<Response>, Exc>, v: Result<Option<ResponseValue>, Exc>)
    reads if r.Ok? && r.value.Some? then {r.value.value} else {}
  {
    match r
    case Err(e) => v == Err(e)
    case Ok(None) => v == Ok(None)
    case Ok(Some(resp)) => v == Ok(Some(resp.Value()))
  }

  method GetCachedResponse(req: Request, policy: Option<CachePolicy>)
    returns (r: Result<Option<Response>, Exc>)
    modifies StorageOf(policy)
    ensures LookupModels(r, LookupSpec(req, policy, old(StoreOf(policy))).0)
    ensures StoreOf(policy) == LookupSpec(req, policy, old(StoreOf(policy))).1
    ensures r.Ok? && r.value.Some? ==> fresh(r.value.value)
  {
    if IsCachable(req, policy) {
      var p := policy.value;
      var key := GetKey(p, req);
      var got := p.storage.Get(key);
      match got
      case Err(e) =>
        r := Err(e);
      case Ok(None) =>
        r := Ok(None);
      case Ok(Some(data)) =>
        if data == [] {
          r := Ok(None);
        } else {
          var parsed := ModelValidateJson(data);
          match parsed
          case None =>
            r := Err(InvalidEntry);
          case Some(stored) =>
            var e := stored;
            if p.cachedResponseHeader != "" {
              e := e.(headers := SetHeader(e.headers, p.cachedResponseHeader, "true"));
            }
            var response := new Response(Decode(e));
            r := Ok(Some(response));
        }
    } else {
      r := Ok(None);
    }
  }

  // ---------------------------------------------------------------------------
  // Write side
  // ---------------------------------------------------------------------------

  /** `cache_response`: the response returned and the storage state afterwards. */
  function WriteSpec(req: Request, resp: ResponseValue, policy: Option<CachePolicy>, st: StoreState)
    : (Result<ResponseValue, Exc>, StoreState)
  {
    if !IsCachable(req, policy) then (Ok(resp), st)
    else
      var p := policy.value;
      var (done, st') := SetStep(st, GetKey(p, req), CacheData(Encode(resp)), p.ttl);
      match done
      case Err(e) => (Err(e), st')
      case Ok(_) =>
        (Ok(if p.cachedResponseHeader != "" then resp.(headers := SetHeader(resp.headers, p.cachedResponseHeader, "false"))
            else resp), st')
  }

  method CacheResponse(req: Request, response: Response, policy: Option<CachePolicy>)
    returns (r: Result<Response, Exc>)
    modifies response, StorageOf(policy)
    ensures StoreOf(policy) == WriteSpec(req, old(response.Value()), policy, old(StoreOf(policy))).1
    ensures WriteSpec(req, old(response.Value()), policy, old(StoreOf(policy))).0 ==
            if r.Ok? then Ok(response.Value()) else Err(r.error)
    ensures r.Ok? ==> r.value == response
    ensures r.Err? ==> response.Value() == old(response.Value())
  {
    if IsCachable(req, policy) {
      var p := policy.value;
      var data := CacheData(Encode(response.Value()));
      var done := p.storage.Set(GetKey(p, req), data, p.ttl);
      match done
      case Err(e) =>
        r := Err(e);
      case Ok(_) =>
        if p.cachedResponseHeader != "" {
          response.headers := SetHeader(response.headers, p.cachedResponseHeader, "false");
        }
        r := Ok(response);
    } else {
      r := Ok(response);
    }
  }

  // ---------------------------------------------------------------------------
  // The framework around the handler
  // ---------------------------------------------------------------------------

  /** How a route declares its body parameter. */
  datatype BodyField = BodyField(isForm: bool)

  /** A `content-type` value split into its main type and subtype. */
  datatype ContentType = ContentType(maintype: string, subtype: string)

  /** The ambient response dependencies may set a status and headers on. */
  datatype SubResponse = SubResponse(status: Option<int>, headers: Headers)

  /** One raw error reported by dependency resolution. */
  datatype DepError = DepError(detail: string)

  type Values = map<string, Body>

  /** What `solve_dependencies` returns. */
  datatype Solved = Solved(
    values: Values,
    errors: seq<DepError>,
    background: Option<Background>,
    subResponse: SubResponse)

  /** An endpoint returns either a response object or content to be rendered. */
  datatype EndpointResult = DirectResponse(response: ResponseValue) | Content(content: Json)

  /** The route's response class: its default status, renderer and initial headers. */
  datatype ResponseClass = ResponseClass(
    defaultStatus: int,
    render: Json -> Bytes,
    initHeaders: (Bytes, int) -> Headers)

  /** What `get_request_handler` is given. */
  datatype HandlerConfig = HandlerConfig(
    bodyField: Option<BodyField>,
    statusCode: Option<int>,
    responseClass: ResponseClass,
    policy: Option<CachePolicy>)

  /**
   * The framework's internal calls. Body and form reading, JSON decoding, dependency
   * resolution, the endpoint and serialisation return a value or raise; content-type
   * parsing, error normalisation and the body-allowed test return plain values.
   */
  datatype Framework = Framework(
    readForm: Request -> Result<seq<(string, string)>, Exc>,
    readBody: Request -> Result<Bytes, Exc>,
    readJson: Bytes -> Result<Json, Exc>,
    contentType: string -> ContentType,
    solve: (Request, Body) -> Result<Solved, Exc>,
    normalize: seq<DepError> -> seq<ErrorItem>,
    runEndpoint: Values -> Result<EndpointResult, Exc>,
    serialize: Json -> Result<Json, Exc>,
    bodyAllowed: int -> bool)

  /** The framework calls a request passes through, in order. */
  datatype Step = ReadForm | ReadBody | ReadJson | SolveDependencies | RunEndpoint | SerializeResponse

  // ---------------------------------------------------------------------------
  // Body parsing
  // ---------------------------------------------------------------------------

  predicate EndsWith(s: string, suffix: string) {
    |suffix| <= |s| && s[|s| - |suffix|..] == suffix
  }

  /** A body is parsed as JSON when no content type is given, or it names the `application` main type with a `json` or `...+json` subtype. */
  predicate WantsJson(fw: Framework, req: Request) {
    var value := HeaderGet(req.headers, "content-type");
    value.None? || value.value == "" ||
    (var t := fw.contentType(value.value);
     t.maintype == "application" && (t.subtype == "json" || EndsWith(t.subtype, "+json")))
  }

  datatype Parsed = Parsed(body: Result<Body, Exc>, steps: seq<Step>)

  /**
   * Reads the body as the route declares it, before any error translation. A JSON
   * `null` leaves the body as `None`, the same value as no body at all.
   */
  function ReadRequestBody(field: Option<BodyField>, fw: Framework, req: Request): Parsed {
    if field.None? then Parsed(Ok(NoBody), [])
    else if field.value.isForm then
      match fw.readForm(req)
      case Err(e) => Parsed(Err(e), [ReadForm])
      case Ok(form) => Parsed(Ok(FormBody(form)), [ReadForm])
    else
      match fw.readBody(req)
      case Err(e) => Parsed(Err(e), [ReadBody])
      case Ok(bytes) =>
        if bytes == [] then Parsed(Ok(NoBody), [ReadBody])
        else if WantsJson(fw, req) then
          match fw.readJson(bytes)
          case Err(e) => Parsed(Err(e), [ReadBody, ReadJson])
          case Ok(json) => Parsed(Ok(if json.JNull? then NoBody else JsonBody(json)), [ReadBody, ReadJson])
        else Parsed(Ok(RawBody(bytes)), [ReadBody])
  }

  /** The error a failed body read surfaces as. */
  function ParseError(e: Exc): Exc {
    match e
    case JsonDecodeError(msg, doc, pos) =>
      RequestValidationError(
        [ErrorItem("json_invalid", [LocName("body"), LocIndex(pos)], "JSON decode error", msg)],
        Document(doc))
    case HttpError(_, _) => e
    case BaseError(_) => e
    case _ => HttpError(400, "There was an error parsing the body")
  }

  function ParseBody(field: Option<BodyField>, fw: Framework, req: Request): Parsed {
    var raw := ReadRequestBody(field, fw, req);
    if raw.body.Err? then Parsed(Err(ParseError(raw.body.error)), raw.steps) else raw
  }

  // ---------------------------------------------------------------------------
  // Building the response
  // ---------------------------------------------------------------------------

  /** Python truthiness of an optional status code. */
  predicate Truthy(status: Option<int>) {
    status.Some? && status.value != 0
  }

  /** The status the response class is constructed with. */
  function FinalStatus(route: Option<int>, sub: Option<int>, classDefault: int): int {
    var current := if Truthy(route) then route else sub;
    var chosen := if current.Some? then current.value else classDefault;
    if Truthy(sub) then sub.value else chosen
  }

  /** A response object returned by the endpoint gets the dependencies' tasks only if it has none. */
  function WithBackground(v: ResponseValue, tasks: Option<Background>): ResponseValue {
    if v.background.None? then v.(background := tasks) else v
  }

  /** Content rendered by the response class, with the body emptied where the status allows none. */
  function BuildFromContent(cfg: HandlerConfig, fw: Framework, s: Solved, content: Json): ResponseValue {
    var status := FinalStatus(cfg.statusCode, s.subResponse.status, cfg.responseClass.defaultStatus);
    var body := cfg.responseClass.render(content);
    var headers := cfg.responseClass.initHeaders(body, status);
    ResponseValue(
      if fw.bodyAllowed(status) then body else [],
      status,
      ExtendRaw(headers, s.subResponse.headers),
      s.background)
  }

  // ---------------------------------------------------------------------------
  // The request handler
  // ---------------------------------------------------------------------------

  datatype Run = Run(result: Result<ResponseValue, Exc>, steps: seq<Step>, store: StoreState)

  /** The outcome of one request through the handler built for `cfg`. */
  function HandleSpec(cfg: HandlerConfig, fw: Framework, req: Request, st: StoreState): Run {
    var parsed := ParseBody(cfg.bodyField, fw, req);
    match parsed.body
    case Err(e) => Run(Err(e), parsed.steps, st)
    case Ok(body) => ResolveSpec(cfg, fw, req, body, parsed.steps + [SolveDependencies], st)
  }

  /** Dependency resolution, then the cache lookup. */
  function ResolveSpec(cfg: HandlerConfig, fw: Framework, req: Request, body: Body, steps: seq<Step>, st: StoreState): Run {
    match fw.solve(req, body)
    case Err(e) => Run(Err(e), steps, st)
    case Ok(s) =>
      if s.errors != [] then
        Run(Err(RequestValidationError(fw.normalize(s.errors), BodyValue(body))), steps, st)
      else
        var (cached, st') := LookupSpec(req, cfg.policy, st);
        match cached
        case Err(e) => Run(Err(e), steps, st')
        case Ok(Some(hit)) => Run(Ok(hit), steps, st')
        case Ok(None) => MissSpec(cfg, fw, req, s, steps + [RunEndpoint], st')
  }

  /**
   * What a miss produces before the write side: the endpoint's response object (with
   * the dependencies' background tasks when it has none), or its content serialized and
   * rendered; the steps it adds; or the exception raised on the way.
   */
  function Produce(cfg: HandlerConfig, fw: Framework, s: Solved): (Result<ResponseValue, Exc>, seq<Step>) {
    match fw.runEndpoint(s.values)
    case Err(e) => (Err(e), [])
    case Ok(DirectResponse(v)) => (Ok(WithBackground(v, s.background)), [])
    case Ok(Content(c)) =>
      match fw.serialize(c)
      case Err(e) => (Err(e), [SerializeResponse])
      case Ok(content) => (Ok(BuildFromContent(cfg, fw, s, content)), [SerializeResponse])
  }

  /** A miss: the endpoint, rendering, and the write side. */
  function MissSpec(cfg: HandlerConfig, fw: Framework, req: Request, s: Solved, steps: seq<Step>, st: StoreState): Run {
    var (produced, more) := Produce(cfg, fw, s);
    match produced
    case Err(e) => Run(Err(e), steps + more, st)
    case Ok(v) =>
      var (w, st') := WriteSpec(req, v, cfg.policy, st);
      Run(w, steps + more, st')
  }

  ghost predicate ResultModels(r: Result<Response, Exc>, v: Result<ResponseValue, Exc>)
    reads if r.Ok? then {r.value} else {}
  {
    match r
    case Err(e) => v == Err(e)
    case Ok(resp) => v == Ok(resp.Value())
  }

  /** The `app` closure returned by `get_request_handler`. */
  method App(cfg: HandlerConfig, fw: Framework, req: Request)
    returns (r: Result<Response, Exc>, ghost steps: seq<Step>)
    modifies StorageOf(cfg.policy)
    ensures ResultModels(r, HandleSpec(cfg, fw, req, old(StoreOf(cfg.policy))).result)
    ensures steps == HandleSpec(cfg, fw, req, old(StoreOf(cfg.policy))).steps
    ensures StoreOf(cfg.policy) == HandleSpec(cfg, fw, req, old(StoreOf(cfg.policy))).store
    ensures r.Ok? ==> fresh(r.value)
  {
    var parsed := ParseBody(cfg.bodyField, fw, req);
    steps := parsed.steps;
    if parsed.body.Err? {
      return Err(parsed.body.error), steps;
    }
    var body := parsed.body.value;
    steps := steps + [SolveDependencies];
    var solved := fw.solve(req, body);
    if solved.Err? {
      return Err(solved.error), steps;
    }
    var s := solved.value;
    if s.errors != [] {
      return Err(RequestValidationError(fw.normalize(s.errors), BodyValue(body))), steps;
    }
    var cached := GetCachedResponse(req, cfg.policy);
    if cached.Err? {
      return Err(cached.error), steps;
    }
    if cached.value.Some? {
      return Ok(cached.value.value), steps;
    }
    steps := steps + [RunEndpoint];
    var raw := fw.runEndpoint(s.values);
    if raw.Err? {
      return Err(raw.error), steps;
    }
    var response: Response;
    match raw.value {
      case DirectResponse(v) =>
        response := new Response(v);
        if response.background.None? {
          response.background := s.background;
        }
      case Content(c) =>
        steps := steps + [SerializeResponse];
        var content := fw.serialize(c);
        if content.Err? {
          return Err(content.error), steps;
        }
        var status := FinalStatus(cfg.statusCode, s.subResponse.status, cfg.responseClass.defaultStatus);
        var rendered := cfg.responseClass.render(content.value);
        response := new Response(ResponseValue(
          rendered, status, cfg.responseClass.initHeaders(rendered, status), s.background));
        if !fw.bodyAllowed(response.status) {
          response.body := [];
        }
        response.headers := ExtendRaw(response.headers, s.subResponse.headers);
    }
    r := CacheResponse(req, response, cfg.policy);
  }
}
