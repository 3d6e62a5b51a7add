/**
 * Route registration of the caching router: `CachedAPIRouter.add_api_route`,
 * `api_route`, `get`, `include_router`, and the handler a `CachedAPIRoute`
 * builds for itself.
 */
module Routing {
  import opened Wrappers
  import opened Constants
  import opened Utils

  // ---------------------------------------------------------------------------
  // Values a route is built from
  // ---------------------------------------------------------------------------

  /** A setting given explicitly, or one still wrapped in FastAPI's `Default(...)` placeholder. */
  datatype Setting<+T> = Explicit(value: T) | Defaulted(value: T)

  /** The first explicitly given setting of a list, if there is one. */
  function FirstExplicit<T>(items: seq<Setting<T>>): (r: Option<Setting<T>>)
    ensures r.Some? <==> exists i :: 0 <= i < |items| && items[i].Explicit?
    ensures r.Some? ==> exists i :: 0 <= i < |items| && items[i] == r.value && items[i].Explicit?
                                    && forall k :: 0 <= k < i ==> items[k].Defaulted?
  {
    if items == [] then None
    else if items[0].Explicit? then Some(items[0])
    else
      var r := FirstExplicit(items[1..]);
      assert forall i :: 1 <= i < |items| ==> items[i] == items[1..][i - 1];
      r
  }

  /** FastAPI's `get_value_or_default`: the first explicit setting, else the first setting. */
  function ValueOrDefault<T>(items: seq<Setting<T>>): (r: Setting<T>)
    requires |items| > 0
    ensures (forall i :: 0 <= i < |items| ==> items[i].Defaulted?) ==> r == items[0]
    ensures r.Explicit? <==> exists i :: 0 <= i < |items| && items[i].Explicit?
  {
    FirstExplicit(items).GetOr(items[0])
  }

  /** Which route class registers a path operation: exactly `CachedAPIRoute`, or FastAPI's `APIRoute`. */
  datatype RouteClass = CachedApiRoute | PlainApiRoute

  /** The endpoint function, with the request-body parameter FastAPI derives from its signature. */
  datatype Endpoint = Endpoint(name: string, bodyField: Option<BodyField>)

  /** A registered path operation, with the attributes the router merges or forwards. */
  datatype Route = Route(
    routeClass: RouteClass,
    path: string,
    endpoint: Endpoint,
    statusCode: Option<int>,
    tags: seq<string>,
    dependencies: seq<string>,
    callbacks: seq<string>,
    deprecated: Option<bool>,
    methods: Option<seq<string>>,
    includeInSchema: bool,
    responseClass: Setting<ResponseClass>,
    name: Option<string>,
    policy: Option<CachePolicy>)

  /** An attribute as `getattr` sees it: absent from the object, or present with a value that may be `None`. */
  datatype Attr<+T> = Missing | Present(value: T)

  /** An entry of `router.routes`: a path operation, or a route of another kind (mount, host, websocket, plain). */
  datatype BaseRoute = Api(route: Route) | OtherRoute(path: Attr<Option<string>>, name: Attr<Option<string>>)

  /** The keyword arguments of `add_api_route` this model keeps. */
  datatype RouteArgs = RouteArgs(
    statusCode: Option<int>,
    tags: seq<string>,
    dependencies: seq<string>,
    callbacks: seq<string>,
    deprecated: Option<bool>,
    methods: Option<seq<string>>,
    includeInSchema: bool,
    responseClass: Setting<ResponseClass>,
    name: Option<string>,
    policy: Option<CachePolicy>)

  /** The keyword arguments of `include_router` this model keeps (an absent list is the empty list). */
  datatype IncludeArgs = IncludeArgs(
    prefix: string,
    tags: seq<string>,
    dependencies: seq<string>,
    callbacks: seq<string>,
    deprecated: Option<bool>,
    includeInSchema: bool,
    defaultResponseClass: Setting<ResponseClass>)

  /** The router-level settings every registration reads. */
  datatype RouterConfig = RouterConfig(
    prefix: string,
    tags: seq<string>,
    dependencies: seq<string>,
    callbacks: seq<string>,
    deprecated: Option<bool>,
    includeInSchema: bool,
    defaultResponseClass: Setting<ResponseClass>,
    routeClass: RouteClass)

  /** Python truthiness of an optional flag: only `True` is truthy. */
  predicate IsTrue(b: Option<bool>) {
    b == Some(true)
  }

  /** Python's `a or b` on optional flags: `a` when it is truthy, `b` otherwise. */
  function PyOr(a: Option<bool>, b: Option<bool>): (r: Option<bool>)
    ensures IsTrue(r) <==> IsTrue(a) || IsTrue(b)
    ensures !IsTrue(a) ==> r == b
  {
    if IsTrue(a) then a else b
  }

  // ---------------------------------------------------------------------------
  // What the registrations compute
  // ---------------------------------------------------------------------------

  /** The route `add_api_route` builds and appends. */
  function NewRoute(c: RouterConfig, path: string, endpoint: Endpoint, args: RouteArgs,
                    routeClassOverride: Option<RouteClass>): Route
  {
    var cls := routeClassOverride.GetOr(c.routeClass);
    Route(
      cls,
      c.prefix + path,
      endpoint,
      args.statusCode,
      c.tags + args.tags,
      c.dependencies + args.dependencies,
      c.callbacks + args.callbacks,
      PyOr(args.deprecated, c.deprecated),
      args.methods,
      args.includeInSchema && c.includeInSchema,
      ValueOrDefault([args.responseClass, c.defaultResponseClass]),
      args.name,
      if cls.CachedApiRoute? then args.policy else None)
  }

  /** The arguments `include_router` hands to `add_api_route` for one included path operation. */
  function IncludedArgs(c: RouterConfig, routerDefault: Setting<ResponseClass>, inc: IncludeArgs, r: Route): RouteArgs {
    RouteArgs(
      r.statusCode,
      inc.tags + r.tags,
      inc.dependencies + r.dependencies,
      inc.callbacks + r.callbacks,
      PyOr(PyOr(r.deprecated, inc.deprecated), c.deprecated),
      r.methods,
      r.includeInSchema && c.includeInSchema && inc.includeInSchema,
      ValueOrDefault([r.responseClass, routerDefault, inc.defaultResponseClass, c.defaultResponseClass]),
      r.name,
      if r.routeClass.CachedApiRoute? then r.policy else None)
  }

  /** The route registered for one included path operation. */
  function IncludedRoute(c: RouterConfig, routerDefault: Setting<ResponseClass>, inc: IncludeArgs, r: Route): Route {
    NewRoute(c, inc.prefix + r.path, r.endpoint, IncludedArgs(c, routerDefault, inc, r), Some(r.routeClass))
  }

  /** What one entry of `router.routes` adds: its re-registration, or nothing for other route kinds. */
  function IncludedEntry(c: RouterConfig, routerDefault: Setting<ResponseClass>, inc: IncludeArgs, b: BaseRoute): seq<BaseRoute> {
    match b
    case Api(r) => [Api(IncludedRoute(c, routerDefault, inc, r))]
    case OtherRoute(_, _) => []
  }

  /** Everything `include_router` appends, in the order of `router.routes`. */
  function IncludedRoutes(c: RouterConfig, routerDefault: Setting<ResponseClass>, inc: IncludeArgs,
                          rs: seq<BaseRoute>): seq<BaseRoute>
  {
    if rs == [] then []
    else IncludedRoutes(c, routerDefault, inc, rs[..|rs| - 1]) + IncludedEntry(c, routerDefault, inc, rs[|rs| - 1])
  }

  /** `IncludedRoutes` grows by one entry's worth from each prefix of the list to the next. */
  lemma IncludedRoutesStep(c: RouterConfig, routerDefault: Setting<ResponseClass>, inc: IncludeArgs,
                           rs: seq<BaseRoute>, j: nat)
    requires j < |rs|
    ensures IncludedRoutes(c, routerDefault, inc, rs[..j + 1])
         == IncludedRoutes(c, routerDefault, inc, rs[..j]) + IncludedEntry(c, routerDefault, inc, rs[j])
  {
    assert rs[..j + 1][..j] == rs[..j] && rs[..j + 1][j] == rs[j];
  }

  /** The path operations of a route list, in order. */
  function ApiRoutesOf(rs: seq<BaseRoute>): seq<Route> {
    if rs == [] then []
    else ApiRoutesOf(rs[..|rs| - 1]) + (if rs[|rs| - 1].Api? then [rs[|rs| - 1].route] else [])
  }

  /** The included routes are the path operations of the included router, in order, each re-registered. */
  lemma {:induction false} IncludedRoutesInOrder(c: RouterConfig, d: Setting<ResponseClass>, inc: IncludeArgs,
                                                 rs: seq<BaseRoute>)
    ensures |IncludedRoutes(c, d, inc, rs)| == |ApiRoutesOf(rs)|
    ensures forall i :: 0 <= i < |ApiRoutesOf(rs)| ==>
              IncludedRoutes(c, d, inc, rs)[i] == Api(IncludedRoute(c, d, inc, ApiRoutesOf(rs)[i]))
  {
    if rs != [] {
      IncludedRoutesInOrder(c, d, inc, rs[..|rs| - 1]);
    }
  }

  // ---------------------------------------------------------------------------
  // Prefix validation
  // ---------------------------------------------------------------------------

  datatype RoutingError =
    | PrefixMissingSlash            // a non-empty prefix must start with '/'
    | PrefixTrailingSlash           // a non-empty prefix must not end with '/'
    | EmptyPrefixAndPath(name: string)  // prefix and path cannot be both empty
    | PathAttributeMissing          // `getattr(r, 'path')` on a route kind that has no path raises

  /** `getattr(r, 'path')` as it finds the attribute. */
  function PathOf(b: BaseRoute): Attr<Option<string>> {
    match b
    case Api(r) => Present(Some(r.path))
    case OtherRoute(p, _) => p
  }

  /**
   * `getattr(r, 'name', 'unknown')` as the error message formats it: a path operation
   * without a name is named after its endpoint, and a name that is `None` prints as "None".
   */
  function NameOf(b: BaseRoute): string {
    match b
    case Api(r) => r.name.GetOr(r.endpoint.name)
    case OtherRoute(_, Missing) => "unknown"
    case OtherRoute(_, Present(None)) => "None"
    case OtherRoute(_, Present(Some(n))) => n
  }

  /** What the empty-prefix scan raises at one route, if anything. */
  function PathProblem(b: BaseRoute): Option<RoutingError> {
    match PathOf(b)
    case Missing => Some(PathAttributeMissing)
    case Present(p) => if p == Some("") then Some(EmptyPrefixAndPath(NameOf(b))) else None
  }

  /** The error the scan meets first, walking the routes in order. */
  function FirstPathProblem(rs: seq<BaseRoute>): (r: Option<RoutingError>)
    ensures r.Some? <==> exists i :: 0 <= i < |rs| && PathProblem(rs[i]).Some?
    ensures r.Some? ==> exists i :: 0 <= i < |rs| && PathProblem(rs[i]) == r
                                    && forall k :: 0 <= k < i ==> PathProblem(rs[k]).None?
  {
    if rs == [] then None
    else if PathProblem(rs[0]).Some? then PathProblem(rs[0])
    else
      var r := FirstPathProblem(rs[1..]);
      assert forall i :: 1 <= i < |rs| ==> rs[i] == rs[1..][i - 1];
      r
  }

  /** The scan reports the problem of the first route that has one. */
  lemma {:induction false} FirstPathProblemAt(rs: seq<BaseRoute>, i: nat)
    requires i < |rs| && PathProblem(rs[i]).Some?
    requires forall k :: 0 <= k < i ==> PathProblem(rs[k]).None?
    ensures FirstPathProblem(rs) == PathProblem(rs[i])
  {
    if i > 0 {
      assert forall k :: 0 <= k < i - 1 ==> rs[1..][k] == rs[k + 1];
      FirstPathProblemAt(rs[1..], i - 1);
    }
  }

  /** The checks `include_router` makes before it registers anything. */
  function PrefixCheck(prefix: string, rs: seq<BaseRoute>): Outcome<RoutingError> {
    if prefix != "" then
      if prefix[0] != '/' then Fail(PrefixMissingSlash)
      else if prefix[|prefix| - 1] == '/' then Fail(PrefixTrailingSlash)
      else Pass
    else
      match FirstPathProblem(rs)
      case Some(e) => Fail(e)
      case None => Pass
  }

  /** The checks of `include_router`, made in the order `include_router` makes them. */
  method CheckPrefix(prefix: string, rs: seq<BaseRoute>) returns (r: Outcome<RoutingError>)
    ensures r == PrefixCheck(prefix, rs)
  {
    if prefix != "" {
      if prefix[0] != '/' {
        return Fail(PrefixMissingSlash);
      }
      if prefix[|prefix| - 1] == '/' {
        return Fail(PrefixTrailingSlash);
      }
    } else {
      var i := 0;
      while i < |rs|
        invariant 0 <= i <= |rs|
        invariant forall k :: 0 <= k < i ==> PathProblem(rs[k]).None?
      {
        if PathOf(rs[i]).Missing? {
          FirstPathProblemAt(rs, i);
          return Fail(PathAttributeMissing);
        }
        var path := PathOf(rs[i]).value;
        var name := NameOf(rs[i]);
        if path == Some("") {
          FirstPathProblemAt(rs, i);
          return Fail(EmptyPrefixAndPath(name));
        }
        i := i + 1;
      }
    }
    r := Pass;
  }

  // ---------------------------------------------------------------------------
  // The router
  // ---------------------------------------------------------------------------

  /** `CachedAPIRouter`: its settings and the list of routes it has registered. */
  class Router {
    var prefix: string
    var tags: seq<string>
    var dependencies: seq<string>
    var callbacks: seq<string>
    var deprecated: Option<bool>
    var includeInSchema: bool
    var defaultResponseClass: Setting<ResponseClass>
    var routeClass: RouteClass
    var routes: seq<BaseRoute>

    function Config(): RouterConfig
      reads this
    {
      RouterConfig(prefix, tags, dependencies, callbacks, deprecated, includeInSchema, defaultResponseClass, routeClass)
    }

    /** A router with the given settings and no routes; `CachedAPIRoute` is the default route class. */
    constructor (c: RouterConfig)
      ensures Config() == c && routes == []
    {
      prefix := c.prefix;
      tags := c.tags;
      dependencies := c.dependencies;
      callbacks := c.callbacks;
      deprecated := c.deprecated;
      includeInSchema := c.includeInSchema;
      defaultResponseClass := c.defaultResponseClass;
      routeClass := c.routeClass;
      routes := [];
    }

    /** `add_api_route`: appends exactly one route; the router's own lists are copied, never extended. */
    method AddApiRoute(path: string, endpoint: Endpoint, args: RouteArgs, routeClassOverride: Option<RouteClass>)
      modifies this
      ensures Config() == old(Config())
      ensures routes == old(routes) + [Api(NewRoute(old(Config()), path, endpoint, args, routeClassOverride))]
    {
      var cls := routeClassOverride.GetOr(routeClass);
      var currentResponseClass := ValueOrDefault([args.responseClass, defaultResponseClass]);
      var currentTags := tags;
      currentTags := currentTags + args.tags;
      var currentDependencies := dependencies;
      currentDependencies := currentDependencies + args.dependencies;
      var currentCallbacks := callbacks;
      currentCallbacks := currentCallbacks + args.callbacks;
      var policy: Option<CachePolicy> := None;
      if cls.CachedApiRoute? {
        policy := args.policy;
      }
      var route := Route(
        cls, prefix + path, endpoint, args.statusCode, currentTags, currentDependencies, currentCallbacks,
        PyOr(args.deprecated, deprecated), args.methods, args.includeInSchema && includeInSchema,
        currentResponseClass, args.name, policy);
      routes := routes + [Api(route)];
    }

    /** `api_route(path, ...)` applied to an endpoint: registers it and hands the endpoint back. */
    method ApiRoute(path: string, args: RouteArgs, endpoint: Endpoint) returns (f: Endpoint)
      modifies this
      ensures f == endpoint
      ensures Config() == old(Config())
      ensures routes == old(routes) + [Api(NewRoute(old(Config()), path, endpoint, args, None))]
    {
      AddApiRoute(path, endpoint, args, None);
      f := endpoint;
    }

    /** `get(path, ...)` applied to an endpoint: `api_route` with the methods fixed to `['GET']`. */
    method Get(path: string, args: RouteArgs, endpoint: Endpoint) returns (f: Endpoint)
      modifies this
      ensures f == endpoint
      ensures Config() == old(Config())
      ensures routes == old(routes) + [Api(NewRoute(old(Config()), path, endpoint, args.(methods := Some(["GET"])), None))]
    {
      f := ApiRoute(path, args.(methods := Some(["GET"])), endpoint);
    }

    /**
     * `include_router`: validates the prefix, then re-registers every path operation of
     * `router` through `add_api_route`, merging the include-level settings into each.
     * Including a router into itself when it has path operations and passes the checks
     * never terminates in cachepot (the loop walks the list it appends to), so that case
     * is excluded. Other route kinds are not re-registered by this model, so a
     * self-inclusion without path operations adds nothing here; in cachepot that holds
     * only when its routes are mounts or hosts, as plain and websocket routes are
     * re-added too.
     */
    method IncludeRouter(router: Router, inc: IncludeArgs) returns (r: Outcome<RoutingError>)
      requires router != this || ApiRoutesOf(router.routes) == [] || PrefixCheck(inc.prefix, router.routes).Fail?
      modifies this
      ensures r == PrefixCheck(inc.prefix, old(router.routes))
      ensures Config() == old(Config())
      ensures r.Fail? ==> routes == old(routes)
      ensures r.Pass? ==> routes == old(routes) + IncludedRoutes(old(Config()), old(router.defaultResponseClass), inc, old(router.routes))
      ensures ApiRoutesOf(old(router.routes)) == [] ==> routes == old(routes)
    {
      var rs := router.routes;
      var routerDefault := router.defaultResponseClass;
      r := CheckPrefix(inc.prefix, rs);
      if r.Pass? {
        IncludedRoutesInOrder(Config(), routerDefault, inc, rs);
        AppendIncluded(routerDefault, inc, rs);
      }
    }

    /** A path operation of the included router: merge the settings, then `add_api_route`. */
    method IncludeOne(routerDefault: Setting<ResponseClass>, inc: IncludeArgs, route: Route)
      modifies this
      ensures Config() == old(Config())
      ensures routes == old(routes) + [Api(IncludedRoute(old(Config()), routerDefault, inc, route))]
    {
      var currentTags: seq<string> := [];
      currentTags := currentTags + inc.tags;
      currentTags := currentTags + route.tags;
      var currentDependencies: seq<string> := [];
      currentDependencies := currentDependencies + inc.dependencies;
      currentDependencies := currentDependencies + route.dependencies;
      var currentCallbacks: seq<string> := [];
      currentCallbacks := currentCallbacks + inc.callbacks;
      currentCallbacks := currentCallbacks + route.callbacks;
      var useResponseClass := ValueOrDefault([route.responseClass, routerDefault, inc.defaultResponseClass, defaultResponseClass]);
      var policy: Option<CachePolicy> := None;
      if route.routeClass.CachedApiRoute? {
        policy := route.policy;
      }
      var args := RouteArgs(
        route.statusCode, currentTags, currentDependencies, currentCallbacks,
        PyOr(PyOr(route.deprecated, inc.deprecated), deprecated), route.methods,
        route.includeInSchema && includeInSchema && inc.includeInSchema,
        useResponseClass, route.name, policy);
      assert args == IncludedArgs(old(Config()), routerDefault, inc, route);
      AddApiRoute(inc.prefix + route.path, route.endpoint, args, Some(route.routeClass));
    }

    /** The body of that loop: path operations are re-registered, other route kinds skipped. */
    method IncludeEntry(routerDefault: Setting<ResponseClass>, inc: IncludeArgs, b: BaseRoute)
      modifies this
      ensures Config() == old(Config())
      ensures routes == old(routes) + IncludedEntry(old(Config()), routerDefault, inc, b)
    {
      match b {
        case Api(route) => IncludeOne(routerDefault, inc, route);
        case OtherRoute(_, _) =>
      }
    }

    /** The registration loop of `include_router`, over the routes of the included router. */
    method AppendIncluded(routerDefault: Setting<ResponseClass>, inc: IncludeArgs, rs: seq<BaseRoute>)
      modifies this
      ensures Config() == old(Config())
      ensures routes == old(routes) + IncludedRoutes(old(Config()), routerDefault, inc, rs)
    {
      for j := 0 to |rs|
        invariant Config() == old(Config())
        invariant routes == old(routes) + IncludedRoutes(old(Config()), routerDefault, inc, rs[..j])
      {
        IncludeEntry(routerDefault, inc, rs[j]);
        IncludedRoutesStep(old(Config()), routerDefault, inc, rs, j);
      }
      assert rs[..|rs|] == rs;
    }
  }

  // ---------------------------------------------------------------------------
  // The handler of a cached route
  // ---------------------------------------------------------------------------

  /**
   * `CachedAPIRoute.get_route_handler`: the configuration `get_request_handler` receives,
   * with the route's own policy and the placeholder around the response class removed.
   */
  function GetRouteHandler(route: Route): HandlerConfig
    requires route.routeClass.CachedApiRoute?
  {
    HandlerConfig(route.endpoint.bodyField, route.statusCode, route.responseClass.value, route.policy)
  }
}
