/** Properties of route registration: prefix checks, merging, ordering and policy forwarding. */
module RoutingProperties {
  import opened Wrappers
  import opened Http
  import opened Constants
  import opened Utils
  import opened Routing

  // ---------------------------------------------------------------------------
  // Prefix validation
  // ---------------------------------------------------------------------------

  /** A non-empty prefix passes exactly when it starts with '/' and does not end with '/'; routes are not looked at. */
  lemma NonEmptyPrefixCheck(prefix: string, rs: seq<BaseRoute>)
    requires prefix != ""
    ensures PrefixCheck(prefix, rs).Pass? <==> prefix[0] == '/' && prefix[|prefix| - 1] != '/'
    ensures prefix[0] != '/' ==> PrefixCheck(prefix, rs) == Fail(PrefixMissingSlash)
    ensures prefix[0] == '/' && prefix[|prefix| - 1] == '/' ==> PrefixCheck(prefix, rs) == Fail(PrefixTrailingSlash)
    ensures PrefixCheck(prefix, rs) == PrefixCheck(prefix, [])
  {
  }

  /**
   * With an empty prefix the check fails exactly when some route lacks a `path` attribute
   * or has the empty path, and it reports the first such route.
   */
  lemma EmptyPrefixCheck(rs: seq<BaseRoute>)
    ensures PrefixCheck("", rs).Pass? <==> forall i :: 0 <= i < |rs| ==> PathProblem(rs[i]).None?
    ensures forall i :: 0 <= i < |rs| && PathProblem(rs[i]).Some?
                     && (forall k :: 0 <= k < i ==> PathProblem(rs[k]).None?)
                     ==> PrefixCheck("", rs) == Fail(PathProblem(rs[i]).value)
  {
    forall i | 0 <= i < |rs| && PathProblem(rs[i]).Some? && (forall k :: 0 <= k < i ==> PathProblem(rs[k]).None?)
      ensures PrefixCheck("", rs) == Fail(PathProblem(rs[i]).value)
    {
      FirstPathProblemAt(rs, i);
    }
  }

  /**
   * One route in the empty-prefix scan: a missing `path` raises, a `None` path is skipped,
   * and an empty path raises with the route's name ("unknown" when it has none).
   */
  lemma PathProblemCases(b: BaseRoute)
    ensures PathProblem(b) == Some(PathAttributeMissing) <==> b.OtherRoute? && b.path.Missing?
    ensures PathOf(b) == Present(None) ==> PathProblem(b).None?
    ensures PathProblem(b).Some? && PathProblem(b).value.EmptyPrefixAndPath? <==> PathOf(b) == Present(Some(""))
    ensures b == OtherRoute(Present(Some("")), Missing) ==> PathProblem(b) == Some(EmptyPrefixAndPath("unknown"))
    ensures b == OtherRoute(Present(Some("")), Present(None)) ==> PathProblem(b) == Some(EmptyPrefixAndPath("None"))
  {
  }

  // ---------------------------------------------------------------------------
  // add_api_route and get
  // ---------------------------------------------------------------------------

  /**
   * The appended route: at the router's prefix plus the path, with the router's lists followed
   * by the given ones, flags combined with the router's, and the policy kept only when the
   * route class is exactly the caching one.
   */
  lemma NewRouteSpec(c: RouterConfig, path: string, e: Endpoint, args: RouteArgs, o: Option<RouteClass>)
    ensures var nr := NewRoute(c, path, e, args, o);
            && nr.routeClass == (if o.Some? then o.value else c.routeClass)
            && nr.path == c.prefix + path
            && nr.endpoint == e
            && nr.tags == c.tags + args.tags
            && nr.dependencies == c.dependencies + args.dependencies
            && nr.callbacks == c.callbacks + args.callbacks
            && (IsTrue(nr.deprecated) <==> IsTrue(args.deprecated) || IsTrue(c.deprecated))
            && (nr.includeInSchema <==> args.includeInSchema && c.includeInSchema)
            && nr.methods == args.methods
            && nr.statusCode == args.statusCode
            && nr.name == args.name
            && (nr.routeClass.CachedApiRoute? ==> nr.policy == args.policy)
            && (nr.routeClass.PlainApiRoute? ==> nr.policy == None)
  {
  }

  /** `get` on a caching router registers a GET-only route that carries the given policy. */
  lemma GetRoute(c: RouterConfig, path: string, e: Endpoint, args: RouteArgs)
    requires c.routeClass.CachedApiRoute?
    ensures var nr := NewRoute(c, path, e, args.(methods := Some(["GET"])), None);
            && nr.methods == Some(["GET"])
            && nr.routeClass.CachedApiRoute?
            && nr.path == c.prefix + path
            && GetRouteHandler(nr).policy == args.policy
  {
  }

  /** A route registered without a policy never caches, whatever the request. */
  lemma RouteWithoutPolicyNeverCaches(route: Route, req: Request)
    requires route.routeClass.CachedApiRoute? && route.policy.None?
    ensures !IsCachable(req, GetRouteHandler(route).policy)
    ensures StorageOf(GetRouteHandler(route).policy) == {}
  {
  }

  // ---------------------------------------------------------------------------
  // include_router
  // ---------------------------------------------------------------------------

  /** Resolving with a trailing fallback after a first resolution is one resolution over the longer list. */
  lemma ValueOrDefaultNested<T>(xs: seq<Setting<T>>, y: Setting<T>)
    requires |xs| > 0
    ensures ValueOrDefault([ValueOrDefault(xs), y]) == ValueOrDefault(xs + [y])
  {
    var ys := xs + [y];
    var inner := ValueOrDefault(xs);
    ValueOrDefaultFirst(xs);
    if inner.Explicit? {
      var i :| 0 <= i < |xs| && xs[i] == inner && forall k :: 0 <= k < i ==> xs[k].Defaulted?;
      assert ys[i] == inner;
      FirstExplicitLeast(ys, i);
    } else {
      assert forall i :: 0 <= i < |xs| ==> ys[i] == xs[i];
      if y.Explicit? {
        FirstExplicitLeast(ys, |xs|);
      } else {
        assert forall i :: 0 <= i < |ys| ==> ys[i].Defaulted?;
      }
    }
  }

  /** An explicit resolution is the first explicit setting of the list. */
  lemma ValueOrDefaultFirst<T>(items: seq<Setting<T>>)
    requires |items| > 0
    ensures ValueOrDefault(items).Explicit? ==>
              exists i :: 0 <= i < |items| && items[i] == ValueOrDefault(items)
                          && forall k :: 0 <= k < i ==> items[k].Defaulted?
  {
  }

  /** The first explicit setting is the one found. */
  lemma FirstExplicitLeast<T>(items: seq<Setting<T>>, i: nat)
    requires i < |items| && items[i].Explicit?
    requires forall k :: 0 <= k < i ==> items[k].Defaulted?
    ensures ValueOrDefault(items) == items[i]
  {
    ValueOrDefaultFirst(items);
  }

  /** A repeated last fallback changes nothing. */
  lemma ValueOrDefaultRepeatLast<T>(xs: seq<Setting<T>>)
    requires |xs| > 0
    ensures ValueOrDefault(xs + [xs[|xs| - 1]]) == ValueOrDefault(xs)
  {
    var ys := xs + [xs[|xs| - 1]];
    var r := ValueOrDefault(xs);
    ValueOrDefaultFirst(xs);
    if r.Explicit? {
      var i :| 0 <= i < |xs| && xs[i] == r && forall k :: 0 <= k < i ==> xs[k].Defaulted?;
      assert ys[i] == r;
      FirstExplicitLeast(ys, i);
    } else {
      assert forall i :: 0 <= i < |ys| ==> ys[i].Defaulted?;
    }
  }

  /**
   * One included path operation: registered at the including router's prefix, then the include
   * prefix, then its own path; lists are router-level, include-level, then the route's own;
   * `deprecated` is the disjunction and `include_in_schema` the conjunction of all three levels;
   * a caching route keeps its policy; the response class is the first explicit one of route,
   * included router, include call and including router.
   */
  lemma IncludedRouteSpec(c: RouterConfig, d: Setting<ResponseClass>, inc: IncludeArgs, r: Route)
    ensures var nr := IncludedRoute(c, d, inc, r);
            && nr.routeClass == r.routeClass
            && nr.path == c.prefix + inc.prefix + r.path
            && nr.endpoint == r.endpoint
            && nr.tags == c.tags + inc.tags + r.tags
            && nr.dependencies == c.dependencies + inc.dependencies + r.dependencies
            && nr.callbacks == c.callbacks + inc.callbacks + r.callbacks
            && (IsTrue(nr.deprecated) <==> IsTrue(r.deprecated) || IsTrue(inc.deprecated) || IsTrue(c.deprecated))
            && nr.deprecated == PyOr(PyOr(r.deprecated, inc.deprecated), c.deprecated)
            && (nr.includeInSchema <==> r.includeInSchema && inc.includeInSchema && c.includeInSchema)
            && nr.methods == r.methods
            && nr.statusCode == r.statusCode
            && nr.name == r.name
            && nr.policy == (if r.routeClass.CachedApiRoute? then r.policy else None)
            && nr.responseClass == ValueOrDefault([r.responseClass, d, inc.defaultResponseClass, c.defaultResponseClass])
  {
    var xs := [r.responseClass, d, inc.defaultResponseClass, c.defaultResponseClass];
    ValueOrDefaultNested(xs, c.defaultResponseClass);
    ValueOrDefaultRepeatLast(xs);
  }

  /** An included caching route builds its handler with its original policy, status and body field. */
  lemma IncludedHandlerKeepsPolicy(c: RouterConfig, d: Setting<ResponseClass>, inc: IncludeArgs, r: Route)
    requires r.routeClass.CachedApiRoute?
    ensures IncludedRoute(c, d, inc, r).routeClass.CachedApiRoute?
    ensures GetRouteHandler(IncludedRoute(c, d, inc, r)).policy == GetRouteHandler(r).policy
    ensures GetRouteHandler(IncludedRoute(c, d, inc, r)).statusCode == GetRouteHandler(r).statusCode
    ensures GetRouteHandler(IncludedRoute(c, d, inc, r)).bodyField == GetRouteHandler(r).bodyField
  {
  }

  /** The path operations of a list are exactly its `Api` entries. */
  lemma {:induction false} ApiRoutesOfMembers(rs: seq<BaseRoute>)
    ensures forall r :: r in ApiRoutesOf(rs) <==> Api(r) in rs
  {
    if rs != [] {
      var front := rs[..|rs| - 1];
      ApiRoutesOfMembers(front);
      assert rs == front + [rs[|rs| - 1]];
    }
  }

  /** Including a router without path operations adds nothing. */
  lemma {:induction false} NothingToInclude(c: RouterConfig, d: Setting<ResponseClass>, inc: IncludeArgs,
                                            rs: seq<BaseRoute>)
    requires forall i :: 0 <= i < |rs| ==> rs[i].OtherRoute?
    ensures IncludedRoutes(c, d, inc, rs) == []
  {
    if rs != [] {
      NothingToInclude(c, d, inc, rs[..|rs| - 1]);
    }
  }
}
