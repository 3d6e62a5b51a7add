/** What the interception layer guarantees, stated over its specification functions. */
module UtilsProperties {
  import opened Wrappers
  import opened Http
  import opened Errors
  import opened Storages
  import opened Constants
  import opened Encoders
  import opened Utils

  // ---------------------------------------------------------------------------
  // Cacheability
  // ---------------------------------------------------------------------------

  /**
   * Only a GET under a present, active policy is cacheable, and then exactly
   * when the client's `cache-control: no-cache` is not being honoured.
   */
  lemma CachableExactly(req: Request, policy: Option<CachePolicy>)
    ensures req.httpMethod != "GET" ==> !IsCachable(req, policy)
    ensures policy.None? || !policy.value.isActive ==> !IsCachable(req, policy)
    ensures req.httpMethod == "GET" && policy.Some? && policy.value.isActive ==>
              (IsCachable(req, policy) <==>
               !(policy.value.respectNoCache && HeaderGet(req.headers, "cache-control") == Some("no-cache")))
  {
  }

  /** The four rows of the `respect_no_cache` truth table, on a default policy keyed `"test"`. */
  lemma RespectNoCacheTable(storage: Storage)
    ensures var marked := Request("GET", "/", [("cache-control", "no-cache")]);
            var plain := Request("GET", "/", []);
            var p := NewPolicy(storage, Literal("test"));
            && !IsCachable(marked, Some(p))
            && IsCachable(marked, Some(p.(respectNoCache := false)))
            && IsCachable(plain, Some(p))
            && IsCachable(plain, Some(p.(respectNoCache := false)))
  {
    assert Lower("cache-control") == "cache-control";
  }

  // ---------------------------------------------------------------------------
  // Read side
  // ---------------------------------------------------------------------------

  /** A request that is not cacheable is answered "no cached response" without any storage call. */
  lemma LookupBypass(req: Request, policy: Option<CachePolicy>, st: StoreState)
    requires !IsCachable(req, policy)
    ensures LookupSpec(req, policy, st) == (Ok(None), st)
  {
  }

  /**
   * A cacheable request makes exactly one `get`, with the policy's key, and
   * gets no cached response when the store has nothing or empty bytes; a
   * storage exception and unreadable stored bytes are raised, not turned into a miss.
   */
  lemma LookupCalls(req: Request, policy: Option<CachePolicy>, st: StoreState)
    requires IsCachable(req, policy)
    ensures var key := GetKey(policy.value, req);
            var got := GetStep(st, key).0;
            && LookupSpec(req, policy, st).1 == st.(log := st.log + [GetCall(key)])
            && (got == Ok(None) || got == Ok(Some([])) ==> LookupSpec(req, policy, st).0 == Ok(None))
            && (got.Err? ==> LookupSpec(req, policy, st).0 == Err(got.error))
            && (got.Ok? && got.value.Some? && got.value.value != [] && ModelValidateJson(got.value.value).None? ==>
                  LookupSpec(req, policy, st).0 == Err(InvalidEntry))
  {
  }

  lemma {:induction false} LookupIn(h: Headers, key: string)
    requires Lookup(h, key).Some?
    ensures (key, Lookup(h, key).value) in h
  {
    if h[0].0 != key { LookupIn(h[1..], key); }
  }

  /**
   * A hit carries the stored body and status, every stored header whose name
   * is not the hit header's, and the hit header set to `true` when the policy
   * names one.
   */
  lemma LookupHit(req: Request, policy: Option<CachePolicy>, st: StoreState, stored: ResponseEncoder)
    requires IsCachable(req, policy)
    requires GetStep(st, GetKey(policy.value, req)).0 == Ok(Some(CacheData(stored)))
    ensures var name := policy.value.cachedResponseHeader;
            var r := LookupSpec(req, policy, st).0;
            && r.Ok? && r.value.Some?
            && r.value.value.body == stored.body
            && r.value.value.status == stored.statusCode
            && r.value.value.background.None?
            && (forall i :: 0 <= i < |stored.headers| && Lower(stored.headers[i].0) != Lower(name) ==>
                  (Lower(stored.headers[i].0), stored.headers[i].1) in r.value.value.headers)
            && (name != "" ==> (Lower(name), "true") in r.value.value.headers)
  {
    ValidateCacheData(stored);
    var p := policy.value;
    var name := p.cachedResponseHeader;
    var e := StampHit(p, stored);
    DecodeSpec(e);
    if name != "" {
      SetHeaderSpec(stored.headers, name, "true");
      LookupIn(e.headers, Lower(name));
      var k :| 0 <= k < |e.headers| && e.headers[k] == (Lower(name), "true");
      LowerIdempotent(name);
      forall i | 0 <= i < |stored.headers| && Lower(stored.headers[i].0) != Lower(name)
        ensures (Lower(stored.headers[i].0), stored.headers[i].1) in Decode(e).headers
      {
        var key := stored.headers[i].0;
        var fromKey := Without(stored.headers, Lower(name));
        WithoutKeeps(stored.headers, Lower(name), i);
        assert stored.headers[i] in Without(e.headers, Lower(name));
        WithoutSubset(e.headers, Lower(name), stored.headers[i]);
        var j :| 0 <= j < |e.headers| && e.headers[j] == stored.headers[i];
        assert (Lower(e.headers[j].0), e.headers[j].1) in Decode(e).headers;
      }
    }
  }

  lemma {:induction false} WithoutKeeps(h: Headers, key: string, i: nat)
    requires i < |h| && h[i].0 != key
    ensures h[i] in Without(h, key)
  {
    if i > 0 {
      WithoutKeeps(h[1..], key, i - 1);
    }
  }

  lemma {:induction false} WithoutSubset(h: Headers, key: string, x: Header)
    requires x in Without(h, key)
    ensures x in h
  {
    if h != [] && h[0] != x {
      WithoutSubset(h[1..], key, x);
    }
  }

  /** With the no-op backend no request ever gets a cached response. */
  lemma DummyNeverHits(req: Request, policy: Option<CachePolicy>, st: StoreState)
    requires st.backend == Dummy
    ensures LookupSpec(req, policy, st).0 == Ok(None)
  {
  }

  /** A cacheable lookup that finds readable bytes returns the stored record, stamped, as a response. */
  lemma LookupReturnsStamped(req: Request, policy: Option<CachePolicy>, st: StoreState, stored: ResponseEncoder)
    requires IsCachable(req, policy)
    requires GetStep(st, GetKey(policy.value, req)).0 == Ok(Some(CacheData(stored)))
    ensures LookupSpec(req, policy, st).0 == Ok(Some(Decode(StampHit(policy.value, stored))))
  {
    ValidateCacheData(stored);
  }

  /**
   * The stored-response test: an 18-byte body stored with one header comes back
   * with that header, the hit header and a `content-length` of 18.
   */
  lemma StoredResponseExample(storage: Storage, entries: map<string, Entry>)
    requires "test" in entries
    requires entries["test"].value ==
             CacheData(ResponseEncoder(Latin1("{\"hello\": \"world\"}"), 200, [("test", "test")]))
    ensures var req := Request("GET", "/", []);
            var st := StoreState(KeyValue, true, entries, []);
            LookupSpec(req, Some(NewPolicy(storage, Literal("test"))), st).0 ==
            Ok(Some(ResponseValue(Latin1("{\"hello\": \"world\"}"), 200,
                                  [("test", "test"), ("x-cache-hit", "true"), ("content-length", "18")], None)))
  {
    var req := Request("GET", "/", []);
    var p := NewPolicy(storage, Literal("test"));
    var stored := ResponseEncoder(Latin1("{\"hello\": \"world\"}"), 200, [("test", "test")]);
    assert IsCachable(req, Some(p));
    LookupReturnsStamped(req, Some(p), StoreState(KeyValue, true, entries, []), stored);
    StampedExample(p, stored);
  }

  lemma StampedExample(p: CachePolicy, stored: ResponseEncoder)
    requires p.cachedResponseHeader == "X-Cache-Hit"
    requires stored == ResponseEncoder(Latin1("{\"hello\": \"world\"}"), 200, [("test", "test")])
    ensures Decode(StampHit(p, stored)) ==
            ResponseValue(Latin1("{\"hello\": \"world\"}"), 200,
                          [("test", "test"), ("x-cache-hit", "true"), ("content-length", "18")], None)
  {
    assert Lower("X-Cache-Hit") == "x-cache-hit";
    assert Lower("test") == "test";
    assert Lower("x-cache-hit") == "x-cache-hit";
    assert NatToString(18) == "18";
    var stamped := [("test", "test"), ("x-cache-hit", "true")];
    assert StampHit(p, stored).headers == stamped;
    assert LowerNames(stamped) == stamped;
    assert |stored.body| == 18;
  }

  // ---------------------------------------------------------------------------
  // Write side
  // ---------------------------------------------------------------------------

  /** A response to a request that is not cacheable is returned unchanged, with no storage call. */
  lemma WriteBypass(req: Request, resp: ResponseValue, policy: Option<CachePolicy>, st: StoreState)
    requires !IsCachable(req, policy)
    ensures WriteSpec(req, resp, policy, st) == (Ok(resp), st)
  {
  }

  /**
   * A cacheable response is written by exactly one `set`, under the policy's
   * key with the policy's ttl, of bytes that read back as the response as it
   * was before the miss header was stamped; only after a successful `set` is
   * the miss header set to `false`, everything else left as it was.
   */
  lemma WriteStores(req: Request, resp: ResponseValue, policy: Option<CachePolicy>, st: StoreState)
    requires IsCachable(req, policy)
    ensures var p := policy.value;
            var data := CacheData(Encode(resp));
            var (r, st') := WriteSpec(req, resp, policy, st);
            && st'.log == st.log + [SetCall(GetKey(p, req), data, p.ttl)]
            && ModelValidateJson(data) == Some(ResponseEncoder(resp.body, resp.status, resp.headers))
            && (r.Err? <==> SetStep(st, GetKey(p, req), data, p.ttl).0.Err?)
            && (r.Ok? ==>
                  && r.value.body == resp.body && r.value.status == resp.status
                  && r.value.background == resp.background
                  && (p.cachedResponseHeader != "" ==>
                        && HeaderGet(r.value.headers, p.cachedResponseHeader) == Some("false")
                        && Without(r.value.headers, Lower(p.cachedResponseHeader)) ==
                           Without(resp.headers, Lower(p.cachedResponseHeader)))
                  && (p.cachedResponseHeader == "" ==> r.value == resp))
  {
    ValidateCacheData(Encode(resp));
    if policy.value.cachedResponseHeader != "" {
      SetHeaderSpec(resp.headers, policy.value.cachedResponseHeader, "false");
    }
  }

  // ---------------------------------------------------------------------------
  // The request handler
  // ---------------------------------------------------------------------------

  lemma ParseStepsOnly(field: Option<BodyField>, fw: Framework, req: Request)
    ensures SolveDependencies !in ParseBody(field, fw, req).steps
    ensures RunEndpoint !in ParseBody(field, fw, req).steps
    ensures SerializeResponse !in ParseBody(field, fw, req).steps
  {
  }

  /**
   * The body is left out when the route declares none, the request sends
   * none, or it sends a JSON `null`; otherwise it is the form, the parsed JSON
   * when the content type asks for JSON, or else the raw bytes.
   */
  lemma BodyKinds(field: Option<BodyField>, fw: Framework, req: Request)
    ensures field.None? ==> ReadRequestBody(field, fw, req) == Parsed(Ok(NoBody), [])
    ensures field.Some? && field.value.isForm && fw.readForm(req).Ok? ==>
              ReadRequestBody(field, fw, req).body == Ok(FormBody(fw.readForm(req).value))
    ensures field.Some? && !field.value.isForm && fw.readBody(req) == Ok([]) ==>
              ReadRequestBody(field, fw, req).body == Ok(NoBody)
    ensures field.Some? && !field.value.isForm && fw.readBody(req).Ok? && fw.readBody(req).value != [] ==>
              ReadRequestBody(field, fw, req).body ==
              if WantsJson(fw, req) then
                (match fw.readJson(fw.readBody(req).value)
                 case Ok(json) => Ok(if json == JNull then NoBody else JsonBody(json))
                 case Err(e) => Err(e))
              else Ok(RawBody(fw.readBody(req).value))
    ensures ReadRequestBody(field, fw, req).body != Ok(JsonBody(JNull))
  {
  }

  /**
   * A failed body read ends the request before dependency resolution and
   * before any storage call: a JSON decode error becomes a `json_invalid`
   * validation error located at `('body', pos)`, an HTTP error and an error
   * outside `Exception` pass unchanged, and any other error becomes a 400.
   */
  lemma BodyErrorsSurface(cfg: HandlerConfig, fw: Framework, req: Request, st: StoreState)
    requires ReadRequestBody(cfg.bodyField, fw, req).body.Err?
    ensures var e := ReadRequestBody(cfg.bodyField, fw, req).body.error;
            var run := HandleSpec(cfg, fw, req, st);
            && run.store == st
            && SolveDependencies !in run.steps && RunEndpoint !in run.steps
            && (e.JsonDecodeError? ==>
                  run.result == Err(RequestValidationError(
                    [ErrorItem("json_invalid", [LocName("body"), LocIndex(e.pos)], "JSON decode error", e.msg)],
                    Document(e.doc))))
            && (e.HttpError? || e.BaseError? ==> run.result == Err(e))
            && (e.IsException() && !e.JsonDecodeError? && !e.HttpError? ==>
                  run.result == Err(HttpError(400, "There was an error parsing the body")))
  {
  }

  /** Malformed JSON on a JSON route is a validation error raised before the store is touched. */
  lemma MalformedJsonScenario(cfg: HandlerConfig, fw: Framework, req: Request, st: StoreState,
                              bytes: Bytes, msg: string, doc: string, pos: int)
    requires cfg.bodyField == Some(BodyField(false))
    requires HeaderGet(req.headers, "content-type") == None
    requires bytes != [] && fw.readBody(req) == Ok(bytes)
    requires fw.readJson(bytes) == Err(JsonDecodeError(msg, doc, pos))
    ensures HandleSpec(cfg, fw, req, st) ==
            Run(Err(RequestValidationError(
                  [ErrorItem("json_invalid", [LocName("body"), LocIndex(pos)], "JSON decode error", msg)],
                  Document(doc))),
                [ReadBody, ReadJson], st)
  {
  }

  /**
   * Dependency resolution that raises, or that reports errors, ends the request
   * with no storage call; reported errors become one validation error.
   */
  lemma DependencyErrorsSurface(cfg: HandlerConfig, fw: Framework, req: Request, st: StoreState)
    requires ParseBody(cfg.bodyField, fw, req).body.Ok?
    ensures var body := ParseBody(cfg.bodyField, fw, req).body.value;
            var solved := fw.solve(req, body);
            var run := HandleSpec(cfg, fw, req, st);
            && (solved.Err? ==> run.result == Err(solved.error) && run.store == st)
            && (solved.Ok? && solved.value.errors != [] ==>
                  run.result == Err(RequestValidationError(fw.normalize(solved.value.errors), BodyValue(body)))
                  && run.store == st)
            && (solved.Err? || solved.value.errors != [] ==> RunEndpoint !in run.steps)
  {
    ParseStepsOnly(cfg.bodyField, fw, req);
  }

  /** A hit is returned as it is: the endpoint does not run and nothing is written. */
  lemma HitSkipsEndpoint(cfg: HandlerConfig, fw: Framework, req: Request, st: StoreState)
    requires ParseBody(cfg.bodyField, fw, req).body.Ok?
    requires fw.solve(req, ParseBody(cfg.bodyField, fw, req).body.value).Ok?
    requires fw.solve(req, ParseBody(cfg.bodyField, fw, req).body.value).value.errors == []
    requires LookupSpec(req, cfg.policy, st).0.Ok? && LookupSpec(req, cfg.policy, st).0.value.Some?
    ensures var run := HandleSpec(cfg, fw, req, st);
            && run.result == Ok(LookupSpec(req, cfg.policy, st).0.value.value)
            && RunEndpoint !in run.steps
            && run.store == LookupSpec(req, cfg.policy, st).1
            && run.store.log == st.log + [GetCall(GetKey(cfg.policy.value, req))]
  {
    ParseStepsOnly(cfg.bodyField, fw, req);
  }

  /** An endpoint that raises ends the request with that exception and nothing written. */
  lemma EndpointErrorWritesNothing(cfg: HandlerConfig, fw: Framework, req: Request, st: StoreState)
    requires ParseBody(cfg.bodyField, fw, req).body.Ok?
    requires fw.solve(req, ParseBody(cfg.bodyField, fw, req).body.value).Ok?
    requires fw.solve(req, ParseBody(cfg.bodyField, fw, req).body.value).value.errors == []
    requires LookupSpec(req, cfg.policy, st).0 == Ok(None)
    requires fw.runEndpoint(fw.solve(req, ParseBody(cfg.bodyField, fw, req).body.value).value.values).Err?
    ensures var run := HandleSpec(cfg, fw, req, st);
            && run.result == Err(fw.runEndpoint(fw.solve(req, ParseBody(cfg.bodyField, fw, req).body.value).value.values).error)
            && run.store == LookupSpec(req, cfg.policy, st).1
            && RunEndpoint in run.steps
  {
  }

  /**
   * The status of a rendered response: the ambient response's status when
   * truthy, else the route's when truthy; else an ambient status of 0 is kept,
   * and with none at all the response class's default applies.
   */
  lemma FinalStatusPrecedence(route: Option<int>, sub: Option<int>, classDefault: int)
    ensures Truthy(sub) ==> FinalStatus(route, sub, classDefault) == sub.value
    ensures !Truthy(sub) && Truthy(route) ==> FinalStatus(route, sub, classDefault) == route.value
    ensures !Truthy(sub) && !Truthy(route) && sub == Some(0) ==> FinalStatus(route, sub, classDefault) == 0
    ensures !Truthy(sub) && !Truthy(route) && sub.None? ==> FinalStatus(route, sub, classDefault) == classDefault
  {
  }

  /**
   * An endpoint that returns a response object has it passed on as it is; it
   * takes the dependencies' background tasks only when it carries none.
   */
  lemma DirectResponseBackground(cfg: HandlerConfig, fw: Framework, req: Request, st: StoreState)
    requires !IsCachable(req, cfg.policy)
    requires ReachesLookup(cfg, fw, req)
    requires fw.runEndpoint(fw.solve(req, ParseBody(cfg.bodyField, fw, req).body.value).value.values).Ok?
    requires fw.runEndpoint(fw.solve(req, ParseBody(cfg.bodyField, fw, req).body.value).value.values).value.DirectResponse?
    ensures var s := fw.solve(req, ParseBody(cfg.bodyField, fw, req).body.value).value;
            var v := fw.runEndpoint(s.values).value.response;
            var run := HandleSpec(cfg, fw, req, st);
            && run.store == st
            && run.result.Ok?
            && run.result.value.body == v.body
            && run.result.value.status == v.status
            && run.result.value.headers == v.headers
            && (v.background.Some? ==> run.result.value.background == v.background)
            && (v.background.None? ==> run.result.value.background == s.background)
            && SerializeResponse !in run.steps
  {
    ParseStepsOnly(cfg.bodyField, fw, req);
  }

  /**
   * On a miss with rendered content and a request that is not cacheable, the
   * response has the precedence status, an empty body exactly when that status
   * allows none, the response class's headers followed by the ambient ones, and
   * the dependencies' background tasks; the store is untouched.
   */
  lemma MissRenderedResponse(cfg: HandlerConfig, fw: Framework, req: Request, st: StoreState)
    requires !IsCachable(req, cfg.policy)
    requires ParseBody(cfg.bodyField, fw, req).body.Ok?
    requires fw.solve(req, ParseBody(cfg.bodyField, fw, req).body.value).Ok?
    requires fw.solve(req, ParseBody(cfg.bodyField, fw, req).body.value).value.errors == []
    requires fw.runEndpoint(fw.solve(req, ParseBody(cfg.bodyField, fw, req).body.value).value.values).Ok?
    requires fw.runEndpoint(fw.solve(req, ParseBody(cfg.bodyField, fw, req).body.value).value.values).value.Content?
    requires fw.serialize(fw.runEndpoint(fw.solve(req, ParseBody(cfg.bodyField, fw, req).body.value).value.values).value.content).Ok?
    ensures var s := fw.solve(req, ParseBody(cfg.bodyField, fw, req).body.value).value;
            var content := fw.serialize(fw.runEndpoint(s.values).value.content).value;
            var status := FinalStatus(cfg.statusCode, s.subResponse.status, cfg.responseClass.defaultStatus);
            var rendered := cfg.responseClass.render(content);
            var run := HandleSpec(cfg, fw, req, st);
            && run.store == st
            && run.result.Ok?
            && run.result.value.status == status
            && run.result.value.body == (if fw.bodyAllowed(status) then rendered else [])
            && run.result.value.headers == cfg.responseClass.initHeaders(rendered, status) + s.subResponse.headers
            && run.result.value.background == s.background
            && run.steps == ParseBody(cfg.bodyField, fw, req).steps + [SolveDependencies, RunEndpoint, SerializeResponse]
  {
  }

  /**
   * On a cacheable miss where the endpoint returns a response object, that object
   * (with the dependencies' background tasks when it carries none) is what one `set`
   * writes and what is returned, stamped as a miss when the policy names a header;
   * the `set` failing is the only way the result is an error.
   */
  lemma DirectResponseCached(cfg: HandlerConfig, fw: Framework, req: Request, st: StoreState)
    requires IsCachable(req, cfg.policy)
    requires ReachesLookup(cfg, fw, req)
    requires LookupSpec(req, cfg.policy, st).0 == Ok(None)
    requires fw.runEndpoint(fw.solve(req, ParseBody(cfg.bodyField, fw, req).body.value).value.values).Ok?
    requires fw.runEndpoint(fw.solve(req, ParseBody(cfg.bodyField, fw, req).body.value).value.values).value.DirectResponse?
    ensures var s := fw.solve(req, ParseBody(cfg.bodyField, fw, req).body.value).value;
            var v := fw.runEndpoint(s.values).value.response;
            var sent := WithBackground(v, s.background);
            var st1 := LookupSpec(req, cfg.policy, st).1;
            var p := cfg.policy.value;
            var run := HandleSpec(cfg, fw, req, st);
            && run.store.log == st1.log + [SetCall(GetKey(p, req), CacheData(Encode(sent)), p.ttl)]
            && ModelValidateJson(CacheData(Encode(sent))) == Some(ResponseEncoder(v.body, v.status, v.headers))
            && (run.result.Err? <==> SetStep(st1, GetKey(p, req), CacheData(Encode(sent)), p.ttl).0.Err?)
            && (run.result.Ok? ==>
                  && run.result.value.body == v.body
                  && run.result.value.status == v.status
                  && (v.background.Some? ==> run.result.value.background == v.background)
                  && (v.background.None? ==> run.result.value.background == s.background)
                  && (p.cachedResponseHeader != "" ==>
                        && HeaderGet(run.result.value.headers, p.cachedResponseHeader) == Some("false")
                        && Without(run.result.value.headers, Lower(p.cachedResponseHeader)) ==
                           Without(v.headers, Lower(p.cachedResponseHeader)))
                  && (p.cachedResponseHeader == "" ==> run.result.value.headers == v.headers))
            && RunEndpoint in run.steps && SerializeResponse !in run.steps
  {
    var s := fw.solve(req, ParseBody(cfg.bodyField, fw, req).body.value).value;
    var sent := WithBackground(fw.runEndpoint(s.values).value.response, s.background);
    var st1 := LookupSpec(req, cfg.policy, st).1;
    var run := HandleSpec(cfg, fw, req, st);
    assert (run.result, run.store) == WriteSpec(req, sent, cfg.policy, st1)
        && RunEndpoint in run.steps && SerializeResponse !in run.steps by {
      ParseStepsOnly(cfg.bodyField, fw, req);
      HandleMiss(cfg, fw, req, st);
    }
    WriteStores(req, sent, cfg.policy, st1);
  }

  /**
   * On a cacheable miss with rendered content, the response built as for an uncached
   * request is what one `set` writes and, stamped as a miss when the policy names a
   * header, what is returned; the `set` failing is the only way the result is an error.
   */
  lemma MissRenderedCached(cfg: HandlerConfig, fw: Framework, req: Request, st: StoreState)
    requires IsCachable(req, cfg.policy)
    requires ReachesLookup(cfg, fw, req)
    requires LookupSpec(req, cfg.policy, st).0 == Ok(None)
    requires fw.runEndpoint(fw.solve(req, ParseBody(cfg.bodyField, fw, req).body.value).value.values).Ok?
    requires fw.runEndpoint(fw.solve(req, ParseBody(cfg.bodyField, fw, req).body.value).value.values).value.Content?
    requires fw.serialize(fw.runEndpoint(fw.solve(req, ParseBody(cfg.bodyField, fw, req).body.value).value.values).value.content).Ok?
    ensures var s := fw.solve(req, ParseBody(cfg.bodyField, fw, req).body.value).value;
            var content := fw.serialize(fw.runEndpoint(s.values).value.content).value;
            var status := FinalStatus(cfg.statusCode, s.subResponse.status, cfg.responseClass.defaultStatus);
            var rendered := cfg.responseClass.render(content);
            var body := if fw.bodyAllowed(status) then rendered else [];
            var headers := cfg.responseClass.initHeaders(rendered, status) + s.subResponse.headers;
            var st1 := LookupSpec(req, cfg.policy, st).1;
            var p := cfg.policy.value;
            var data := CacheData(Encode(ResponseValue(body, status, headers, s.background)));
            var run := HandleSpec(cfg, fw, req, st);
            && run.store.log == st1.log + [SetCall(GetKey(p, req), data, p.ttl)]
            && ModelValidateJson(data) == Some(ResponseEncoder(body, status, headers))
            && (run.result.Err? <==> SetStep(st1, GetKey(p, req), data, p.ttl).0.Err?)
            && (run.result.Ok? ==>
                  && run.result.value.body == body
                  && run.result.value.status == status
                  && run.result.value.background == s.background
                  && (p.cachedResponseHeader != "" ==>
                        && HeaderGet(run.result.value.headers, p.cachedResponseHeader) == Some("false")
                        && Without(run.result.value.headers, Lower(p.cachedResponseHeader)) ==
                           Without(headers, Lower(p.cachedResponseHeader)))
                  && (p.cachedResponseHeader == "" ==> run.result.value.headers == headers))
            && run.steps == ParseBody(cfg.bodyField, fw, req).steps + [SolveDependencies, RunEndpoint, SerializeResponse]
  {
    var s := fw.solve(req, ParseBody(cfg.bodyField, fw, req).body.value).value;
    var content := fw.serialize(fw.runEndpoint(s.values).value.content).value;
    var built := BuildFromContent(cfg, fw, s, content);
    var st1 := LookupSpec(req, cfg.policy, st).1;
    var run := HandleSpec(cfg, fw, req, st);
    assert (run.result, run.store) == WriteSpec(req, built, cfg.policy, st1)
        && run.steps == ParseBody(cfg.bodyField, fw, req).steps + [SolveDependencies, RunEndpoint, SerializeResponse] by {
      HandleMiss(cfg, fw, req, st);
    }
    WriteStores(req, built, cfg.policy, st1);
  }

  /**
   * When the request is not cacheable (no policy, inactive policy, a method
   * other than GET, or an honoured no-cache request), no storage call is made
   * on either side, whatever the outcome.
   */
  lemma NotCachableTouchesNothing(cfg: HandlerConfig, fw: Framework, req: Request, st: StoreState)
    requires !IsCachable(req, cfg.policy)
    ensures HandleSpec(cfg, fw, req, st).store == st
  {
  }

  /**
   * An honoured `cache-control: no-cache` request is neither served from the
   * cache nor written to it: both sides apply the same predicate.
   */
  lemma NoCacheNeitherReadNorWritten(cfg: HandlerConfig, fw: Framework, req: Request, st: StoreState)
    requires req.httpMethod == "GET" && cfg.policy.Some? && cfg.policy.value.isActive
    requires cfg.policy.value.respectNoCache
    requires HeaderGet(req.headers, "cache-control") == Some("no-cache")
    ensures HandleSpec(cfg, fw, req, st).store == st
  {
    NotCachableTouchesNothing(cfg, fw, req, st);
  }

  /** Body parsing and dependency resolution succeed, so the request reaches the cache lookup. */
  predicate ReachesLookup(cfg: HandlerConfig, fw: Framework, req: Request) {
    var parsed := ParseBody(cfg.bodyField, fw, req);
    && parsed.body.Ok?
    && fw.solve(req, parsed.body.value).Ok?
    && fw.solve(req, parsed.body.value).value.errors == []
  }

  /** The response a miss hands to the write side, when the endpoint and rendering succeed. */
  function MissResponse(cfg: HandlerConfig, fw: Framework, req: Request): Option<ResponseValue>
    requires ReachesLookup(cfg, fw, req)
  {
    var s := fw.solve(req, ParseBody(cfg.bodyField, fw, req).body.value).value;
    match Produce(cfg, fw, s).0
    case Err(_) => None
    case Ok(v) => Some(v)
  }

  /** On a miss the endpoint runs and what it produced goes through the write side. */
  lemma HandleMiss(cfg: HandlerConfig, fw: Framework, req: Request, st: StoreState)
    requires ReachesLookup(cfg, fw, req)
    requires LookupSpec(req, cfg.policy, st).0 == Ok(None)
    ensures var run := HandleSpec(cfg, fw, req, st);
            && RunEndpoint in run.steps
            && (run.result.Ok? ==> MissResponse(cfg, fw, req).Some?)
            && (MissResponse(cfg, fw, req).Some? ==>
                  (run.result, run.store) ==
                  WriteSpec(req, MissResponse(cfg, fw, req).value, cfg.policy, LookupSpec(req, cfg.policy, st).1))
  {
  }

  /**
   * First and second GET on a policy keyed `"test"` over an empty key-value
   * store: the first runs the endpoint, is stamped `false` and leaves an entry
   * under `"test"`; the second is served from that entry, stamped `true`, with
   * the same body and status, and does not run the endpoint.
   */
  lemma MissThenHit(cfg: HandlerConfig, fw: Framework, req: Request, storage: Storage, first: Run, second: Run)
    requires cfg.policy == Some(NewPolicy(storage, Literal("test")))
    requires req.httpMethod == "GET" && HeaderGet(req.headers, "cache-control") != Some("no-cache")
    requires first == HandleSpec(cfg, fw, req, StoreState(KeyValue, true, map[], []))
    requires first.result.Ok?
    requires second == HandleSpec(cfg, fw, req, first.store)
    ensures RunEndpoint in first.steps
    ensures "test" in first.store.entries
    ensures HeaderGet(first.result.value.headers, "X-Cache-Hit") == Some("false")
    ensures second.result.Ok?
    ensures second.result.value.body == first.result.value.body
    ensures second.result.value.status == first.result.value.status
    ensures ("x-cache-hit", "true") in second.result.value.headers
    ensures RunEndpoint !in second.steps
    ensures second.store.entries == first.store.entries
  {
    FirstRequestMisses(cfg, fw, req, storage);
    var built := MissResponse(cfg, fw, req).value;
    var stored := Encode(built);
    var hit := Decode(StampHit(cfg.policy.value, stored));
    assert second.result == Ok(hit) && RunEndpoint !in second.steps
        && second.store.entries == first.store.entries by {
      SecondRequestHits(cfg, fw, req, first.store, stored);
    }
    assert hit.body == stored.body && hit.status == stored.statusCode
        && ("x-cache-hit", "true") in hit.headers by {
      StampedHitHeader(cfg.policy.value, stored);
    }
  }

  /** A stamped, decoded record keeps the stored body and status and carries the hit header. */
  lemma StampedHitHeader(p: CachePolicy, stored: ResponseEncoder)
    ensures Decode(StampHit(p, stored)).body == stored.body
    ensures Decode(StampHit(p, stored)).status == stored.statusCode
    ensures p.cachedResponseHeader != "" ==>
              (Lower(p.cachedResponseHeader), "true") in Decode(StampHit(p, stored)).headers
    ensures p.cachedResponseHeader == "X-Cache-Hit" ==>
              ("x-cache-hit", "true") in Decode(StampHit(p, stored)).headers
  {
    var name := p.cachedResponseHeader;
    var e := StampHit(p, stored);
    DecodeSpec(e);
    if name != "" {
      SetHeaderSpec(stored.headers, name, "true");
      LookupIn(e.headers, Lower(name));
      LowerIdempotent(name);
      assert Lower("X-Cache-Hit") == "x-cache-hit";
    }
  }

  /** The first request over an empty store misses, and its response is written under `"test"`. */
  lemma FirstRequestMisses(cfg: HandlerConfig, fw: Framework, req: Request, storage: Storage)
    requires cfg.policy == Some(NewPolicy(storage, Literal("test")))
    requires req.httpMethod == "GET" && HeaderGet(req.headers, "cache-control") != Some("no-cache")
    requires HandleSpec(cfg, fw, req, StoreState(KeyValue, true, map[], [])).result.Ok?
    ensures ReachesLookup(cfg, fw, req) && MissResponse(cfg, fw, req).Some?
    ensures var first := HandleSpec(cfg, fw, req, StoreState(KeyValue, true, map[], []));
            var built := MissResponse(cfg, fw, req).value;
            && RunEndpoint in first.steps
            && first.store.backend == KeyValue && first.store.reachable
            && first.store.entries == map["test" := Entry(CacheData(Encode(built)), Some(30))]
            && first.result.value.body == built.body
            && first.result.value.status == built.status
            && HeaderGet(first.result.value.headers, "X-Cache-Hit") == Some("false")
  {
    var st0 := StoreState(KeyValue, true, map[], []);
    assert IsCachable(req, cfg.policy);
    assert ReachesLookup(cfg, fw, req) by {
      if !ReachesLookup(cfg, fw, req) {
        BodyOrDependencyFailure(cfg, fw, req, st0);
      }
    }
    assert LookupSpec(req, cfg.policy, st0).0 == Ok(None);
    HandleMiss(cfg, fw, req, st0);
    var st1 := LookupSpec(req, cfg.policy, st0).1;
    WriteStores(req, MissResponse(cfg, fw, req).value, cfg.policy, st1);
  }

  /** A later request finding `stored` under its key is answered from it without running the endpoint. */
  lemma SecondRequestHits(cfg: HandlerConfig, fw: Framework, req: Request, st: StoreState, stored: ResponseEncoder)
    requires ReachesLookup(cfg, fw, req)
    requires IsCachable(req, cfg.policy)
    requires GetStep(st, GetKey(cfg.policy.value, req)).0 == Ok(Some(CacheData(stored)))
    ensures var second := HandleSpec(cfg, fw, req, st);
            && second.result == Ok(Decode(StampHit(cfg.policy.value, stored)))
            && RunEndpoint !in second.steps
            && second.store.entries == st.entries
  {
    LookupReturnsStamped(req, cfg.policy, st, stored);
    HitSkipsEndpoint(cfg, fw, req, st);
  }

  /** A request that fails before the lookup ends in an error. */
  lemma BodyOrDependencyFailure(cfg: HandlerConfig, fw: Framework, req: Request, st: StoreState)
    requires !ReachesLookup(cfg, fw, req)
    ensures HandleSpec(cfg, fw, req, st).result.Err?
    ensures HandleSpec(cfg, fw, req, st).store == st
  {
  }
}
