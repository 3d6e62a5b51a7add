# cachepot response caching, modelled in Dafny

cachepot adds per-route HTTP response caching to FastAPI. Each route may carry a
`CachePolicy`: a storage backend, a key (a literal string or a function of the
request), an on/off switch, a time-to-live, whether to honour a client's
`cache-control: no-cache`, and the name of a header that marks a response as served
from the cache (`true`) or freshly computed (`false`). The route's request handler
parses the body and resolves dependencies. It then asks the storage for a cached
response. On a miss it runs the endpoint, renders the result and writes the
response back under the same key. The caching router registers such routes and merges
router-level settings into them when one router is included into another.

This project models that core and proves what it guarantees:

- `wrappers.dfy`: `Option`, `Result` and `Outcome`. Python exceptions are the `Err`/`Fail` side.
- `http.dfy`: the parts of Starlette the core relies on, as values:
  - header lists: case-insensitive `get`, `update`, raw `extend`;
  - response construction, which adds `content-length`;
  - requests, response values, and a `Response` class whose fields the handler updates in place.
- `errors.dfy`: the exceptions the handler raises or passes on.
- `wire.dfy` and `encoders.dfy`: `ResponseEncoder` (`encode`, `decode`) and the byte form written to storage, with a proved round trip.
- `storages.dfy`: the storage contract (`get`, `set`, `delete`) as a `Storage` class with a call log. It has two backends: the no-op `DummyStorage` and a key-value store that keeps what it is given and can be unreachable.
- `constants.dfy`: `CachePolicy`, its defaults and `get_key`.
- `utils.dfy`:
  - `is_cachable`;
  - `get_cached_response` and `cache_response`, as methods proved against specification functions;
  - the `app` closure of `get_request_handler`, as a method proved equal to `HandleSpec`. `HandleSpec` describes one request: its result, the framework calls made, and the storage state afterwards.
- `utils_properties.dfy`: the guarantees of the read side, the write side and the handler. This includes a miss followed by a hit.
- `routing.dfy` and `routing_properties.dfy`:
  - `CachedAPIRouter` as a class with a route list: `add_api_route`, `api_route`, `get`, and `include_router` with its prefix checks and merging;
  - `CachedAPIRoute.get_route_handler`.

FastAPI's own internals are parameters of the `Framework` record. Form and body reading, JSON decoding, dependency resolution, the endpoint call and response serialisation can raise, so each returns a value or an exception. Content-type parsing, error normalisation and the body-allowed-for-status test return plain values. The response class is a record of its default status, its renderer and its initial headers.

Where the code and its prose description differ, the model follows the code:

- `cache_response` applies the same `is_cachable` as the read side, no-cache check included. An honoured `no-cache` request is neither read from nor written to the cache.
- A truthy status on the dependencies' response object overrides the route's `status_code`. When neither is truthy, a status of 0 on that object is still used.
- The default `ttl` is 30 seconds, not absent.
- Storage exceptions are not caught. Stored bytes that cannot be parsed raise, and only an absent or empty value is a miss.
- A response served from the cache carries no background tasks, even when the dependencies produced some.
- A request body that is the JSON `null` is passed on as `None`, the same value as an absent body, so the model reads it as no body.

## Model

| member | source | states |
|---|---|---|
| Http.LowerIntoLatin1 | cachepot/utils.py:40 | a name that is latin-1 apart from the four capitals outside latin-1 that lower-case into it is entirely latin-1 once lower-cased; the Kelvin sign becomes `k` |
| Http.SetHeaderSpec | cachepot/utils.py:40 | after `headers.update({name: value})` a case-insensitive `get` of the name gives the value, the entries with other names are kept in order, and every other name's lookup is unchanged |
| Wire.DecodeEncodeBytes | cachepot/encoders.py:7 | a length-prefixed body is read back exactly, leaving the bytes that follow |
| Wire.DecodeEncodeInt | cachepot/encoders.py:8 | a status code, negative ones included, is read back exactly, leaving the bytes that follow |
| Wire.DecodeEncodeHeaders | cachepot/encoders.py:9 | a header list, names, values, order and duplicates included, is read back exactly, leaving the bytes that follow |
| Encoders.CacheData | cachepot/utils.py:49 | the byte form of a record is never empty, so a stored entry is never taken for a miss |
| Encoders.ValidateCacheData | cachepot/utils.py:38 | parsing the bytes written for a record gives back exactly that record |
| Encoders.DecodeSpec | cachepot/encoders.py:19-24 | a decoded response has the stored body and status, no background tasks, every stored header with its name lower-cased, and a `content-length` equal to the body length when no stored header gives one |
| Encoders.DecodeEncode | cachepot/encoders.py:12-24 | encode then decode keeps the body, the status and every (lower-case named) header |
| Storages.Storage.Get | cachepot/storages/abstract.py:7-9 | result and new state are those of `GetStep`: the call is logged, the stored bytes or nothing are returned, an unreachable server raises |
| Storages.Storage.Set | cachepot/storages/abstract.py:11-13 | result and new state are those of `SetStep`: the call is logged with its ttl, the entry is stored, an unreachable server raises |
| Storages.Storage.Delete | cachepot/storages/abstract.py:15-17 | result and new state are those of `DeleteStep`: the call is logged, the entry is removed and its former presence returned |
| Storages.CallsAreLogged | cachepot/storages/abstract.py:5-17 | every operation records exactly its own call, and `get` changes no entry |
| Storages.KeyValueStores | cachepot/storages/abstract.py:7-17 | a reachable store gives back what was last set under a key, nothing after a delete, and leaves other keys alone on both a set and a delete |
| Storages.UnreachableRaises | cachepot/utils.py:37 | an unreachable store raises on `get`, `set` and `delete` alike |
| Storages.DummyNeverStores | cachepot/storages/dummy.py:6-10 | the dummy backend answers every `get` with nothing, before and after any `set` or `delete` |
| Storages.DummyReturnsNone | cachepot/storages/dummy.py:9-13 | the dummy `set` and `delete` return `None` and keep no entry |
| Constants.NewPolicy | cachepot/constants.py:9-16 | a policy built from a storage and a key is active, has ttl 30, honours no-cache and marks hits with `X-Cache-Hit` |
| Constants.GetKeySpec | cachepot/constants.py:18-19 | a literal key is the same for every request; a key function is applied to the request |
| UtilsProperties.CachableExactly | cachepot/utils.py:24-30 | only a GET under a present, active policy is cacheable, and then exactly when a `no-cache` request header is not being honoured |
| UtilsProperties.RespectNoCacheTable | tests/test_utils.py:41-57 | the four `respect_no_cache` / `cache-control` combinations give not-cacheable only when the header is sent and honoured |
| Utils.GetCachedResponse | cachepot/utils.py:33-43 | the returned response (a fresh object) and the storage state afterwards are those of `LookupSpec` |
| UtilsProperties.LookupBypass | cachepot/utils.py:34 | a request that is not cacheable gets no cached response and causes no storage call |
| UtilsProperties.LookupCalls | cachepot/utils.py:35-38 | a cacheable request makes one `get` with the policy's key; nothing or empty bytes is a miss; a storage error and unparsable bytes are raised |
| UtilsProperties.LookupHit | cachepot/utils.py:38-42 | a hit has the stored body and status, no background tasks, every stored header other than the hit header, and the hit header set to `true` when the policy names one |
| UtilsProperties.LookupReturnsStamped | cachepot/utils.py:37-42 | a hit is the stored record with the hit header stamped on it, then decoded |
| UtilsProperties.StampedHitHeader | cachepot/utils.py:39-42 | stamping and decoding keep the body and status and add the lower-cased hit header with value `true` |
| UtilsProperties.DummyNeverHits | cachepot/storages/dummy.py:6-7 | with the dummy backend no request ever gets a cached response |
| UtilsProperties.StoredResponseExample | tests/test_utils.py:60-76 | a stored 18-byte body with header `test` comes back with `test`, `x-cache-hit: true` and `content-length: 18`, status 200 |
| UtilsProperties.StampedExample | tests/test_utils.py:63-76 | the stamped and decoded record of that test is exactly the expected response |
| Utils.CacheResponse | cachepot/utils.py:46-55 | the storage state and the returned response are those of `WriteSpec`; the same object is returned, and on a storage error it is left as it was |
| UtilsProperties.WriteBypass | cachepot/utils.py:47 | a response to a request that is not cacheable is returned unchanged with no storage call |
| UtilsProperties.WriteStores | cachepot/utils.py:48-53 | a cacheable response is written by one `set` under the policy's key with its ttl. The bytes read back as the response before stamping. A storage error is raised. After a successful `set` the miss header is `false` and nothing else changes |
| UtilsProperties.NoCacheNeitherReadNorWritten | cachepot/utils.py:46-47 | an honoured `no-cache` request causes no storage call on either side |
| UtilsProperties.NotCachableTouchesNothing | cachepot/utils.py:33-55 | a request that is not cacheable leaves the storage exactly as it was, whatever the outcome |
| Utils.App | cachepot/utils.py:81-202 | the handler's result (a fresh response), the framework calls made and the storage state afterwards are those of `HandleSpec` |
| UtilsProperties.ParseStepsOnly | cachepot/utils.py:89-112 | reading the body resolves no dependency, runs no endpoint and serialises nothing |
| UtilsProperties.BodyKinds | cachepot/utils.py:90-112 | the body is absent without a body field, with empty bytes or with a JSON `null`; otherwise it is the form, the parsed JSON when the content type asks for JSON, or else the raw bytes |
| UtilsProperties.BodyErrorsSurface | cachepot/utils.py:113-136 | a failed body read ends the request before dependencies and storage. A JSON error becomes a `json_invalid` validation error at `('body', pos)`. HTTP errors and non-`Exception` errors pass unchanged. Anything else becomes a 400 |
| UtilsProperties.MalformedJsonScenario | cachepot/utils.py:113-127 | malformed JSON on a JSON route is exactly one validation error after reading and decoding the body, with the storage untouched |
| UtilsProperties.DependencyErrorsSurface | cachepot/utils.py:137-154 | resolution that raises passes its exception on; reported errors become one validation error carrying the body; neither runs the endpoint or touches storage |
| UtilsProperties.BodyOrDependencyFailure | cachepot/utils.py:113-154 | a request that fails before the lookup ends in an error with the storage untouched |
| UtilsProperties.HitSkipsEndpoint | cachepot/utils.py:156-157 | a hit is returned as it is, after one `get`, without running the endpoint and without a write |
| UtilsProperties.EndpointErrorWritesNothing | cachepot/utils.py:159-165 | an endpoint that raises ends the request with that exception and nothing written |
| UtilsProperties.DirectResponseBackground | cachepot/utils.py:166-169 | for a request that is not cacheable, a response object returned by the endpoint is passed on unchanged, taking the dependencies' background tasks only when it has none |
| UtilsProperties.DirectResponseCached | cachepot/utils.py:159-169 | for a cacheable miss, that response object (with the dependencies' background tasks when it has none) is written by one `set` and returned with the same body and status and the miss header `false`; only a failed `set` makes it an error |
| UtilsProperties.FinalStatusPrecedence | cachepot/utils.py:174-180 | a truthy ambient status wins, else a truthy route status, else an ambient 0, else the response class's default |
| UtilsProperties.MissRenderedResponse | cachepot/utils.py:170-195 | for a request that is not cacheable, rendered content gets the precedence status, an empty body exactly when the status allows none, the class's headers followed by the ambient ones, and the dependencies' background tasks |
| UtilsProperties.MissRenderedCached | cachepot/utils.py:159-202 | for a cacheable miss, the response rendered as for an uncached request is written by one `set` and returned with that status, body and background, its headers changed only by the miss header `false`; only a failed `set` makes it an error |
| UtilsProperties.HandleMiss | cachepot/utils.py:159-202 | on a miss the endpoint runs, and the response it produced goes through the write side |
| UtilsProperties.FirstRequestMisses | cachepot/utils.py:159-202 | the first request over an empty store runs the endpoint, is marked `false` and leaves the response's bytes under the key with ttl 30 |
| UtilsProperties.SecondRequestHits | cachepot/utils.py:156-157 | a request whose key holds a stored record is answered from it without running the endpoint or writing |
| UtilsProperties.MissThenHit | cachepot/utils.py:156-202 | two identical GETs: the first runs the endpoint and is marked `false`; the second is served from the entry the first wrote, marked `true`, with the same body and status, and writes nothing |
| Routing.FirstExplicit | cachepot/routing.py:235-240 | finds an explicitly given setting exactly when one exists, and it is the first one |
| Routing.ValueOrDefault | cachepot/routing.py:389-391 | the resolved setting is explicit exactly when one of the candidates is, and is the first candidate when none is |
| Routing.FirstPathProblem | cachepot/routing.py:222-229 | reports an error exactly when some route lacks a `path` attribute or has the empty path, and it is the error of the first such route |
| Routing.FirstPathProblemAt | cachepot/routing.py:223-229 | the scan stops at the first route with a problem and raises that route's error |
| Routing.CheckPrefix | cachepot/routing.py:217-229 | the checks, made in the source's order, give exactly `PrefixCheck` |
| Routing.PyOr | cachepot/routing.py:274 | Python's `or` on optional flags: truthy exactly when either operand is; the second operand when the first is falsy |
| RoutingProperties.NonEmptyPrefixCheck | cachepot/routing.py:217-221 | a non-empty prefix passes exactly when it starts with `/` and does not end with `/`. A missing leading `/` is reported first. The routes are not looked at |
| RoutingProperties.EmptyPrefixCheck | cachepot/routing.py:222-229 | with an empty prefix the check fails exactly when some route lacks a path or has the empty one, and it reports the first such route |
| RoutingProperties.PathProblemCases | cachepot/routing.py:224-229 | a missing `path` attribute raises, a `None` path is skipped, and an empty path raises naming the route, as `unknown` without a name and `None` for a `None` name |
| Routing.Router.AddApiRoute | cachepot/routing.py:386-435 | appends exactly the route `NewRoute` describes and changes none of the router's own settings |
| RoutingProperties.NewRouteSpec | cachepot/routing.py:386-433 | the new route sits at the router prefix plus the path, with the router's lists followed by the given ones. `deprecated` is the disjunction and `include_in_schema` the conjunction. The policy is kept exactly when the route class is `CachedAPIRoute` |
| Routing.Router.ApiRoute | cachepot/routing.py:468-499 | registering through the decorator appends the same route as `add_api_route` without a class override, and hands the endpoint back |
| Routing.Router.Get | cachepot/routing.py:875-901 | `get` registers through `api_route` with the methods fixed to `['GET']` |
| RoutingProperties.GetRoute | cachepot/routing.py:875-901 | on a caching router `get` registers a GET-only caching route whose handler receives the given policy |
| RoutingProperties.RouteWithoutPolicyNeverCaches | cachepot/routing.py:37-52 | a caching route registered without a policy hands its handler no policy, so no request to it is cacheable or touches storage |
| Routing.Router.IncludeRouter | cachepot/routing.py:217-320 | the outcome is `PrefixCheck` of the included router's routes as they were. On failure no route is added. On success, what `IncludedRoutes` describes is appended and the router's settings are unchanged. In the model a router without path operations adds nothing, itself included |
| RoutingProperties.IncludedRouteSpec | cachepot/routing.py:241-291 | an included route sits at router prefix + include prefix + its path. Lists are router-level, include-level, then its own. `deprecated` is route OR include OR router, and `include_in_schema` the conjunction of all three. A caching route keeps its policy. The response class is the first explicit of route, included router, include call and router |
| Routing.Router.AppendIncluded | cachepot/routing.py:232-320 | after the loop, exactly what `IncludedRoutes` describes is appended and the router's settings are unchanged |
| Routing.Router.IncludeEntry | cachepot/routing.py:233-320 | a path operation adds its `IncludedEntry`; any other route kind adds nothing |
| Routing.Router.IncludeOne | cachepot/routing.py:233-316 | a path operation is re-registered as exactly `IncludedRoute` describes |
| RoutingProperties.IncludedHandlerKeepsPolicy | cachepot/routing.py:262-290 | an included caching route builds its handler with its original policy, status code and body field |
| Routing.IncludedRoutesInOrder | cachepot/routing.py:232-233 | the included routes are the path operations of the included router, in order, one for each |
| RoutingProperties.NothingToInclude | cachepot/routing.py:233 | a router with no path operations contributes nothing |
| RoutingProperties.ApiRoutesOfMembers | cachepot/routing.py:233 | the path operations considered are exactly the router's `APIRoute` entries |
| RoutingProperties.ValueOrDefaultNested | cachepot/routing.py:389-391 | resolving again with the router's default after the include-level resolution is one resolution over the longer list |

## Left out

- Concurrency and `async`: the handler, the storage calls and the framework hooks are sequential calls.
- The exit stack, and the re-raise of an exception a dependency with `yield` swallowed: an exception ends the request directly. Closing the form is not modelled.
- FastAPI internals are parameters of the `Framework` record: dependency resolution, error normalisation, endpoint call, serialisation, body-allowed test, request body, form, JSON reading and content-type parsing. Their own behaviour is not part of this model.
- The stored byte format: cachepot calls `model_validate_json` and `cache_data()`, and `cache_data` is not defined in `cachepot/encoders.py`. The model uses its own length-prefixed format and proves that it reads back exactly what was written, in place of pydantic's JSON.
- UtilsProperties.DirectResponseCached: responses without a body are not modelled. Starlette's `StreamingResponse` and `FileResponse` have no `body` attribute. An endpoint that returns one on a cacheable miss makes `ResponseEncoder.encode` raise `AttributeError` after the endpoint has run, and a request that is not cacheable gets it unchanged. Every `ResponseValue` of the model has a body, so this lemma and UtilsProperties.WriteStores describe only the write of a response that has one.
- Starlette itself is not part of this model. Its header handling and the headers a `Response` starts with follow the version the cachepot tests expect: `content-length` is added whenever it is absent. The status-dependent omission of newer Starlette versions is not modelled.
- Redis and any other real backend: `cachepot/storages/redis.py` is not part of this model. The key-value backend stands for any store that keeps what it is given, and expiry is recorded but not timed.
- The storage contract is an abstract base class in the source. Here it is one `Storage` class with a backend tag.
- `CachedFastAPI` in `cachepot/app.py`, which only installs the caching router, is not modelled.
- OpenAPI and documentation metadata: responses, summaries, descriptions, operation ids, response models, `openapi_extra`, and the generated unique-id functions.
- Plain Starlette routes, websocket routes, mounts and hosts in `include_router`: the model does not re-register them. Their `path` and `name` attributes still take part in the empty-prefix check, where a route kind without a `path` (such as a `Host`) raises. Startup and shutdown handler copying is not modelled either.
- Route classes other than exactly `CachedAPIRoute` and FastAPI's `APIRoute` are not modelled. This includes subclasses of `CachedAPIRoute`, which `add_api_route` would build without a `cache_policy` argument.
- `APIRoute`'s own normalisation of its arguments (upper-cased method set, default methods, body field derived from the endpoint's signature) is not modelled. Methods are kept as passed, and the body field is a property of the endpoint.
- `get_value_or_default` lives in `fastapi.utils`, which is not part of this model. `Routing.ValueOrDefault` follows its behaviour: the first argument that is not a `Default(...)` placeholder, else the first argument.
- Python's `assert` statements in `include_router` are modelled as errors that are always raised. Running Python with `-O` would skip them.
- Routing.Router.IncludeRouter: excludes one case, including a router into itself when it has path operations and passes the prefix checks. In cachepot that call iterates over the list it appends to and never ends. A self-inclusion that fails a check is covered, and so is one whose routes hold no path operation. Such a self-inclusion adds nothing in cachepot only when its routes are all mounts or hosts. If it holds a plain Starlette route or a websocket route, cachepot re-adds that entry to the list it walks (cachepot/routing.py:321-345) and never ends. The model returns, because it leaves those branches out.
- Aliasing of a response object that the endpoint returns: the model builds a fresh `Response` from its value.
- Non-latin-1 header text: Starlette lower-cases a header name, then encodes name and value as latin-1, and raises `UnicodeEncodeError` when a character above U+00FF remains. The model appends such a header and does not raise. `Http.Lower` follows `str.lower()` on the ASCII and latin-1 capitals and on the four capitals outside latin-1 that lower-case into it (U+0178, U+1E9E, U+212A, U+212B), so a name such as one holding the Kelvin sign is stored as Starlette stores it. Other characters are kept as they are.
- Constants.GetKey: a key function is total in the model. A key function that raises, and the exception it would pass out of `get_cached_response` or `cache_response`, is not modelled.
