# pico-fastapi, modelled in Dafny

pico-fastapi glues the pico-ioc dependency-injection container to FastAPI.
This project models its core and proves properties of the model:

- **The scope middleware** (`PicoScopeMiddleware`, `src/pico_fastapi/middleware.py`).
  Every ASGI connection runs inside the container's `as_current()`.
  An HTTP connection opens a `request` scope under a fresh UUID.
  It also opens a nested `session` scope when the connection carries a session dict.
  The session's id comes from a get-or-create lookup in that dict.
  A websocket connection opens one `websocket` scope.
  The scope a connection opened is cleaned up in a `finally` block.
  The middleware is a class that appends what it does to a `trace`.
  The downstream app is a function from the connection to an `Outcome` (it returns or it raises).
  The UUID generator is a counter.
- **Startup wiring** (`src/pico_fastapi/factory.py`):
  - `_priority_of`, with its fallback to 0;
  - validation of configurers, a filter that never fails;
  - the stable split of configurers into an inner group (priority >= 0) and an outer group (priority < 0);
  - `setup_fastapi`, which applies the inner group, adds the scope middleware once, applies the outer group, registers the controllers and attaches the lifespan manager;
  - controller discovery, and `NoControllersFoundError` when there is none;
  - the router built for each controller, and the choice between HTTP and websocket routes;
  - the signatures of the generated HTTP and websocket handlers;
  - normalisation of a controller method's return value into a response;
  - the lifespan manager's cleanup-then-shutdown sequence.
  The `FastAPI` application is a class whose `events` log records each change made to it.
- **The decorators** (`src/pico_fastapi/decorators.py`):
  - `@controller` sets a flag and a metadata dict on a class and registers it with pico-ioc under a scope;
  - `@get`, `@post`, `@put`, `@delete`, `@patch` and `@websocket` attach a `RouteInfo` to a function.
  Functions and classes are objects with a mutable attribute dict.

Modules: `Wrappers`, `Seqs` (filters, and a stable sort equal to Python's `sorted(key=...)`), `Objects`, `Priority`, `Responses`, `Configurers`, `Decorators`, `Routing`, `Application`, `Factory`, `Middleware`.

## Model

| member | source | states |
|---|---|---|
| Middleware.UuidSupply.NewId | src/pico_fastapi/middleware.py:102 | each call hands out a new id, numbered by the counter, which it advances by one |
| Middleware.Classify | src/pico_fastapi/middleware.py:81-88 | a connection is HTTP exactly when its type is `"http"`, websocket exactly when it is `"websocket"`, and otherwise something else |
| Middleware.LookupOrCreate | src/pico_fastapi/middleware.py:38-41 | returns the existing `pico_session_id` unchanged and leaves the dict alone; otherwise stores the new id under that key and changes no other key |
| Middleware.LookupOrCreateIdempotent | src/pico_fastapi/middleware.py:38-41 | a second lookup returns the same id and leaves the dict as the first left it, whatever id it would have generated |
| Middleware.GetOrCreateSessionId | src/pico_fastapi/middleware.py:25-41 | updates the session dict in place as `LookupOrCreate` says; draws a UUID only when the dict has no id yet |
| Middleware.ConnectionEvents | src/pico_fastapi/middleware.py:80-88 | every connection's trace starts with entering `as_current()` and ends with leaving it |
| Middleware.HttpEventsScoped | src/pico_fastapi/middleware.py:102-112 | an HTTP connection first enters the `request` scope under the UUID drawn for it; it enters and leaves that scope exactly once each, no other request scope is used, and it leaves only after the app has returned; it calls the app exactly once with the connection unchanged; it cleans up the request scope, and no other, exactly once, last, when the container has caches, and never when it has none |
| Middleware.WebsocketEventsScoped | src/pico_fastapi/middleware.py:126-131 | a websocket connection enters one `websocket` scope under a fresh UUID and leaves it exactly once, after the single app call; no other websocket scope is used; it cleans up that scope alone exactly once, last, when the container has caches |
| Middleware.ConnectionEventsShape | src/pico_fastapi/middleware.py:80-131 | `as_current()` spans everything; HTTP and websocket connections get their own scoped call; any other connection type calls the app once and opens and cleans up no scope |
| Middleware.SessionScopeNested | src/pico_fastapi/middleware.py:104-110 | a `session` scope is entered exactly when the connection is HTTP and has a session; it uses the session's stored id, or else the next UUID; it is entered and left strictly inside the request scope, around the app call |
| Middleware.ConsecutiveRequestIdsDistinct | src/pico_fastapi/middleware.py:102 | two HTTP connections handled one after the other enter request scopes with different ids |
| Middleware.ScopeMiddleware.constructor | src/pico_fastapi/middleware.py:68-70 | keeps the app and the container; the trace starts empty |
| Middleware.ScopeMiddleware.CallApp | src/pico_fastapi/middleware.py:88 | calls the app once with the connection and passes its outcome back |
| Middleware.ScopeMiddleware.CleanupScope | src/pico_fastapi/middleware.py:13-22 | records a cleanup of the given scope when the container has caches, and nothing otherwise |
| Middleware.ScopeMiddleware.Call | src/pico_fastapi/middleware.py:72-88 | the outcome is the app's, raised or not; the trace grows by exactly `ConnectionEvents`; the UUIDs drawn are counted; only an HTTP connection's session dict changes, as `LookupOrCreate` says |
| Middleware.ScopeMiddleware.HandleHttp | src/pico_fastapi/middleware.py:90-112 | request scope, an optional nested session scope, the app call, then the cleanup in `finally`, in that order; the outcome is the app's |
| Middleware.ScopeMiddleware.HandleWebsocket | src/pico_fastapi/middleware.py:114-131 | one websocket scope around the app call, then the cleanup in `finally`; one UUID drawn; the outcome is the app's |
| Priority.ParseInt | src/pico_fastapi/factory.py:37 | `int()` on a string accepts exactly an optional sign followed by one or more digits; the sign decides the sign of the result |
| Priority.ParseShow | src/pico_fastapi/factory.py:37 | `int(str(n)) == n` for every integer |
| Priority.PriorityOf | src/pico_fastapi/factory.py:26-39 | an int priority is taken as it is; a missing attribute, an accessor that raises, or a string `int()` rejects gives 0; a non-zero result only comes from an int, `True` or a numeric string |
| Priority.PriorityOfNumeral | src/pico_fastapi/factory.py:36-39 | a priority written as a numeral string counts the same as the integer it spells |
| Responses.Normalize | src/pico_fastapi/factory.py:42-74 | a `Response`, and only a `Response`, passes through as the same object; a 2-tuple gives (content, status) with no headers, a 3-tuple adds the headers; anything else, tuples of other lengths included, is the content with status 200; a model is dumped before it becomes content |
| Responses.NormalizeEncode | src/pico_fastapi/factory.py:59-68 | every response whose content is not a model is what its own tuple (or the `Response` itself) normalises to |
| Responses.NormalizeContentAgain | src/pico_fastapi/factory.py:70-74 | re-returning the content of a plain value's response gives the same response again |
| Responses.ModelDumpedOnBothPaths | src/pico_fastapi/factory.py:62-72 | a model is dumped to the same dict whether it is returned alone or inside a tuple |
| Responses.OtherTuplesAreContent | src/pico_fastapi/factory.py:62-74 | a 1-tuple or a 4-tuple is not read as (content, status): it becomes the content, with status 200 |
| Configurers.ValidateConfigurers | src/pico_fastapi/factory.py:259-279 | keeps exactly the valid candidates, in input order; every other candidate is warned about, in input order; it never fails |
| Configurers.ValidationLosesNothing | src/pico_fastapi/factory.py:273-279 | every candidate is either kept or warned about, never both; everything kept is valid, and every valid candidate is kept |
| Configurers.SplitByPriority | src/pico_fastapi/factory.py:293-296 | every inner configurer has priority >= 0 and every outer one priority < 0 |
| Configurers.SplitByPriorityCorrect | src/pico_fastapi/factory.py:282-296 | inner followed by outer is a permutation of the input; each group ascends by priority; configurers of equal priority keep their input order |
| Seqs.SortByIsSorted | src/pico_fastapi/factory.py:293 | `sorted(key=...)` ascends by the key |
| Seqs.SortBy | src/pico_fastapi/factory.py:293 | `sorted(key=...)` returns a permutation of its input |
| Seqs.SortByIsStable | src/pico_fastapi/factory.py:293 | `sorted(key=...)` keeps elements with equal keys in input order |
| Decorators.ControllerAttrs | src/pico_fastapi/decorators.py:80-82 | the class ends with the controller flag set to true and the metadata set to exactly the extra keyword arguments; no other attribute changes |
| Decorators.Decorate | src/pico_fastapi/decorators.py:80-83 | sets the two attributes on the class itself, returns that same class, and registers it once under the given scope |
| Decorators.Controller | src/pico_fastapi/decorators.py:37-85 | with no class it returns the decorator and registers nothing; given a class it decorates it at once; the scope goes to the registration and not into the metadata |
| Decorators.BareAndCalledAgree | src/pico_fastapi/decorators.py:85 | bare `@controller` and `@controller()` leave classes in the same state, with empty metadata, both registered under the `request` scope |
| Decorators.CreateRouteDecorator | src/pico_fastapi/decorators.py:88-107 | the decorator carries the method, the path and the keyword arguments exactly as given |
| Decorators.Get | src/pico_fastapi/decorators.py:110-128 | builds `RouteInfo("GET", path, kwargs)` |
| Decorators.Post | src/pico_fastapi/decorators.py:131-149 | builds `RouteInfo("POST", path, kwargs)` |
| Decorators.Put | src/pico_fastapi/decorators.py:152-169 | builds `RouteInfo("PUT", path, kwargs)` |
| Decorators.Delete | src/pico_fastapi/decorators.py:172-189 | builds `RouteInfo("DELETE", path, kwargs)` |
| Decorators.Patch | src/pico_fastapi/decorators.py:192-209 | builds `RouteInfo("PATCH", path, kwargs)` |
| Decorators.Websocket | src/pico_fastapi/decorators.py:212-238 | builds `RouteInfo("WEBSOCKET", path, kwargs)` |
| Decorators.VerbsAreDistinct | src/pico_fastapi/decorators.py:110-238 | the six helpers use six different method strings, and only the websocket helper uses `WEBSOCKET` |
| Decorators.ApplyRoute | src/pico_fastapi/decorators.py:102-105 | returns the same function object; only its route attribute changes |
| Decorators.StackRoutes | src/pico_fastapi/decorators.py:102-105 | with two route decorators stacked, the outer one's `RouteInfo` is the one left, and nothing else changes |
| Routing.WithoutSelf | src/pico_fastapi/factory.py:103 | drops exactly the first parameter, `self` |
| Routing.HttpHandlerParams | src/pico_fastapi/factory.py:103-104 | the HTTP wrapper's parameters are the method's parameters after `self`, in order |
| Routing.ReplaceParameters | src/pico_fastapi/factory.py:150 | `sig.replace` succeeds exactly when the parameter names are distinct, and then keeps the parameters as given |
| Routing.ConnectionName | src/pico_fastapi/factory.py:129-133 | none exactly when no parameter is annotated `WebSocket`; otherwise the name of the last annotated one |
| Routing.ScanParams | src/pico_fastapi/factory.py:125-133 | the loop finds the connection's name as `ConnectionName` says and keeps exactly the unannotated parameters, in order |
| Routing.InjectName | src/pico_fastapi/factory.py:135-136 | the connection goes to the annotated parameter's name, or to `websocket` when there is none; the name is never empty |
| Routing.CreateWebsocketHandlerAsWritten | src/pico_fastapi/factory.py:125-151 | the loop and the `sig.replace` call compute `WebsocketHandlerAsWritten` |
| Routing.FallbackCollides | src/pico_fastapi/factory.py:135-150 | for `def connect(self, websocket)` the wrapper's signature lists `websocket` twice, so `sig.replace` raises |
| Routing.AnnotatedBesideWebsocketRejected | src/pico_fastapi/factory.py:129-150 | for `connect(self, ws: WebSocket, websocket: str)` the wrapper's signature lists `websocket` twice, so the route is not added |
| Routing.WebsocketHandlerFor | src/pico_fastapi/factory.py:108-151 | the wrapper starts with `websocket: WebSocket`; the connection is passed to the last annotated parameter, else to `websocket`; after `websocket` come exactly the method's unannotated parameters, in order, leaving out in the fallback case the method's own `websocket` |
| Routing.WebsocketHandlerAsWrittenExact | src/pico_fastapi/factory.py:125-150 | the source's wrapper is built exactly when `websocket` and the unannotated parameters have distinct names; it then lists them in order, and it is the corrected wrapper |
| Routing.CreateWebsocketHandler | src/pico_fastapi/factory.py:108-151 | the loop computes `WebsocketHandlerFor` |
| Routing.WebsocketHandlerValid | src/pico_fastapi/factory.py:143-150 | the corrected wrapper signature has distinct names whenever the method's has, unless a method with an annotated connection also has a plain parameter named `websocket` |
| Routing.ConnectionFoundByType | src/pico_fastapi/factory.py:129-133 | the annotated parameter is found by its type wherever it sits, and the parameters around it pass through in order |
| Routing.WebsocketParamsAroundConnection | src/pico_fastapi/factory.py:125-150 | for `self, before..., conn: WebSocket, after...` the corrected wrapper injects the connection as `conn` and takes `websocket` then `before` and `after`, in order |
| Routing.WebsocketParamsAroundConnectionAsWritten | src/pico_fastapi/factory.py:125-150 | the source builds that same wrapper when no other parameter is named `websocket` |
| Routing.WebsocketVersusHttp | src/pico_fastapi/factory.py:103-150 | without a connection parameter or one named `websocket`, the websocket wrapper's parameters are the HTTP wrapper's with `websocket` put in front |
| Routing.RouteFor | src/pico_fastapi/factory.py:174-203 | a route is a websocket route exactly when its method is `WEBSOCKET`, with the source's wrapper; every other route is an HTTP route with `methods=[method]` and the HTTP wrapper's parameters; path and keyword arguments are passed through; it fails exactly when a keyword argument repeats `path` or `endpoint` (or `methods`, for HTTP) or when the websocket wrapper's signature cannot be built |
| Routing.MetaOf | src/pico_fastapi/factory.py:219 | a controller's metadata dict is read as it was stored, or is empty |
| Routing.RoutesFor | src/pico_fastapi/factory.py:227-230 | succeeds exactly when no decorated member's route fails; then there are at most as many routes as members |
| Routing.RoutesFromMembers | src/pico_fastapi/factory.py:227-230 | every route comes from a decorated member function |
| Routing.EveryDecoratedFunctionRouted | src/pico_fastapi/factory.py:227-230 | every decorated member function gets its route |
| Routing.EmptyRouter | src/pico_fastapi/factory.py:219-225 | prefix, tags, dependencies and responses come from the controller's metadata, with defaults `""` and `None`; there are no routes yet |
| Routing.RouterFor | src/pico_fastapi/factory.py:206-232 | a router is built exactly when no decorated member's route fails; it is the metadata's router holding the members' routes |
| Routing.RegisterRoute | src/pico_fastapi/factory.py:174-203 | fails exactly when the route fails; otherwise adds the route at the end and changes nothing else in the router |
| Routing.CreateRouterForController | src/pico_fastapi/factory.py:206-232 | the loop over the members builds `RouterFor`, stopping at the first route that fails |
| Routing.CollidingControllerRejected | src/pico_fastapi/factory.py:135-150 | a controller with a `@websocket` method `connect(self, websocket)` gets no router |
| Application.FastApiApp.Configure | src/pico_fastapi/factory.py:307 | logs one `configure_app` call |
| Application.FastApiApp.AddScopeMiddleware | src/pico_fastapi/factory.py:366 | logs one scope-middleware addition |
| Application.FastApiApp.IncludeRouter | src/pico_fastapi/factory.py:256 | logs one router inclusion |
| Application.FastApiApp.AttachLifespan | src/pico_fastapi/factory.py:370 | logs the lifespan attachment |
| Factory.KeyClasses | src/pico_fastapi/factory.py:169-170 | keeps exactly the metadata keys that are classes |
| Factory.ControllerClasses | src/pico_fastapi/factory.py:169-171 | keeps some of the classes, in order |
| Factory.ControllerClassesExact | src/pico_fastapi/factory.py:169-171 | keeps exactly the classes whose controller flag is truthy |
| Factory.FindControllerClasses | src/pico_fastapi/factory.py:154-171 | reads only the classes behind the metadata keys and their member functions |
| Factory.FindControllerClassesExact | src/pico_fastapi/factory.py:166-171 | finds nothing without a locator; otherwise exactly the metadata keys that are classes flagged as controllers |
| Factory.RoutersOf | src/pico_fastapi/factory.py:254-255 | the i-th entry is what building the i-th controller's router gives |
| Factory.Included | src/pico_fastapi/factory.py:254-256 | at most one router inclusion per router built |
| Factory.IncludedAt | src/pico_fastapi/factory.py:254-256 | the routers included are exactly those built before the first build that fails, in order; all of them exactly when none fails |
| Factory.RouterEvents | src/pico_fastapi/factory.py:254-256 | at most one router inclusion per controller |
| Factory.RouterEventsAt | src/pico_fastapi/factory.py:254-256 | the i-th router included is the one built for the i-th controller; every controller's router is included exactly when every one can be built; otherwise the first controller left out is one whose router fails |
| Factory.RegisterControllers | src/pico_fastapi/factory.py:235-256 | raises `NoControllersFoundError` exactly when discovery finds nothing, and then changes nothing; fails with the route's error exactly when some controller's router fails, keeping the routers included before it; otherwise includes each controller's router, in order |
| Factory.IncludeRouters | src/pico_fastapi/factory.py:254-256 | the loop includes the routers `RouterEvents` lists and reports whether every one could be built |
| Factory.ConfigurationEvents | src/pico_fastapi/factory.py:306-307 | one `configure_app` call per configurer |
| Factory.ConfigurationEventsAt | src/pico_fastapi/factory.py:306-307 | the i-th call configures the i-th configurer |
| Factory.AppliedConfigurationEvents | src/pico_fastapi/factory.py:299-307 | the configurers applied are exactly the ones given, in order |
| Factory.ApplyConfigurers | src/pico_fastapi/factory.py:299-307 | the loop applies each configurer once, in order |
| Factory.ConfigureAroundScope | src/pico_fastapi/factory.py:362-367 | validates, splits, applies the inner group, adds the scope middleware, applies the outer group; returns the discarded candidates; controller discovery is unaffected |
| Factory.SetupFastApi | src/pico_fastapi/factory.py:349-370 | the app receives exactly `SetupEvents`; it fails with `NoControllersFoundError` exactly when there are no controllers, and with a route's error exactly when some controller's router fails; the warnings name exactly the invalid configurers |
| Factory.ConfigurationPhaseLayout | src/pico_fastapi/factory.py:365-367 | the inner configurers, one at a time, then the scope middleware, then the outer configurers |
| Factory.RegistrationPhaseInert | src/pico_fastapi/factory.py:369-370 | registration only includes routers and attaches the lifespan |
| Factory.ConfigurationPhaseSandwich | src/pico_fastapi/factory.py:365-367 | every configurer applied before the scope middleware has priority >= 0, and every one after it priority < 0 |
| Factory.SetupSandwich | src/pico_fastapi/factory.py:362-370 | the scope middleware is added exactly once; everything before it is a configurer with priority >= 0; every configurer after it has priority < 0 |
| Factory.AppliedConfigurationPhase | src/pico_fastapi/factory.py:365-367 | the configuration phase applies the inner group, then the outer group |
| Factory.SetupApplies | src/pico_fastapi/factory.py:362-367 | the configurers applied are a permutation of the valid ones, each applied once; each side of the scope middleware ascends by priority; an invalid configurer is never applied |
| Factory.SetupLifespanLast | src/pico_fastapi/factory.py:369-370 | the lifespan is attached exactly when controllers were found and every one's router could be built, and then it is the last step |
| Factory.PairSandwich | src/pico_fastapi/factory.py:362-367 | two valid configurers on either side of 0 end up on either side of the scope middleware, whatever their input order |
| Factory.SandwichExample | src/pico_fastapi/factory.py:362-367 | a priority-10 configurer is applied before the scope middleware and a priority -100 one after it, in either input order |
| Factory.GroupsOfPair | src/pico_fastapi/factory.py:293-296 | the split of two valid configurers on either side of 0 does not depend on their input order |
| Factory.LifespanCalls | src/pico_fastapi/factory.py:324-328 | after a normal `yield`, `cleanup_all_async` runs first and exactly once; `shutdown` runs at most once, and only after a cleanup that completed; nothing runs when serving ends with an exception |
| Factory.LifespanManager | src/pico_fastapi/factory.py:324-328 | makes the calls `LifespanCalls` lists, in order; ends normally exactly when serving, cleanup and shutdown all do |

## Left out

- `FastApiAppFactory`, `config.py`, `exceptions.py` and the package exports: thin wrappers around FastAPI's constructor, a settings record and an error message.
- Async execution and the ASGI runtime: each connection is handled on its own, one after another. The order in which Starlette later runs the middleware stack is not modelled; only the order of the calls made to the app is.
- The pico-ioc container's internals (`as_current`, `scope`, `aget`, `_caches`, `cleanup_all_async`, `shutdown`): these are recorded as events or passed in as outcomes.
- `uuid.uuid4()`: a counter stands in for it. The model therefore has ids that never repeat, while real UUIDs are only unlikely to repeat.
- JSON serialisation, Starlette `Response`/`JSONResponse` construction, FastAPI's `APIRouter`, its request validation and OpenAPI: a response is the value, status and headers it is built from, and a router is its settings plus its list of routes.
- What a generated handler does when called: fetching the controller from the container, calling the method, awaiting a coroutine result. Only the handler's signature and its target are modelled.
- Logging: the warning for a discarded configurer is modelled as the list of discarded candidates; debug messages are not modelled.
- Middleware.ScopeMiddleware.Call: assumes that entering or leaving a container scope, the session lookup and the cleanup do not raise. Only the app is modelled as returning or raising.
- Priority.PriorityOf: `int()` is modelled for ints, booleans and plain signed decimal strings. Whitespace, underscores, floats and objects with `__int__` are left out, as are other values `int()` rejects (they give 0, as in the source).
- Routing.ReplaceParameters: checks only that parameter names are distinct. `inspect.Signature` also checks the ordering of parameter kinds and defaults, which is not modelled.
- Routing.RouteInfoOf: only a `RouteInfo` stored by a route decorator counts as route information. Other truthy values under the route attribute are not modelled.
- Routing.MetaOf: metadata that is truthy but not a dict is not modelled.
- Factory.FindControllerClasses: a falsy locator that is not `None` is modelled as no locator. The metadata keys are a sequence, so a dict's uniqueness of keys is not assumed.
- Factory.SetupFastApi: `NoControllersFoundError` and the error a failing route raises are modelled as `Status` results. After either failure nothing else happens, so the lifespan is not attached.
- Factory.ApplyConfigurers: a `configure_app` call is assumed to return normally; one that raises would end `setup_fastapi` part-way, and that is not modelled (the same holds for `Factory.ConfigureAroundScope` and `Factory.SetupFastApi`).
- Decorators.Decorate: the marks pico-ioc's `component()` leaves on the class (its infrastructure and metadata attributes) are modelled as the `Registration` record it returns, not as attributes of the class; the same holds for `Decorators.Controller` and `Decorators.BareAndCalledAgree`.
- Routing.RouteFor: of FastAPI's own checks on a route's keyword arguments, only a keyword repeating one `_register_route` passes itself is modelled; other invalid keywords are not.
- Routing.RouteFor follows the source's websocket wrapper (`WebsocketHandlerAsWritten`). The corrected wrapper `WebsocketHandlerFor` agrees with it wherever the source succeeds (`Routing.WebsocketHandlerAsWrittenExact`); it still fails when an annotated connection parameter sits beside a plain parameter named `websocket` (`Routing.WebsocketHandlerValid`).
- The docstring of `FastApiConfigurer` (src/pico_fastapi/config.py:23-31) describes the order in which requests pass through the middleware: the outer group (priority < 0) before the scope middleware, the inner group after it. The model records the order of the calls `setup_fastapi` makes: the inner group's `configure_app`, then the scope middleware, then the outer group's. That the middleware added last is the first a request passes through is Starlette's behaviour and is not modelled.
- The docstring of the lifespan manager (src/pico_fastapi/factory.py:311-315) says the container is cleaned up and then shut down when the application stops. In the code, an exception raised at the `yield` skips both, and a cleanup that raises skips the shutdown. The model follows the code (`Factory.LifespanCalls`).

## Findings

| source | as written | input that shows it | evidently intended | confidence | as-written member | corrected member |
|---|---|---|---|---|---|---|
| src/pico_fastapi/factory.py:135-150 | With no `WebSocket`-annotated parameter, the connection is passed as `websocket`. The wrapper's signature is `websocket: WebSocket` followed by every unannotated parameter, so a method parameter named `websocket` appears twice and `sig.replace` raises `ValueError`. | `def connect(self, websocket)` on a `@websocket` route | This case is what the fallback is for: the method's own `websocket` parameter should receive the connection and not be listed a second time. | medium, not executed | Routing.FallbackCollides | Routing.WebsocketHandlerValid |
