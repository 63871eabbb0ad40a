/**
 * Turning a controller class into an `APIRouter`: the signatures of the
 * generated HTTP and websocket handlers, the dispatch of each decorated
 * method to an HTTP or a websocket route, and the router built per
 * controller. Handler bodies (resolving the controller from the container
 * and calling the method) are not modelled; a route records which class and
 * method its handler calls.
 */
module Routing {
  import opened Wrappers
  import opened Objects
  import opened Seqs
  import opened Decorators

  // ---------------------------------------------------------------- handler signatures

  /** `list(sig.parameters.values())[1:]`: the parameters after `self`. */
  function WithoutSelf(sig: seq<Param>): (ps: seq<Param>)
    ensures sig == [] ==> ps == []
    ensures sig != [] ==> sig == [sig[0]] + ps
  {
    if sig == [] then [] else sig[1..]
  }

  /** The signature `_create_http_handler` gives its wrapper: the method's, without `self`. */
  function HttpHandlerParams(sig: seq<Param>): (ps: seq<Param>)
    ensures |ps| == if sig == [] then 0 else |sig| - 1
    ensures forall i :: 0 <= i < |ps| ==> ps[i] == sig[i + 1]
  {
    WithoutSelf(sig)
  }

  predicate DistinctNames(ps: seq<Param>)
  {
    forall i, j :: 0 <= i < j < |ps| ==> ps[i].name != ps[j].name
  }

  /** `sig.replace(parameters=ps)`: `inspect.Signature` refuses a repeated name with `ValueError`. */
  function ReplaceParameters(ps: seq<Param>): (r: Option<seq<Param>>)
    ensures r.Some? <==> DistinctNames(ps)
    ensures r.Some? ==> r.value == ps
  {
    if DistinctNames(ps) then Some(ps) else None
  }

  /** The wrapper's own first parameter, `websocket: WebSocket`. */
  const FallbackName := "websocket"
  const WrapperParam := Param(FallbackName, WebSocketClass)

  /** Not the connection: a parameter the wrapper passes through. */
  predicate IsPlain(p: Param)
  {
    p.annotation != WebSocketClass
  }

  predicate NotNamedFallback(p: Param)
  {
    p.name != FallbackName
  }

  /** The name the loop leaves in `ws_param_name`: that of the last `WebSocket`-annotated parameter. */
  function ConnectionName(ps: seq<Param>): (r: Option<string>)
    ensures r.None? <==> forall p :: p in ps ==> IsPlain(p)
    ensures r.Some? ==> exists i :: 0 <= i < |ps| && !IsPlain(ps[i]) && ps[i].name == r.value
                                   && forall j :: i < j < |ps| ==> IsPlain(ps[j])
  {
    if ps == [] then None
    else
      var init, last := ps[..|ps| - 1], ps[|ps| - 1];
      assert ps == init + [last];
      if !IsPlain(last) then Some(last.name) else ConnectionName(init)
  }

  /** The loop over the parameters in `_create_websocket_handler`. */
  method ScanParams(ps: seq<Param>) returns (wsName: Option<string>, newParams: seq<Param>)
    ensures wsName == ConnectionName(ps)
    ensures newParams == Filter(ps, IsPlain)
  {
    wsName, newParams := None, [];
    for i := 0 to |ps|
      invariant wsName == ConnectionName(ps[..i])
      invariant newParams == Filter(ps[..i], IsPlain)
    {
      assert ps[..i + 1][..i] == ps[..i];
      var param := ps[i];
      if param.annotation == WebSocketClass {
        wsName := Some(param.name);
      } else {
        newParams := newParams + [param];
      }
    }
    assert ps[..|ps|] == ps;
  }

  /** A websocket wrapper: the keyword the connection is passed as, and the wrapper's parameters. */
  datatype WebsocketHandler = WebsocketHandler(injectAs: string, params: seq<Param>)

  /** `if not ws_param_name`: no annotated parameter (or, impossible in Python, an empty name). */
  function InjectName(found: Option<string>): (n: string)
    ensures found.Some? && found.value != "" ==> n == found.value
    ensures found.None? ==> n == FallbackName
    ensures n != ""
  {
    if found.Some? && found.value != "" then found.value else FallbackName
  }

  /**
   * `_create_websocket_handler` as written: the wrapper's parameters are
   * `websocket` and every non-connection parameter, and a repeated name
   * makes `sig.replace` raise.
   */
  function WebsocketHandlerAsWritten(sig: seq<Param>): Option<WebsocketHandler>
  {
    var ps := WithoutSelf(sig);
    var params := [WrapperParam] + Filter(ps, IsPlain);
    match ReplaceParameters(params)
    case None => None
    case Some(checked) => Some(WebsocketHandler(InjectName(ConnectionName(ps)), checked))
  }

  method CreateWebsocketHandlerAsWritten(sig: seq<Param>) returns (r: Option<WebsocketHandler>)
    ensures r == WebsocketHandlerAsWritten(sig)
  {
    var ps := WithoutSelf(sig);
    var wsName, newParams := ScanParams(ps);
    if wsName.None? || wsName.value == "" {
      wsName := Some(FallbackName);
    }
    var replaced := ReplaceParameters([WrapperParam] + newParams);
    if replaced.None? {
      r := None;
    } else {
      r := Some(WebsocketHandler(wsName.value, replaced.value));
    }
  }

  /**
   * Where `sig.replace` accepts the as-written wrapper, its parameters are
   * `websocket` followed by every non-connection parameter, in order, and it
   * coincides with the corrected wrapper; it fails exactly on a repeated name.
   */
  lemma WebsocketHandlerAsWrittenExact(sig: seq<Param>)
    ensures var ps := WithoutSelf(sig);
            var r := WebsocketHandlerAsWritten(sig);
            && (r.Some? <==> DistinctNames([WrapperParam] + Filter(ps, IsPlain)))
            && (r.Some? ==> r.value.params == [WrapperParam] + Filter(ps, IsPlain))
            && (r.Some? ==> r.value.injectAs == InjectName(ConnectionName(ps)))
            && (r.Some? ==> r.value == WebsocketHandlerFor(sig))
  {
    var ps := WithoutSelf(sig);
    var plain := Filter(ps, IsPlain);
    var params := [WrapperParam] + plain;
    if DistinctNames(params) {
      forall p | p in plain ensures NotNamedFallback(p) {
        var k :| 0 <= k < |plain| && plain[k] == p;
        assert params[k + 1] == p && params[0] == WrapperParam;
      }
      FilterAll(plain, NotNamedFallback);
    }
  }

  /**
   * A method whose connection parameter is unannotated and named
   * `websocket` is the case the fallback exists for, yet `[websocket,
   * websocket]` is not a valid signature: registering the route raises.
   */
  lemma FallbackCollides()
    ensures var sig := [Param("self", Unannotated), Param("websocket", Unannotated)];
            WebsocketHandlerAsWritten(sig).None?
  {
    var sig := [Param("self", Unannotated), Param("websocket", Unannotated)];
    assert WithoutSelf(sig) == [Param("websocket", Unannotated)];
    FilterSingleton(Param("websocket", Unannotated), IsPlain);
    var params := [WrapperParam] + Filter(WithoutSelf(sig), IsPlain);
    assert params == [WrapperParam, Param("websocket", Unannotated)];
    assert params[0].name == params[1].name;
  }

  /**
   * An annotated connection beside a plain parameter named `websocket`
   * also makes `sig.replace` raise, so the route is never added.
   */
  lemma AnnotatedBesideWebsocketRejected(cls: PyClass, name: string, path: string)
    ensures var sig := [Param("self", Unannotated), Param("ws", WebSocketClass), Param("websocket", OtherAnnotation("str"))];
            RouteFor(cls, name, sig, RouteInfo("WEBSOCKET", path, map[])).None?
  {
    var plain := Param("websocket", OtherAnnotation("str"));
    var sig := [Param("self", Unannotated), Param("ws", WebSocketClass), plain];
    assert WithoutSelf(sig) == [Param("ws", WebSocketClass)] + [plain];
    FilterSingleton(Param("ws", WebSocketClass), IsPlain);
    FilterSingleton(plain, IsPlain);
    FilterAppend([Param("ws", WebSocketClass)], [plain], IsPlain);
    var params := [WrapperParam] + Filter(WithoutSelf(sig), IsPlain);
    assert params == [WrapperParam, plain];
    assert params[0].name == params[1].name;
  }

  /**
   * `_create_websocket_handler`, corrected: when the connection is passed
   * as `websocket` (no annotated parameter), the method's own `websocket`
   * parameter is the one receiving it and is not listed a second time.
   */
  function WebsocketHandlerFor(sig: seq<Param>): (h: WebsocketHandler)
    // the wrapper always starts with `websocket: WebSocket`
    ensures |h.params| >= 1 && h.params[0] == WrapperParam
    // the connection goes to the last annotated parameter, by type and not by name, else to `websocket`
    ensures h.injectAs == InjectName(ConnectionName(WithoutSelf(sig)))
    // no connection parameter is passed through, and nothing else is invented
    ensures forall p :: p in h.params[1..] ==> p in WithoutSelf(sig) && IsPlain(p)
    // with an annotated connection parameter, every other parameter follows `websocket`, in order
    ensures h.injectAs != FallbackName ==> h.params == [WrapperParam] + Filter(WithoutSelf(sig), IsPlain)
    // in the fallback, the same except the method's own `websocket`, which receives the connection
    ensures h.injectAs == FallbackName ==>
              h.params == [WrapperParam] + Filter(Filter(WithoutSelf(sig), IsPlain), NotNamedFallback)
  {
    var ps := WithoutSelf(sig);
    var plain := Filter(ps, IsPlain);
    FilterMembers(ps, IsPlain);
    FilterMembers(plain, NotNamedFallback);
    var injectAs := InjectName(ConnectionName(ps));
    if injectAs == FallbackName then
      WebsocketHandler(injectAs, [WrapperParam] + Filter(plain, NotNamedFallback))
    else
      WebsocketHandler(injectAs, [WrapperParam] + plain)
  }

  method CreateWebsocketHandler(sig: seq<Param>) returns (h: WebsocketHandler)
    ensures h == WebsocketHandlerFor(sig)
  {
    var ps := WithoutSelf(sig);
    var wsName, newParams := ScanParams(ps);
    if wsName.None? || wsName.value == "" {
      wsName := Some(FallbackName);
    }
    if wsName.value == FallbackName {
      newParams := Filter(newParams, NotNamedFallback);
    }
    h := WebsocketHandler(wsName.value, [WrapperParam] + newParams);
  }

  lemma {:induction false} FilterKeepsDistinctNames(ps: seq<Param>, keep: Param -> bool)
    requires DistinctNames(ps)
    ensures DistinctNames(Filter(ps, keep))
  {
    if ps != [] {
      var init, last := ps[..|ps| - 1], ps[|ps| - 1];
      assert DistinctNames(init) by {
        forall i, j | 0 <= i < j < |init| ensures init[i].name != init[j].name {
          assert init[i] == ps[i] && init[j] == ps[j];
        }
      }
      FilterKeepsDistinctNames(init, keep);
      FilterMembers(init, keep);
      forall p | p in Filter(init, keep) ensures p.name != last.name {
        var k :| 0 <= k < |init| && init[k] == p;
        assert ps[k] == p;
      }
    }
  }

  /**
   * The corrected wrapper's signature is always valid, as long as the
   * method's is and the method does not, besides an annotated connection
   * parameter, also have a plain parameter named `websocket`.
   */
  lemma WebsocketHandlerValid(sig: seq<Param>)
    requires DistinctNames(sig)
    requires ConnectionName(WithoutSelf(sig)).Some? && ConnectionName(WithoutSelf(sig)).value != "" ==>
               forall p :: p in WithoutSelf(sig) && IsPlain(p) ==> p.name != FallbackName
    ensures ReplaceParameters(WebsocketHandlerFor(sig).params).Some?
  {
    var ps := WithoutSelf(sig);
    assert DistinctNames(ps) by {
      forall i, j | 0 <= i < j < |ps| ensures ps[i].name != ps[j].name {
        assert ps[i] == sig[i + 1] && ps[j] == sig[j + 1];
      }
    }
    var plain := Filter(ps, IsPlain);
    FilterKeepsDistinctNames(ps, IsPlain);
    var h := WebsocketHandlerFor(sig);
    var rest := h.params[1..];
    FilterMembers(ps, IsPlain);
    if h.injectAs == FallbackName {
      FilterKeepsDistinctNames(plain, NotNamedFallback);
      FilterMembers(plain, NotNamedFallback);
      assert rest == Filter(plain, NotNamedFallback);
    } else {
      assert rest == plain;
    }
    assert DistinctNames(rest);
    forall i, j | 0 <= i < j < |h.params| ensures h.params[i].name != h.params[j].name {
      if i == 0 {
        assert h.params[j] == rest[j - 1];
        assert h.params[j] in rest;
      } else {
        assert h.params[i] == rest[i - 1] && h.params[j] == rest[j - 1];
      }
    }
  }

  /**
   * Where the one annotated parameter sits does not matter: it is found by
   * its type, and the parameters around it are passed through in order.
   */
  lemma ConnectionFoundByType(before: seq<Param>, conn: Param, after: seq<Param>)
    requires !IsPlain(conn)
    requires forall p :: p in before ==> IsPlain(p)
    requires forall p :: p in after ==> IsPlain(p)
    ensures ConnectionName(before + [conn] + after) == Some(conn.name)
    ensures Filter(before + [conn] + after, IsPlain) == before + after
  {
    var ps := before + [conn] + after;
    var k := |before|;
    forall i | k < i < |ps| ensures IsPlain(ps[i]) {
      assert ps[i] == after[i - k - 1];
    }
    ConnectionNameAt(ps, k);
    FilterAll(before, IsPlain);
    FilterAll(after, IsPlain);
    FilterSingleton(conn, IsPlain);
    FilterAppend(before, [conn], IsPlain);
    assert Filter(before + [conn], IsPlain) == before + [];
    assert before + [] == before;
    FilterAppend(before + [conn], after, IsPlain);
  }

  lemma {:induction false} ConnectionNameAt(ps: seq<Param>, k: nat)
    requires k < |ps| && !IsPlain(ps[k])
    requires forall i :: k < i < |ps| ==> IsPlain(ps[i])
    ensures ConnectionName(ps) == Some(ps[k].name)
  {
    if k < |ps| - 1 {
      var init := ps[..|ps| - 1];
      assert forall i :: k < i < |init| ==> init[i] == ps[i];
      ConnectionNameAt(init, k);
    }
  }

  /** Names stay distinct when one parameter is taken out. */
  lemma DistinctWithout(before: seq<Param>, conn: Param, after: seq<Param>)
    requires DistinctNames(before + [conn] + after)
    ensures DistinctNames(before + after)
    ensures forall p :: p in before + after ==> p.name != conn.name
  {
    var ps := before + [conn] + after;
    var rest := before + after;
    var b := |before|;
    forall i | 0 <= i < |rest| ensures rest[i] == ps[if i < b then i else i + 1] {
    }
    assert ps[b] == conn;
  }

  /**
   * For `self, before..., conn: WebSocket, after...` the connection goes to
   * `conn`'s name and the wrapper's parameters are `websocket`, then the
   * others in order.
   */
  lemma WebsocketParamsAroundConnection(self: Param, before: seq<Param>, conn: Param, after: seq<Param>)
    requires !IsPlain(conn) && conn.name != ""
    requires forall p :: p in before ==> IsPlain(p)
    requires forall p :: p in after ==> IsPlain(p)
    requires DistinctNames(before + [conn] + after)
    ensures WebsocketHandlerFor([self] + before + [conn] + after)
         == WebsocketHandler(conn.name, [WrapperParam] + before + after)
  {
    var ps := before + [conn] + after;
    var sig := [self] + ps;
    assert [self] + before + [conn] + after == sig;
    assert WithoutSelf(sig) == ps;
    ConnectionFoundByType(before, conn, after);
    var h := WebsocketHandlerFor(sig);
    assert h.injectAs == conn.name;
    if conn.name == FallbackName {
      DistinctWithout(before, conn, after);
      FilterAll(before + after, NotNamedFallback);
      assert Filter(Filter(ps, IsPlain), NotNamedFallback) == before + after;
    }
    assert h.params == [WrapperParam] + before + after;
  }

  /**
   * The source builds the same wrapper, unless one of the other parameters
   * is named `websocket`.
   */
  lemma WebsocketParamsAroundConnectionAsWritten(self: Param, before: seq<Param>, conn: Param, after: seq<Param>)
    requires !IsPlain(conn) && conn.name != ""
    requires forall p :: p in before ==> IsPlain(p) && NotNamedFallback(p)
    requires forall p :: p in after ==> IsPlain(p) && NotNamedFallback(p)
    requires DistinctNames(before + [conn] + after)
    ensures WebsocketHandlerAsWritten([self] + before + [conn] + after)
         == Some(WebsocketHandler(conn.name, [WrapperParam] + before + after))
  {
    var sig := [self] + before + [conn] + after;
    var rest := before + after;
    DistinctWithout(before, conn, after);
    var params := [WrapperParam] + rest;
    forall i, j | 0 <= i < j < |params| ensures params[i].name != params[j].name {
      assert params[j] == rest[j - 1] && params[j] in rest;
      if i > 0 {
        assert params[i] == rest[i - 1];
      }
    }
    assert WithoutSelf(sig) == before + [conn] + after;
    ConnectionFoundByType(before, conn, after);
    WebsocketHandlerAsWrittenExact(sig);
    WebsocketParamsAroundConnection(self, before, conn, after);
  }

  /**
   * For a method with no connection parameter and no parameter named
   * `websocket`, the websocket wrapper is the HTTP wrapper with the
   * connection parameter put in front.
   */
  lemma WebsocketVersusHttp(sig: seq<Param>)
    requires forall p :: p in WithoutSelf(sig) ==> IsPlain(p) && NotNamedFallback(p)
    ensures WebsocketHandlerFor(sig) == WebsocketHandler(FallbackName, [WrapperParam] + HttpHandlerParams(sig))
  {
    var ps := WithoutSelf(sig);
    FilterAll(ps, IsPlain);
    FilterAll(ps, NotNamedFallback);
  }

  // ---------------------------------------------------------------- routes and routers

  /** What `add_api_route` / `add_api_websocket_route` is given. */
  datatype Route =
    | HttpRoute(path: string, methods: seq<string>, owner: PyClass, target: string, params: seq<Param>,
                kwargs: map<string, Value>)
    | WebsocketRoute(path: string, owner: PyClass, target: string, handler: WebsocketHandler,
                     kwargs: map<string, Value>)

  /** An `APIRouter` built for one controller. */
  datatype Router = Router(prefix: Value, tags: Value, dependencies: Value, responses: Value, routes: seq<Route>)

  /**
   * `_register_route` passes `path` and `endpoint` (and, for an HTTP route,
   * `methods`) itself; the same name among the route's keyword arguments
   * makes the call raise `TypeError`.
   */
  predicate KeywordClash(kwargs: map<string, Value>, http: bool)
  {
    "path" in kwargs || "endpoint" in kwargs || (http && "methods" in kwargs)
  }

  /**
   * The route `_register_route` adds for a decorated method, or `None` where
   * it raises: `ValueError` from the websocket wrapper's `sig.replace`, or
   * `TypeError` from a keyword passed twice.
   */
  function RouteFor(cls: PyClass, name: string, params: seq<Param>, info: RouteInfo): (r: Option<Route>)
    // `WEBSOCKET` routes are websocket routes and every other method an HTTP route
    ensures r.Some? ==> (r.value.WebsocketRoute? <==> info.httpMethod == "WEBSOCKET")
    // an HTTP route fails only on a repeated keyword; a websocket route also on its wrapper's signature
    ensures info.httpMethod != "WEBSOCKET" ==> (r.Some? <==> !KeywordClash(info.kwargs, true))
    ensures info.httpMethod == "WEBSOCKET" ==>
              (r.Some? <==> !KeywordClash(info.kwargs, false) && WebsocketHandlerAsWritten(params).Some?)
    ensures r.Some? && r.value.HttpRoute? ==>
              r.value.methods == [info.httpMethod] && r.value.params == HttpHandlerParams(params)
    ensures r.Some? && r.value.WebsocketRoute? ==> Some(r.value.handler) == WebsocketHandlerAsWritten(params)
    ensures r.Some? ==>
              r.value.path == info.path && r.value.kwargs == info.kwargs && r.value.owner == cls && r.value.target == name
  {
    if info.httpMethod == "WEBSOCKET" then
      match WebsocketHandlerAsWritten(params)
      case None => None
      case Some(handler) =>
        if KeywordClash(info.kwargs, false) then None
        else Some(WebsocketRoute(info.path, cls, name, handler, info.kwargs))
    else
      if KeywordClash(info.kwargs, true) then None
      else Some(HttpRoute(info.path, [info.httpMethod], cls, name, HttpHandlerParams(params), info.kwargs))
  }

  /** `getattr(method, PICO_ROUTE_KEY, None)` when it is truthy route information. */
  function RouteInfoOf(attrs: map<string, Attr>): Option<RouteInfo>
  {
    if RouteKey in attrs && attrs[RouteKey].RouteAttr? then Some(attrs[RouteKey].info) else None
  }

  /** A member function that registering does not raise on: undecorated, or with a route that can be built. */
  predicate Routable(cls: PyClass, f: PyFunction)
    reads f
  {
    RouteInfoOf(f.attrs).None? || RouteFor(cls, f.name, f.params, RouteInfoOf(f.attrs).value).Some?
  }

  /** `getattr(cls, PICO_CONTROLLER_META, {}) or {}`. */
  function MetaOf(attrs: map<string, Attr>): (meta: map<string, Value>)
    ensures ControllerMetaKey in attrs && attrs[ControllerMetaKey].MetaAttr? ==>
              meta == attrs[ControllerMetaKey].meta
  {
    if ControllerMetaKey in attrs && attrs[ControllerMetaKey].MetaAttr? then attrs[ControllerMetaKey].meta
    else map[]
  }

  function MetaGet(meta: map<string, Value>, key: string, default: Value): Value
  {
    if key in meta then meta[key] else default
  }

  /**
   * The routes of the decorated functions among `fs`, in their order, or
   * `None` when one of them cannot be registered.
   */
  function RoutesFor(cls: PyClass, fs: seq<PyFunction>): (routes: Option<seq<Route>>)
    reads fs
    ensures routes.Some? <==> forall f :: f in fs ==> Routable(cls, f)
    ensures routes.Some? ==> |routes.value| <= |fs|
  {
    if fs == [] then Some([])
    else
      var init, last := fs[..|fs| - 1], fs[|fs| - 1];
      assert fs == init + [last];
      assert forall f :: f in init ==> f in fs;
      match RoutesFor(cls, init)
      case None => None
      case Some(routes) =>
        match RouteInfoOf(last.attrs)
        case None => Some(routes)
        case Some(info) =>
          match RouteFor(cls, last.name, last.params, info)
          case None => assert last in fs && !Routable(cls, last); None
          case Some(route) => Some(routes + [route])
  }

  /** Every route comes from a decorated member function. */
  lemma {:induction false} RoutesFromMembers(cls: PyClass, fs: seq<PyFunction>)
    requires RoutesFor(cls, fs).Some?
    ensures forall r :: r in RoutesFor(cls, fs).value ==>
              exists f :: f in fs && RouteInfoOf(f.attrs).Some?
                          && Some(r) == RouteFor(cls, f.name, f.params, RouteInfoOf(f.attrs).value)
  {
    if fs != [] {
      var init, last := fs[..|fs| - 1], fs[|fs| - 1];
      assert fs == init + [last];
      RoutesFromMembers(cls, init);
    }
  }

  /** Every decorated function gets its route. */
  lemma {:induction false} EveryDecoratedFunctionRouted(cls: PyClass, fs: seq<PyFunction>, f: PyFunction)
    requires RoutesFor(cls, fs).Some?
    requires f in fs && RouteInfoOf(f.attrs).Some?
    ensures RouteFor(cls, f.name, f.params, RouteInfoOf(f.attrs).value).Some?
    ensures RouteFor(cls, f.name, f.params, RouteInfoOf(f.attrs).value).value in RoutesFor(cls, fs).value
  {
    var init, last := fs[..|fs| - 1], fs[|fs| - 1];
    assert fs == init + [last];
    assert forall g :: g in init ==> g in fs;
    if f != last {
      EveryDecoratedFunctionRouted(cls, init, f);
    }
  }

  /** The `APIRouter(...)` a controller's metadata asks for, before any route is added. */
  function EmptyRouter(attrs: map<string, Attr>): (router: Router)
    ensures var meta := MetaOf(attrs);
            && router.prefix == MetaGet(meta, "prefix", StrVal(""))
            && router.tags == MetaGet(meta, "tags", NoneVal)
            && router.dependencies == MetaGet(meta, "dependencies", NoneVal)
            && router.responses == MetaGet(meta, "responses", NoneVal)
            && router.routes == []
  {
    var meta := MetaOf(attrs);
    Router(MetaGet(meta, "prefix", StrVal("")), MetaGet(meta, "tags", NoneVal), MetaGet(meta, "dependencies", NoneVal),
           MetaGet(meta, "responses", NoneVal), [])
  }

  /** The router `_create_router_for_controller` builds, or `None` when registering a route raises. */
  function RouterFor(cls: PyClass): (router: Option<Router>)
    reads cls, cls.members
    ensures router.Some? <==> forall f :: f in cls.members ==> Routable(cls, f)
    ensures router.Some? ==> router.value == EmptyRouter(cls.attrs).(routes := RoutesFor(cls, cls.members).value)
  {
    match RoutesFor(cls, cls.members)
    case None => None
    case Some(routes) => Some(EmptyRouter(cls.attrs).(routes := routes))
  }

  /** `_register_route`: add the method's route to the router, or `None` where that raises. */
  function RegisterRoute(router: Router, cls: PyClass, name: string, params: seq<Param>, info: RouteInfo)
    : (r: Option<Router>)
    ensures r.Some? <==> RouteFor(cls, name, params, info).Some?
    ensures r.Some? ==> r.value.routes == router.routes + [RouteFor(cls, name, params, info).value]
    ensures r.Some? ==> r.value.(routes := router.routes) == router
  {
    match RouteFor(cls, name, params, info)
    case None => None
    case Some(route) => Some(router.(routes := router.routes + [route]))
  }

  /** `_create_router_for_controller`: the first route that cannot be registered ends it. */
  method CreateRouterForController(cls: PyClass) returns (router: Option<Router>)
    ensures router == RouterFor(cls)
  {
    var built := EmptyRouter(cls.attrs);
    var members := cls.members;
    for i := 0 to |members|
      invariant RoutesFor(cls, members[..i]).Some?
      invariant built == EmptyRouter(cls.attrs).(routes := RoutesFor(cls, members[..i]).value)
    {
      assert members[..i + 1][..i] == members[..i];
      var member := members[i];
      var routeInfo := RouteInfoOf(member.attrs);
      if routeInfo.Some? {
        var next := RegisterRoute(built, cls, member.name, member.params, routeInfo.value);
        if next.None? {
          assert !Routable(cls, members[i]);
          return None;
        }
        built := next.value;
      }
    }
    assert members[..|members|] == members;
    router := Some(built);
  }

  /**
   * A controller with a `@websocket` method `connect(self, websocket)` gets
   * no router: building its route raises, so the controller's routes are
   * never included.
   */
  lemma CollidingControllerRejected(cls: PyClass, connect: PyFunction, path: string)
    requires connect in cls.members
    requires connect.params == [Param("self", Unannotated), Param("websocket", Unannotated)]
    requires RouteKey in connect.attrs && connect.attrs[RouteKey] == RouteAttr(RouteInfo("WEBSOCKET", path, map[]))
    ensures RouterFor(cls).None?
  {
    FallbackCollides();
    assert !Routable(cls, connect);
  }
}
