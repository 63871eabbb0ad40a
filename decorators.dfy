/**
 * The `@controller` class decorator and the route decorators `@get`,
 * `@post`, `@put`, `@delete`, `@patch` and `@websocket`. Decorators
 * change the attribute dict of the object they decorate and return that
 * same object; registering a controller as a pico-ioc component is
 * recorded in a component registry.
 */
module Decorators {
  import opened Wrappers
  import opened Objects

  /** Attribute names (src/pico_fastapi/decorators.py:32-34). */
  const RouteKey := "_pico_route_info"
  const ControllerMetaKey := "_pico_controller_meta"
  const IsControllerKey := "_pico_is_controller"

  /** The scope a controller gets when `scope=` is not given. */
  const DefaultScope := "request"

  /** One call of pico-ioc's `component(cls, scope=...)`. */
  datatype Registration = Registration(cls: PyClass, scope: string)

  /** pico-ioc's component table, seen as the calls made to it. */
  class ComponentRegistry {
    var registrations: seq<Registration>

    constructor ()
      ensures registrations == []
    {
      registrations := [];
    }
  }

  // ---------------------------------------------------------------- @controller

  /** The closure `decorate` captures: the scope and the extra keyword arguments. */
  datatype ControllerDecorator = ControllerDecorator(scope: string, meta: map<string, Value>)

  /** What `controller(...)` returns: the decorator itself, or the decorated class. */
  datatype ControllerResult = Decorator(d: ControllerDecorator) | DecoratedClass(cls: PyClass)

  /** The attribute dict of a class after `decorate` has set its two attributes. */
  function ControllerAttrs(attrs: map<string, Attr>, meta: map<string, Value>): (r: map<string, Attr>)
    ensures r.Keys == attrs.Keys + {ControllerMetaKey, IsControllerKey}
    ensures r[IsControllerKey] == FlagAttr(true)
    ensures r[ControllerMetaKey] == MetaAttr(meta)
    ensures forall k :: k in attrs && k != ControllerMetaKey && k != IsControllerKey ==> r[k] == attrs[k]
  {
    attrs[ControllerMetaKey := MetaAttr(meta)][IsControllerKey := FlagAttr(true)]
  }

  /** `decorate(c)`: store the metadata and the flag on `c`, then register `c` with its scope. */
  method Decorate(d: ControllerDecorator, c: PyClass, registry: ComponentRegistry) returns (r: PyClass)
    modifies c, registry
    ensures r == c
    ensures c.attrs == ControllerAttrs(old(c.attrs), d.meta)
    ensures registry.registrations == old(registry.registrations) + [Registration(c, d.scope)]
  {
    c.attrs := c.attrs[ControllerMetaKey := MetaAttr(d.meta)];
    c.attrs := c.attrs[IsControllerKey := FlagAttr(true)];
    registry.registrations := registry.registrations + [Registration(c, d.scope)];
    r := c;
  }

  /**
   * `controller(cls=None, *, scope="request", **kwargs)`: applied to a class
   * it decorates it at once (bare `@controller`); called without one it
   * returns the decorator.
   */
  method Controller(cls: Option<PyClass>, scope: string, kwargs: map<string, Value>, registry: ComponentRegistry)
    returns (r: ControllerResult)
    modifies if cls.Some? then {cls.value} else {}, registry
    ensures cls.None? ==> r == Decorator(ControllerDecorator(scope, kwargs))
    ensures cls.None? ==> registry.registrations == old(registry.registrations)
    ensures cls.Some? ==> r == DecoratedClass(cls.value)
    ensures cls.Some? ==> cls.value.attrs == ControllerAttrs(old(cls.value.attrs), kwargs)
    ensures cls.Some? ==> registry.registrations == old(registry.registrations) + [Registration(cls.value, scope)]
  {
    var d := ControllerDecorator(scope, kwargs);
    if cls.None? {
      r := Decorator(d);
    } else {
      var c := Decorate(d, cls.value, registry);
      r := DecoratedClass(c);
    }
  }

  /**
   * Bare `@controller` and `@controller()` do the same to a class: both
   * store empty metadata and the flag and register it with the `request`
   * scope. Two classes in the same state end in the same state.
   */
  method BareAndCalledAgree(a: PyClass, b: PyClass, registry: ComponentRegistry)
    requires a != b && a.attrs == b.attrs
    modifies a, b, registry
    ensures a.attrs == b.attrs == ControllerAttrs(old(a.attrs), map[])
    ensures registry.registrations
         == old(registry.registrations) + [Registration(a, DefaultScope), Registration(b, DefaultScope)]
  {
    var bare := Controller(Some(a), DefaultScope, map[], registry);
    var called := Controller(None, DefaultScope, map[], registry);
    var c := Decorate(called.d, b, registry);
  }

  // ---------------------------------------------------------------- route decorators

  /** The closure `_create_route_decorator` returns: the `RouteInfo` it will attach. */
  datatype RouteDecorator = RouteDecorator(info: RouteInfo)

  function CreateRouteDecorator(httpMethod: string, path: string, kwargs: map<string, Value>): (d: RouteDecorator)
    ensures d.info.httpMethod == httpMethod && d.info.path == path && d.info.kwargs == kwargs
  {
    RouteDecorator(RouteInfo(httpMethod, path, kwargs))
  }

  function Get(path: string, kwargs: map<string, Value>): (d: RouteDecorator)
    ensures d.info == RouteInfo("GET", path, kwargs)
  {
    CreateRouteDecorator("GET", path, kwargs)
  }

  function Post(path: string, kwargs: map<string, Value>): (d: RouteDecorator)
    ensures d.info == RouteInfo("POST", path, kwargs)
  {
    CreateRouteDecorator("POST", path, kwargs)
  }

  function Put(path: string, kwargs: map<string, Value>): (d: RouteDecorator)
    ensures d.info == RouteInfo("PUT", path, kwargs)
  {
    CreateRouteDecorator("PUT", path, kwargs)
  }

  function Delete(path: string, kwargs: map<string, Value>): (d: RouteDecorator)
    ensures d.info == RouteInfo("DELETE", path, kwargs)
  {
    CreateRouteDecorator("DELETE", path, kwargs)
  }

  function Patch(path: string, kwargs: map<string, Value>): (d: RouteDecorator)
    ensures d.info == RouteInfo("PATCH", path, kwargs)
  {
    CreateRouteDecorator("PATCH", path, kwargs)
  }

  function Websocket(path: string, kwargs: map<string, Value>): (d: RouteDecorator)
    ensures d.info == RouteInfo("WEBSOCKET", path, kwargs)
  {
    CreateRouteDecorator("WEBSOCKET", path, kwargs)
  }

  /** The six verbs tag routes with six different method strings; only `Websocket` tags `WEBSOCKET`. */
  lemma VerbsAreDistinct(path: string, kwargs: map<string, Value>)
    ensures var methods := [Get(path, kwargs).info.httpMethod, Post(path, kwargs).info.httpMethod,
                            Put(path, kwargs).info.httpMethod, Delete(path, kwargs).info.httpMethod,
                            Patch(path, kwargs).info.httpMethod, Websocket(path, kwargs).info.httpMethod];
            (forall i, j :: 0 <= i < j < 6 ==> methods[i] != methods[j])
            && (forall i :: 0 <= i < 5 ==> methods[i] != "WEBSOCKET")
  {
  }

  /** `decorator(func)`: set the route attribute and return the same function. */
  method ApplyRoute(d: RouteDecorator, f: PyFunction) returns (r: PyFunction)
    modifies f
    ensures r == f
    ensures f.attrs == old(f.attrs)[RouteKey := RouteAttr(d.info)]
  {
    f.attrs := f.attrs[RouteKey := RouteAttr(d.info)];
    r := f;
  }

  /**
   * Stacked route decorators (`@outer` above `@inner`): the inner one is
   * applied first, so the outer one's `RouteInfo` is the one left, and no
   * other attribute changes.
   */
  method StackRoutes(outer: RouteDecorator, inner: RouteDecorator, f: PyFunction) returns (r: PyFunction)
    modifies f
    ensures r == f
    ensures f.attrs == old(f.attrs)[RouteKey := RouteAttr(outer.info)]
    ensures f.attrs[RouteKey].info == outer.info
  {
    var g := ApplyRoute(inner, f);
    r := ApplyRoute(outer, g);
  }
}
