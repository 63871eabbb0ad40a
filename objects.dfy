/**
 * The Python objects the library handles, reduced to what it inspects:
 * plain values, the attributes that decorators set on functions and
 * classes, parameter lists as `inspect.signature` reports them, and the
 * pico-ioc container seen from outside.
 */
module Objects {
  import opened Wrappers

  /** A Python value as it flows through controller results and keyword arguments. */
  datatype Value =
    | NoneVal
    | BoolVal(b: bool)
    | IntVal(i: int)
    | StrVal(s: string)
    | ListVal(items: seq<Value>)
    | TupleVal(items: seq<Value>)
    | DictVal(entries: map<string, Value>)
      /** An object with a `model_dump()` method (a Pydantic model); `dump` is what it returns. */
    | ModelVal(dump: map<string, Value>)
      /** An already constructed Starlette `Response`, identified by `id`. */
    | ResponseVal(id: nat)
      /** Any other object, identified by `id`. */
    | ObjectVal(id: nat)

  /** Python truthiness, `bool(v)`. */
  predicate Truthy(v: Value)
  {
    match v
    case NoneVal => false
    case BoolVal(b) => b
    case IntVal(i) => i != 0
    case StrVal(s) => s != ""
    case ListVal(items) => items != []
    case TupleVal(items) => items != []
    case DictVal(entries) => entries != map[]
    case _ => true
  }

  /** The `RouteInfo` dict a route decorator attaches (decorators.py:16-29). */
  datatype RouteInfo = RouteInfo(httpMethod: string, path: string, kwargs: map<string, Value>)

  /** What `setattr` stores under one attribute name. */
  datatype Attr =
    | RouteAttr(info: RouteInfo)
    | MetaAttr(meta: map<string, Value>)
    | FlagAttr(flag: bool)
    | PlainAttr(v: Value)

  /** Truthiness of an attribute value as `if attr:` sees it. */
  predicate AttrTruthy(a: Attr)
  {
    match a
    case RouteAttr(_) => true
    case MetaAttr(meta) => meta != map[]
    case FlagAttr(flag) => flag
    case PlainAttr(v) => Truthy(v)
  }

  /** A parameter annotation: the `WebSocket` class, another annotation, or none. */
  datatype Annotation = WebSocketClass | OtherAnnotation(name: string) | Unannotated

  datatype Param = Param(name: string, annotation: Annotation)

  /** A Python function object: a fixed name and signature, and a mutable attribute dict. */
  class PyFunction {
    const name: string
    const params: seq<Param>
    var attrs: map<string, Attr>

    constructor (name: string, params: seq<Param>)
      ensures this.name == name && this.params == params && attrs == map[]
    {
      this.name := name;
      this.params := params;
      attrs := map[];
    }
  }

  /**
   * A Python class object. `members` are its plain functions in the order
   * `inspect.getmembers(cls, inspect.isfunction)` lists them (by name).
   */
  class PyClass {
    const name: string
    const members: seq<PyFunction>
    var attrs: map<string, Attr>

    constructor (name: string, members: seq<PyFunction>)
      ensures this.name == name && this.members == members && attrs == map[]
    {
      this.name := name;
      this.members := members;
      attrs := map[];
    }
  }

  /** How a call into code outside the model ended: normally, or by raising. */
  datatype Outcome = Completed | Raised

  /** A key of the container locator's metadata dict: a class or some other object. */
  datatype MetaKey = ClassKey(cls: PyClass) | ValueKey(v: Value)

  /**
   * The pico-ioc container as this library observes it: whether it has a
   * `_locator` (and the keys of that locator's metadata dict, in insertion
   * order) and whether it has `_caches`.
   */
  datatype Container = Container(locator: Option<seq<MetaKey>>, hasCaches: bool)
}
