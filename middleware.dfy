/**
 * `PicoScopeMiddleware`: for each ASGI connection, open the pico-ioc scope
 * that belongs to it, call the downstream app inside it, and clean that
 * scope up on every exit path.
 *
 * The container and the app are collaborators; what the middleware does
 * with them is recorded, in order, in `trace`. A context manager's exit and
 * a `finally` block run whether the app returns or raises, so the trace
 * does not depend on the app's outcome; the outcome itself (normal return
 * or exception) is passed back to the caller unchanged.
 */
module Middleware {
  import opened Wrappers
  import opened Objects
  import opened Seqs

  /** Session dict key holding the session scope id (src/pico_fastapi/middleware.py:39). */
  const SessionIdKey := "pico_session_id"

  /** A scope id: a generated UUID (numbered by the supply) or a string found in a session. */
  datatype Token = Uuid(serial: nat) | Text(s: string)

  /** `uuid.uuid4()`, replaced by a counter that never hands out the same id twice. */
  class UuidSupply {
    var next: nat

    constructor (start: nat)
      ensures next == start
    {
      next := start;
    }

    method NewId() returns (t: Token)
      modifies this
      ensures t == Uuid(old(next)) && next == old(next) + 1
    {
      t := Uuid(next);
      next := next + 1;
    }
  }

  /** The session dict Starlette's `SessionMiddleware` puts under `scope["session"]`. */
  class SessionDict {
    var entries: map<string, Token>

    constructor (entries: map<string, Token>)
      ensures this.entries == entries
    {
      this.entries := entries;
    }
  }

  /** An ASGI connection: `scope["type"]`, the session dict if any, and the receive/send channels. */
  datatype Connection = Connection(scopeType: string, session: Option<SessionDict>, receive: nat, send: nat)

  datatype ConnectionKind = Http | WebSocket | OtherKind

  /** The dispatch on `scope["type"]` (src/pico_fastapi/middleware.py:81-88). */
  function Classify(scopeType: string): (k: ConnectionKind)
    ensures k == Http <==> scopeType == "http"
    ensures k == WebSocket <==> scopeType == "websocket"
  {
    if scopeType == "http" then Http
    else if scopeType == "websocket" then WebSocket
    else OtherKind
  }

  datatype ScopeKind = Request | Session | Websocket

  datatype Event =
    | AsCurrentEnter
    | AsCurrentExit
    | ScopeEnter(kind: ScopeKind, id: Token)
    | ScopeExit(kind: ScopeKind, id: Token)
    | AppCall(conn: Connection)
    | Cleanup(kind: ScopeKind, id: Token)

  // ---------------------------------------------------------------- session ids

  /**
   * `_get_or_create_session_id` on the dict's contents: the existing id if
   * there is one, otherwise `newId`, stored under the key. Returns the id
   * and the new contents.
   */
  function LookupOrCreate(entries: map<string, Token>, newId: Token): (r: (Token, map<string, Token>))
    ensures SessionIdKey in r.1 && r.1[SessionIdKey] == r.0
    ensures r.1.Keys == entries.Keys + {SessionIdKey}
    ensures forall k :: k in entries && k != SessionIdKey ==> r.1[k] == entries[k]
    ensures SessionIdKey in entries ==> r.0 == entries[SessionIdKey] && r.1 == entries
    ensures SessionIdKey !in entries ==> r.0 == newId
  {
    if SessionIdKey in entries then (entries[SessionIdKey], entries)
    else (newId, entries[SessionIdKey := newId])
  }

  /** A second lookup returns the same id and changes nothing, whatever id it would have generated. */
  lemma LookupOrCreateIdempotent(entries: map<string, Token>, newId: Token, otherId: Token)
    ensures var (id, after) := LookupOrCreate(entries, newId);
            LookupOrCreate(after, otherId) == (id, after)
  {
  }

  /** `_get_or_create_session_id(scope)`: draws a UUID only when the session has no id yet. */
  method GetOrCreateSessionId(session: SessionDict, uuids: UuidSupply) returns (id: Token)
    modifies session, uuids
    ensures (id, session.entries) == LookupOrCreate(old(session.entries), Uuid(old(uuids.next)))
    ensures uuids.next == old(uuids.next) + (if SessionIdKey in old(session.entries) then 0 else 1)
  {
    if SessionIdKey !in session.entries {
      var newId := uuids.NewId();
      session.entries := session.entries[SessionIdKey := newId];
    }
    id := session.entries[SessionIdKey];
  }

  // ---------------------------------------------------------------- expected traces

  function CleanupEvents(hasCaches: bool, kind: ScopeKind, id: Token): seq<Event>
  {
    if hasCaches then [Cleanup(kind, id)] else []
  }

  /** The session id an HTTP connection with a session uses, given the next UUID serial. */
  function SessionIdFor(entries: map<string, Token>, serial: nat): Token
  {
    LookupOrCreate(entries, Uuid(serial + 1)).0
  }

  function HttpEvents(c: Connection, serial: nat, entries: map<string, Token>, hasCaches: bool): seq<Event>
  {
    var requestId := Uuid(serial);
    var inner :=
      if c.session.Some? then
        var sessionId := SessionIdFor(entries, serial);
        [ScopeEnter(Session, sessionId), AppCall(c), ScopeExit(Session, sessionId)]
      else [AppCall(c)];
    [ScopeEnter(Request, requestId)] + inner + [ScopeExit(Request, requestId)]
    + CleanupEvents(hasCaches, Request, requestId)
  }

  function WebsocketEvents(c: Connection, serial: nat, hasCaches: bool): seq<Event>
  {
    var websocketId := Uuid(serial);
    [ScopeEnter(Websocket, websocketId), AppCall(c), ScopeExit(Websocket, websocketId)]
    + CleanupEvents(hasCaches, Websocket, websocketId)
  }

  /** The scope a connection of this kind opens and cleans up, if any. */
  function OwnScope(k: ConnectionKind): Option<ScopeKind>
  {
    match k
    case Http => Some(Request)
    case WebSocket => Some(Websocket)
    case OtherKind => None
  }

  /**
   * Everything one connection does, given the next UUID serial, the
   * session dict's contents before the call, and whether the container has
   * caches.
   */
  function ConnectionEvents(c: Connection, serial: nat, entries: map<string, Token>, hasCaches: bool)
    : (events: seq<Event>)
    // every connection runs inside `as_current()`
    ensures |events| >= 3 && events[0] == AsCurrentEnter && events[|events| - 1] == AsCurrentExit
  {
    [AsCurrentEnter] + DispatchEvents(c, serial, entries, hasCaches) + [AsCurrentExit]
  }

  /** What a connection does inside `as_current()`, by its type. */
  function DispatchEvents(c: Connection, serial: nat, entries: map<string, Token>, hasCaches: bool): seq<Event>
  {
    match Classify(c.scopeType)
    case Http => HttpEvents(c, serial, entries, hasCaches)
    case WebSocket => WebsocketEvents(c, serial, hasCaches)
    case OtherKind => [AppCall(c)]
  }

  /**
   * The connection's own scope in a trace: entered first, once, and left
   * once, after the app has returned; no other scope of its kind is used.
   */
  ghost predicate OwnScopeAround(events: seq<Event>, own: ScopeKind, id: Token)
  {
    && |events| >= 3
    && events[0] == ScopeEnter(own, id)
    && (forall i :: 0 < i < |events| ==> events[i] != ScopeEnter(own, id))
    && ScopeExit(own, id) in events
    && (forall i, j :: 0 <= i < j < |events| && events[i] == ScopeExit(own, id) ==> events[j] != ScopeExit(own, id))
    && (forall i :: 0 <= i < |events| && (events[i].ScopeEnter? || events[i].ScopeExit?) && events[i].kind == own ==>
                      events[i].id == id)
    && (forall i, j :: 0 <= i < |events| && 0 <= j < |events| && events[i].AppCall? && events[j] == ScopeExit(own, id) ==> i < j)
  }

  /**
   * The app is called exactly once, with the connection as it came in; the
   * scope is cleaned up once, last, when the container has caches, and
   * nothing else is cleaned up.
   */
  ghost predicate CalledOnceCleanedLast(events: seq<Event>, c: Connection, own: ScopeKind, id: Token, hasCaches: bool)
  {
    && AppCall(c) in events
    && (forall i :: 0 <= i < |events| && events[i].AppCall? ==> events[i] == AppCall(c))
    && (forall i, j :: 0 <= i < j < |events| && events[i].AppCall? ==> !events[j].AppCall?)
    && |events| > 0 && (events[|events| - 1] == Cleanup(own, id) <==> hasCaches)
    && (forall i :: 0 <= i < |events| && events[i].Cleanup? ==> i == |events| - 1 && events[i] == Cleanup(own, id))
  }

  /** What a connection's own part of the trace (inside `as_current()`) guarantees. */
  ghost predicate ScopedCall(events: seq<Event>, c: Connection, own: ScopeKind, id: Token, hasCaches: bool)
  {
    OwnScopeAround(events, own, id) && CalledOnceCleanedLast(events, c, own, id, hasCaches)
  }

  lemma HttpEventsScoped(c: Connection, serial: nat, entries: map<string, Token>, hasCaches: bool)
    ensures ScopedCall(HttpEvents(c, serial, entries, hasCaches), c, Request, Uuid(serial), hasCaches)
  {
    var id := Uuid(serial);
    if c.session.Some? {
      var sessionId := SessionIdFor(entries, serial);
      assert HttpEvents(c, serial, entries, hasCaches)
          == [ScopeEnter(Request, id), ScopeEnter(Session, sessionId), AppCall(c),
              ScopeExit(Session, sessionId), ScopeExit(Request, id)]
             + CleanupEvents(hasCaches, Request, id);
      SessionEventsScoped(c, id, sessionId, hasCaches);
    } else {
      assert HttpEvents(c, serial, entries, hasCaches)
          == [ScopeEnter(Request, id), AppCall(c), ScopeExit(Request, id)] + CleanupEvents(hasCaches, Request, id);
      PlainEventsScoped(c, Request, id, hasCaches);
    }
  }

  lemma PlainEventsScoped(c: Connection, own: ScopeKind, id: Token, hasCaches: bool)
    ensures ScopedCall([ScopeEnter(own, id), AppCall(c), ScopeExit(own, id)] + CleanupEvents(hasCaches, own, id),
                       c, own, id, hasCaches)
  {
    if hasCaches {
      assert [ScopeEnter(own, id), AppCall(c), ScopeExit(own, id)] + CleanupEvents(hasCaches, own, id)
          == [ScopeEnter(own, id), AppCall(c), ScopeExit(own, id), Cleanup(own, id)];
    } else {
      assert [ScopeEnter(own, id), AppCall(c), ScopeExit(own, id)] + CleanupEvents(hasCaches, own, id)
          == [ScopeEnter(own, id), AppCall(c), ScopeExit(own, id)];
    }
  }

  lemma SessionEventsScoped(c: Connection, id: Token, sessionId: Token, hasCaches: bool)
    ensures ScopedCall([ScopeEnter(Request, id), ScopeEnter(Session, sessionId), AppCall(c),
                        ScopeExit(Session, sessionId), ScopeExit(Request, id)]
                       + CleanupEvents(hasCaches, Request, id), c, Request, id, hasCaches)
  {
    var body := [ScopeEnter(Request, id), ScopeEnter(Session, sessionId), AppCall(c),
                 ScopeExit(Session, sessionId), ScopeExit(Request, id)];
    if hasCaches {
      assert body + CleanupEvents(hasCaches, Request, id)
          == [ScopeEnter(Request, id), ScopeEnter(Session, sessionId), AppCall(c),
              ScopeExit(Session, sessionId), ScopeExit(Request, id), Cleanup(Request, id)];
    } else {
      assert body + CleanupEvents(hasCaches, Request, id) == body;
    }
  }

  lemma WebsocketEventsScoped(c: Connection, serial: nat, hasCaches: bool)
    ensures ScopedCall(WebsocketEvents(c, serial, hasCaches), c, Websocket, Uuid(serial), hasCaches)
  {
    PlainEventsScoped(c, Websocket, Uuid(serial), hasCaches);
  }

  /**
   * A connection's trace: `as_current()` around everything; an HTTP or
   * websocket connection enters its own scope first, under the UUID drawn
   * for it, calls the app once, and cleans that scope (and no other) up
   * once after the app when the container has caches; any other connection
   * type goes straight to the app.
   */
  lemma ConnectionEventsShape(c: Connection, serial: nat, entries: map<string, Token>, hasCaches: bool)
    ensures var events := ConnectionEvents(c, serial, entries, hasCaches);
            var inner := events[1..|events| - 1];
            && events == [AsCurrentEnter] + inner + [AsCurrentExit]
            && (OwnScope(Classify(c.scopeType)).Some? ==>
                  ScopedCall(inner, c, OwnScope(Classify(c.scopeType)).value, Uuid(serial), hasCaches))
            && (Classify(c.scopeType) == OtherKind ==> inner == [AppCall(c)])
  {
    var events := ConnectionEvents(c, serial, entries, hasCaches);
    match Classify(c.scopeType)
    case Http =>
      HttpEventsScoped(c, serial, entries, hasCaches);
      assert events[1..|events| - 1] == HttpEvents(c, serial, entries, hasCaches);
    case WebSocket =>
      WebsocketEventsScoped(c, serial, hasCaches);
      assert events[1..|events| - 1] == WebsocketEvents(c, serial, hasCaches);
    case OtherKind =>
  }

  /**
   * The session scope is entered exactly when the connection is HTTP and
   * has a session, with the id the session held (or the second UUID drawn),
   * and it is nested inside the request scope.
   */
  lemma SessionScopeNested(c: Connection, serial: nat, entries: map<string, Token>, hasCaches: bool)
    ensures var events := ConnectionEvents(c, serial, entries, hasCaches);
            var sessionId := if SessionIdKey in entries then entries[SessionIdKey] else Uuid(serial + 1);
            && ((exists id :: ScopeEnter(Session, id) in events) <==> Classify(c.scopeType) == Http && c.session.Some?)
            && (Classify(c.scopeType) == Http && c.session.Some? ==>
                  events[..6] == [AsCurrentEnter, ScopeEnter(Request, Uuid(serial)), ScopeEnter(Session, sessionId),
                                  AppCall(c), ScopeExit(Session, sessionId), ScopeExit(Request, Uuid(serial))])
  {
    var events := ConnectionEvents(c, serial, entries, hasCaches);
    if Classify(c.scopeType) == Http && c.session.Some? {
      var sessionId := SessionIdFor(entries, serial);
      assert ScopeEnter(Session, sessionId) == events[2];
    } else {
      forall id ensures ScopeEnter(Session, id) !in events {
        match Classify(c.scopeType)
        case Http =>
          assert events == [AsCurrentEnter, ScopeEnter(Request, Uuid(serial)), AppCall(c), ScopeExit(Request, Uuid(serial))]
                           + CleanupEvents(hasCaches, Request, Uuid(serial)) + [AsCurrentExit];
        case WebSocket =>
        case OtherKind =>
      }
    }
  }

  /**
   * Two HTTP connections handled one after the other by the same middleware
   * enter request scopes with different ids: the second starts from the
   * serial the first one left behind.
   */
  lemma ConsecutiveRequestIdsDistinct(first: Connection, second: Connection, serial: nat,
                                      entries1: map<string, Token>, entries2: map<string, Token>, hasCaches: bool)
    requires Classify(first.scopeType) == Http && Classify(second.scopeType) == Http
    ensures var a := ConnectionEvents(first, serial, entries1, hasCaches);
            var b := ConnectionEvents(second, serial + ScopeMiddleware.IdsDrawn(first, entries1), entries2, hasCaches);
            && a[1] == ScopeEnter(Request, Uuid(serial))
            && b[1].ScopeEnter? && b[1].kind == Request
            && a[1].id != b[1].id
  {
    var next := serial + ScopeMiddleware.IdsDrawn(first, entries1);
    assert next > serial;
    ConnectionEventsShape(first, serial, entries1, hasCaches);
    ConnectionEventsShape(second, next, entries2, hasCaches);
  }

  // ---------------------------------------------------------------- the middleware

  class ScopeMiddleware {
    /** The downstream ASGI app, reduced to how its call on a connection ends. */
    const app: Connection -> Outcome
    const container: Container
    const uuids: UuidSupply
    var trace: seq<Event>

    constructor (app: Connection -> Outcome, container: Container, uuids: UuidSupply)
      ensures this.app == app && this.container == container && this.uuids == uuids
      ensures trace == []
    {
      this.app := app;
      this.container := container;
      this.uuids := uuids;
      trace := [];
    }

    /** The objects a call on `c` may change: its session dict, if it has one. */
    static function SessionOf(c: Connection): set<object>
    {
      if c.session.Some? then {c.session.value} else {}
    }

    static function EntriesOf(c: Connection): map<string, Token>
      reads SessionOf(c)
    {
      if c.session.Some? then c.session.value.entries else map[]
    }

    /** How many UUIDs a call on `c` draws. */
    static function IdsDrawn(c: Connection, entries: map<string, Token>): nat
    {
      match Classify(c.scopeType)
      case Http => if c.session.Some? && SessionIdKey !in entries then 2 else 1
      case WebSocket => 1
      case OtherKind => 0
    }

    method CallApp(c: Connection) returns (outcome: Outcome)
      modifies this`trace
      ensures outcome == app(c)
      ensures trace == old(trace) + [AppCall(c)]
    {
      trace := trace + [AppCall(c)];
      outcome := app(c);
    }

    /** `_cleanup_scope`: a no-op unless the container has `_caches`. */
    method CleanupScope(kind: ScopeKind, id: Token)
      modifies this`trace
      ensures trace == old(trace) + CleanupEvents(container.hasCaches, kind, id)
    {
      if container.hasCaches {
        trace := trace + [Cleanup(kind, id)];
      }
    }

    /** `__call__(scope, receive, send)`. */
    method Call(c: Connection) returns (outcome: Outcome)
      modifies this`trace, uuids, SessionOf(c)
      ensures outcome == app(c)
      ensures trace == old(trace) + ConnectionEvents(c, old(uuids.next), old(EntriesOf(c)), container.hasCaches)
      ensures uuids.next == old(uuids.next) + IdsDrawn(c, old(EntriesOf(c)))
      ensures Classify(c.scopeType) == Http && c.session.Some? ==>
                c.session.value.entries == LookupOrCreate(old(EntriesOf(c)), Uuid(old(uuids.next) + 1)).1
      ensures !(Classify(c.scopeType) == Http && c.session.Some?) ==> EntriesOf(c) == old(EntriesOf(c))
    {
      ghost var dispatched := DispatchEvents(c, uuids.next, EntriesOf(c), container.hasCaches);
      trace := trace + [AsCurrentEnter];
      ghost var entered := trace;
      var k := Classify(c.scopeType);
      if k == Http {
        outcome := HandleHttp(c);
      } else if k == WebSocket {
        outcome := HandleWebsocket(c);
      } else {
        outcome := CallApp(c);
      }
      assert trace == entered + dispatched;
      trace := trace + [AsCurrentExit];
      AppendAssociative(old(trace), [AsCurrentEnter], dispatched);
      AppendAssociative(old(trace), [AsCurrentEnter] + dispatched, [AsCurrentExit]);
    }

    /** `_handle_http`: a request scope, a nested session scope when there is a session, cleanup in `finally`. */
    method HandleHttp(c: Connection) returns (outcome: Outcome)
      requires Classify(c.scopeType) == Http
      modifies this`trace, uuids, SessionOf(c)
      ensures outcome == app(c)
      ensures trace == old(trace) + HttpEvents(c, old(uuids.next), old(EntriesOf(c)), container.hasCaches)
      ensures uuids.next == old(uuids.next) + IdsDrawn(c, old(EntriesOf(c)))
      ensures c.session.Some? ==>
                c.session.value.entries == LookupOrCreate(old(EntriesOf(c)), Uuid(old(uuids.next) + 1)).1
    {
      ghost var start := trace;
      ghost var entries := EntriesOf(c);
      var requestId := uuids.NewId();
      // try:
      trace := trace + [ScopeEnter(Request, requestId)];
      ghost var entered := trace;
      ghost var inner;
      if c.session.Some? {
        var sessionId := GetOrCreateSessionId(c.session.value, uuids);
        trace := trace + [ScopeEnter(Session, sessionId)];
        outcome := CallApp(c);
        trace := trace + [ScopeExit(Session, sessionId)];
        inner := [ScopeEnter(Session, sessionId), AppCall(c), ScopeExit(Session, sessionId)];
        assert sessionId == SessionIdFor(entries, requestId.serial);
      } else {
        outcome := CallApp(c);
        inner := [AppCall(c)];
      }
      assert trace == entered + inner;
      trace := trace + [ScopeExit(Request, requestId)];
      // finally:
      CleanupScope(Request, requestId);
      ghost var head := [ScopeEnter(Request, requestId)];
      ghost var cleanup := CleanupEvents(container.hasCaches, Request, requestId);
      AppendAssociative(start, head, inner);
      AppendAssociative(start, head + inner, [ScopeExit(Request, requestId)]);
      AppendAssociative(start, head + inner + [ScopeExit(Request, requestId)], cleanup);
    }

    /** `_handle_websocket`: one websocket scope around the app call, cleanup in `finally`. */
    method HandleWebsocket(c: Connection) returns (outcome: Outcome)
      modifies this`trace, uuids
      ensures outcome == app(c)
      ensures trace == old(trace) + WebsocketEvents(c, old(uuids.next), container.hasCaches)
      ensures uuids.next == old(uuids.next) + 1
    {
      var websocketId := uuids.NewId();
      // try:
      trace := trace + [ScopeEnter(Websocket, websocketId)];
      outcome := CallApp(c);
      trace := trace + [ScopeExit(Websocket, websocketId)];
      // finally:
      CleanupScope(Websocket, websocketId);
    }
  }
}
