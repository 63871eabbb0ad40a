/**
 * Startup wiring: discovering `@controller` classes in the container,
 * registering their routers, applying configurers around the scope
 * middleware (`PicoLifespanConfigurer.setup_fastapi`), and the lifespan
 * manager that releases the container when the application stops.
 */
module Factory {
  import opened Wrappers
  import opened Objects
  import opened Seqs
  import opened Decorators
  import opened Configurers
  import opened Routing
  import opened Application

  // ---------------------------------------------------------------- controller discovery

  /** `getattr(cls, IS_CONTROLLER_ATTR, False)` is truthy. */
  predicate IsController(cls: PyClass)
    reads cls
  {
    IsControllerKey in cls.attrs && AttrTruthy(cls.attrs[IsControllerKey])
  }

  /** The keys that are classes (`isinstance(key, type)`), in dict order. */
  function KeyClasses(keys: seq<MetaKey>): (classes: seq<PyClass>)
    ensures forall c :: c in classes ==> ClassKey(c) in keys
    ensures forall k :: k in keys && k.ClassKey? ==> k.cls in classes
  {
    if keys == [] then []
    else
      var init, last := keys[..|keys| - 1], keys[|keys| - 1];
      assert keys == init + [last];
      KeyClasses(init) + if last.ClassKey? then [last.cls] else []
  }

  /** The classes and their member functions: what discovery and router building read. */
  function ObjectsOf(classes: seq<PyClass>): set<object>
  {
    (set c | c in classes :: c as object) + (set c, f | c in classes && f in c.members :: f as object)
  }

  /** The classes among `classes` that carry the controller flag, in order. */
  function ControllerClasses(classes: seq<PyClass>): (found: seq<PyClass>)
    reads classes
    ensures forall c :: c in found ==> c in classes
    ensures |found| <= |classes|
  {
    if classes == [] then []
    else
      var init, last := classes[..|classes| - 1], classes[|classes| - 1];
      assert classes == init + [last];
      ControllerClasses(init) + if IsController(last) then [last] else []
  }

  lemma {:induction false} ControllerClassesExact(classes: seq<PyClass>)
    ensures forall c :: c in ControllerClasses(classes) ==> IsController(c)
    ensures forall c :: c in classes && IsController(c) ==> c in ControllerClasses(classes)
  {
    if classes != [] {
      var init, last := classes[..|classes| - 1], classes[|classes| - 1];
      assert classes == init + [last];
      ControllerClassesExact(init);
    }
  }

  /** The objects controller discovery and router building look at. */
  function Footprint(container: Container): set<object>
  {
    if container.locator.None? then {} else ObjectsOf(KeyClasses(container.locator.value))
  }

  /** `_find_controller_classes`. */
  function FindControllerClasses(container: Container): (found: seq<PyClass>)
    reads Footprint(container)
    ensures ObjectsOf(found) <= Footprint(container)
  {
    match container.locator
    case None => []
    case Some(keys) =>
      var classes := KeyClasses(keys);
      assert forall c :: c in classes ==> c in ObjectsOf(classes);
      ControllerClasses(classes)
  }

  /**
   * Discovery finds exactly the metadata keys that are classes carrying the
   * controller flag, and nothing when the container has no locator.
   */
  lemma FindControllerClassesExact(container: Container)
    ensures container.locator.None? ==> FindControllerClasses(container) == []
    ensures container.locator.Some? ==>
              forall c :: c in FindControllerClasses(container) ==>
                            ClassKey(c) in container.locator.value && IsController(c)
    ensures container.locator.Some? ==>
              forall k :: k in container.locator.value && k.ClassKey? && IsController(k.cls) ==>
                            k.cls in FindControllerClasses(container)
  {
    if container.locator.Some? {
      ControllerClassesExact(KeyClasses(container.locator.value));
    }
  }

  /** Every controller's router can be built: registering raises on none of them. */
  predicate AllRoutable(classes: seq<PyClass>)
    reads ObjectsOf(classes)
  {
    forall i :: 0 <= i < |classes| ==>
      assert classes[i] in classes && forall f :: f in classes[i].members ==> f in ObjectsOf(classes);
      RouterFor(classes[i]).Some?
  }

  /** What `create_router_for_controller` gives for each class, in order. */
  function RoutersOf(classes: seq<PyClass>): (routers: seq<Option<Router>>)
    reads ObjectsOf(classes)
    ensures |routers| == |classes|
    ensures forall i :: 0 <= i < |classes| ==> routers[i] == RouterFor(classes[i])
  {
    seq(|classes|, i requires 0 <= i < |classes| reads ObjectsOf(classes) =>
      assert classes[i] in classes && forall f :: f in classes[i].members ==> f in ObjectsOf(classes);
      RouterFor(classes[i]))
  }

  /** `app.include_router(router)` for each router built, up to the first build that raised. */
  function Included(routers: seq<Option<Router>>): (events: seq<AppEvent>)
    ensures |events| <= |routers|
  {
    if routers == [] || routers[0].None? then []
    else [RouterIncluded(routers[0].value)] + Included(routers[1..])
  }

  /** The routers included are exactly those before the first build that raised. */
  lemma {:induction false} IncludedAt(routers: seq<Option<Router>>)
    ensures var events := Included(routers);
            && (|events| == |routers| <==> forall i :: 0 <= i < |routers| ==> routers[i].Some?)
            && (|events| < |routers| ==> routers[|events|].None?)
            && (forall i :: 0 <= i < |events| ==> routers[i].Some? && events[i] == RouterIncluded(routers[i].value))
  {
    if routers != [] && routers[0].Some? {
      var rest := Included(routers[1..]);
      IncludedAt(routers[1..]);
      assert forall i :: 0 < i < |routers| ==> routers[i] == routers[1..][i - 1];
      assert Included(routers) == [RouterIncluded(routers[0].value)] + rest;
    }
  }

  /**
   * `app.include_router(router)` for each controller's router, in order, up
   * to the first controller whose router cannot be built.
   */
  function RouterEvents(classes: seq<PyClass>): (events: seq<AppEvent>)
    reads ObjectsOf(classes)
    ensures |events| <= |classes|
  {
    Included(RoutersOf(classes))
  }

  /**
   * The routers included are those of the controllers before the first one
   * that cannot be routed, in discovery order; all of them when there is
   * no such controller.
   */
  lemma RouterEventsAt(classes: seq<PyClass>)
    ensures var events := RouterEvents(classes);
            && (|events| == |classes| <==> AllRoutable(classes))
            && (|events| < |classes| ==> RouterFor(classes[|events|]).None?)
            && (forall i :: 0 <= i < |events| ==>
                  RouterFor(classes[i]).Some? && events[i] == RouterIncluded(RouterFor(classes[i]).value))
  {
    IncludedAt(RoutersOf(classes));
  }

  /**
   * How `register_controllers` ends: normally, with `NoControllersFoundError`,
   * or with the exception a controller's route raised while being built.
   */
  datatype Status = Registered | NoControllersFound | RouteRejected

  /** `register_controllers(app, container)`. */
  method RegisterControllers(app: FastApiApp, container: Container) returns (status: Status)
    modifies app
    ensures status == NoControllersFound <==> old(FindControllerClasses(container)) == []
    ensures status == RouteRejected <==>
              old(FindControllerClasses(container)) != [] && !old(AllRoutable(FindControllerClasses(container)))
    // the routers included before the raise stay included
    ensures app.events == old(app.events + RouterEvents(FindControllerClasses(container)))
  {
    var classes := FindControllerClasses(container);
    if classes == [] {
      return NoControllersFound;
    }
    var included := IncludeRouters(app, classes);
    status := if included then Registered else RouteRejected;
  }

  /**
   * The loop of `register_controllers`: builds each class's router and
   * includes it, stopping at the first class whose router raises.
   */
  method IncludeRouters(app: FastApiApp, classes: seq<PyClass>) returns (included: bool)
    modifies app
    ensures included <==> old(AllRoutable(classes))
    ensures app.events == old(app.events + RouterEvents(classes))
  {
    ghost var before := app.events;
    ghost var events := RouterEvents(classes);
    ghost var routers := RoutersOf(classes);
    RoutersBeforeRejection(classes);
    for i := 0 to |classes|
      invariant i <= |events|
      invariant app.events == before + events[..i]
    {
      var router := CreateRouterForController(classes[i]);
      assert router == routers[i];
      RegistrationStep(events, routers, i);
      if router.None? {
        return false;
      }
      app.IncludeRouter(router.value);
      AppendAssociative(before, events[..i], [RouterIncluded(router.value)]);
    }
    assert events[..|classes|] == events;
    included := true;
  }

  /** `RouterEventsAt` in terms of the routers built, for the registration loop. */
  lemma RoutersBeforeRejection(classes: seq<PyClass>)
    ensures var events, routers := RouterEvents(classes), RoutersOf(classes);
            && (|events| == |classes| <==> AllRoutable(classes))
            && (|events| < |classes| ==> routers[|events|].None?)
            && (forall i :: 0 <= i < |events| ==> routers[i].Some? && events[i] == RouterIncluded(routers[i].value))
  {
    IncludedAt(RoutersOf(classes));
  }

  /** One turn of the registration loop, on the routers built and the events expected. */
  lemma RegistrationStep(events: seq<AppEvent>, routers: seq<Option<Router>>, i: nat)
    requires i <= |events| <= |routers| && i < |routers|
    requires |events| < |routers| ==> routers[|events|].None?
    requires forall k :: 0 <= k < |events| ==> routers[k].Some? && events[k] == RouterIncluded(routers[k].value)
    ensures routers[i].None? ==> events[..i] == events
    ensures routers[i].Some? ==> events[..i + 1] == events[..i] + [RouterIncluded(routers[i].value)]
  {
    if routers[i].None? {
      assert i == |events|;
    } else {
      assert events[..i + 1] == events[..i] + [events[i]];
    }
  }

  /** Router building reads only objects that already exist. */
  lemma ClassesAllocated(classes: seq<PyClass>)
    ensures forall i :: 0 <= i < |classes| ==> allocated(classes[i])
    ensures forall c :: c in classes ==> forall f :: f in c.members ==> allocated(f)
  {
  }

  // ---------------------------------------------------------------- configurers

  /** `configure_app(app)` for each configurer, in order. */
  function ConfigurationEvents(configurers: seq<Candidate>): (events: seq<AppEvent>)
    ensures |events| == |configurers|
  {
    if configurers == [] then []
    else ConfigurationEvents(configurers[..|configurers| - 1]) + [Configured(configurers[|configurers| - 1])]
  }

  /** Every configurer is applied, once, in its place. */
  lemma {:induction false} ConfigurationEventsAt(configurers: seq<Candidate>, i: nat)
    requires i < |configurers|
    ensures ConfigurationEvents(configurers)[i] == Configured(configurers[i])
  {
    if i < |configurers| - 1 {
      ConfigurationEventsAt(configurers[..|configurers| - 1], i);
    }
  }

  /** The configurers a sequence of app events applies, in order. */
  function Applied(events: seq<AppEvent>): (applied: seq<Candidate>)
    ensures |applied| <= |events|
  {
    if events == [] then []
    else
      var init, last := events[..|events| - 1], events[|events| - 1];
      assert events == init + [last];
      Applied(init) + if last.Configured? then [last.configurer] else []
  }

  lemma {:induction false} AppliedAppend(a: seq<AppEvent>, b: seq<AppEvent>)
    ensures Applied(a + b) == Applied(a) + Applied(b)
  {
    if b != [] {
      var init, last := b[..|b| - 1], b[|b| - 1];
      assert (a + b)[..|a + b| - 1] == a + init;
      assert (a + b)[|a + b| - 1] == last;
      var t := if last.Configured? then [last.configurer] else [];
      AppliedAppend(a, init);
      AppendAssociative(Applied(a), Applied(init), t);
    } else {
      assert a + b == a;
    }
  }

  /** Events that are not `Configured` apply nothing. */
  lemma {:induction false} AppliedNone(events: seq<AppEvent>)
    requires forall e :: e in events ==> !e.Configured?
    ensures Applied(events) == []
  {
    if events != [] {
      AppliedNone(events[..|events| - 1]);
    }
  }

  /** Applying configurers applies exactly them, in order. */
  lemma {:induction false} AppliedConfigurationEvents(configurers: seq<Candidate>)
    ensures Applied(ConfigurationEvents(configurers)) == configurers
  {
    if configurers != [] {
      var init := configurers[..|configurers| - 1];
      AppliedConfigurationEvents(init);
      AppliedAppend(ConfigurationEvents(init), [Configured(configurers[|configurers| - 1])]);
      assert [Configured(configurers[|configurers| - 1])][..0] == [];
    }
  }

  /** `_apply_configurers(app, configurers)`. */
  method ApplyConfigurers(app: FastApiApp, configurers: seq<Candidate>)
    modifies app
    ensures app.events == old(app.events) + ConfigurationEvents(configurers)
  {
    for i := 0 to |configurers|
      invariant app.events == old(app.events) + ConfigurationEvents(configurers[..i])
    {
      assert configurers[..i + 1][..i] == configurers[..i];
      app.Configure(configurers[i]);
    }
    assert configurers[..|configurers|] == configurers;
  }

  // ---------------------------------------------------------------- setup_fastapi

  /** The inner and outer groups `setup_fastapi` applies. */
  function Groups(configurers: seq<Candidate>): (seq<Candidate>, seq<Candidate>)
  {
    SplitByPriority(Filter(configurers, IsValid))
  }

  /** The configurers applied around the scope middleware, in order. */
  function ConfigurationPhase(container: Container, configurers: seq<Candidate>): seq<AppEvent>
  {
    var groups := Groups(configurers);
    ConfigurationEvents(groups.0) + [ScopeMiddlewareAdded(container)] + ConfigurationEvents(groups.1)
  }

  /**
   * The routers of the discovered controllers, then the lifespan; nothing
   * when none was found, and no lifespan when building a route raised.
   */
  function RegistrationPhase(container: Container, classes: seq<PyClass>): seq<AppEvent>
    reads ObjectsOf(classes)
  {
    RouterEvents(classes) + if classes != [] && AllRoutable(classes) then [LifespanAttached(container)] else []
  }

  /** Everything `setup_fastapi` does to the app, in order. */
  function SetupEvents(container: Container, configurers: seq<Candidate>): seq<AppEvent>
    reads Footprint(container)
  {
    ConfigurationPhase(container, configurers) + RegistrationPhase(container, FindControllerClasses(container))
  }

  /**
   * The first half of `setup_fastapi`: validate, split, then the inner group,
   * the scope middleware and the outer group.
   */
  method ConfigureAroundScope(app: FastApiApp, container: Container, configurers: seq<Candidate>)
    returns (warnings: seq<Candidate>)
    modifies app
    ensures app.events == old(app.events) + ConfigurationPhase(container, configurers)
    ensures warnings == Filter(configurers, Not(IsValid))
    // configuring leaves what discovery and router building read as it was
    ensures FindControllerClasses(container) == old(FindControllerClasses(container))
    ensures RouterEvents(FindControllerClasses(container)) == old(RouterEvents(FindControllerClasses(container)))
    ensures AllRoutable(FindControllerClasses(container)) == old(AllRoutable(FindControllerClasses(container)))
  {
    FootprintAllocated(container);
    var valid;
    valid, warnings := ValidateConfigurers(configurers);
    var (inner, outer) := SplitByPriority(valid);
    assert Groups(configurers) == (inner, outer);
    ApplyAroundScope(app, container, inner, outer);
    DiscoveryFramed(container);
  }

  /** The inner group, the scope middleware, the outer group. */
  method ApplyAroundScope(app: FastApiApp, container: Container, inner: seq<Candidate>, outer: seq<Candidate>)
    modifies app
    ensures app.events
         == old(app.events) + (ConfigurationEvents(inner) + [ScopeMiddlewareAdded(container)] + ConfigurationEvents(outer))
  {
    ghost var start := app.events;
    ApplyConfigurers(app, inner);
    app.AddScopeMiddleware(container);
    ApplyConfigurers(app, outer);
    AppendAssociative(start, ConfigurationEvents(inner), [ScopeMiddlewareAdded(container)]);
    AppendAssociative(start, ConfigurationEvents(inner) + [ScopeMiddlewareAdded(container)], ConfigurationEvents(outer));
  }

  /** What discovery reads is already allocated. */
  lemma FootprintAllocated(container: Container)
    ensures forall o :: o in Footprint(container) ==> allocated(o)
  {
  }

  /** Discovery and router building depend on nothing outside the footprint. */
  twostate lemma DiscoveryFramed(container: Container)
    requires unchanged(Footprint(container))
    ensures FindControllerClasses(container) == old(FindControllerClasses(container))
    ensures RouterEvents(FindControllerClasses(container)) == old(RouterEvents(FindControllerClasses(container)))
    ensures AllRoutable(FindControllerClasses(container)) == old(AllRoutable(FindControllerClasses(container)))
  {
  }

  /** `PicoLifespanConfigurer.setup_fastapi(container, app, configurers)`. */
  method SetupFastApi(container: Container, app: FastApiApp, configurers: seq<Candidate>)
    returns (status: Status, warnings: seq<Candidate>)
    modifies app
    ensures app.events == old(app.events + SetupEvents(container, configurers))
    ensures status == NoControllersFound <==> old(FindControllerClasses(container)) == []
    ensures status == RouteRejected <==>
              old(FindControllerClasses(container)) != [] && !old(AllRoutable(FindControllerClasses(container)))
    ensures warnings == Filter(configurers, Not(IsValid))
  {
    ghost var classes := FindControllerClasses(container);
    ghost var routers := RouterEvents(classes);
    ghost var registration := RegistrationPhase(container, classes);
    ghost var lifespan := if classes != [] && AllRoutable(classes) then [LifespanAttached(container)] else [];
    assert registration == routers + lifespan;
    ghost var start := app.events;
    warnings := ConfigureAroundScope(app, container, configurers);
    ghost var configured := app.events;
    status := RegisterControllers(app, container);
    assert app.events == configured + routers;
    if status == Registered {
      app.AttachLifespan(container);
    }
    assert app.events == configured + routers + lifespan;
    AppendAssociative(configured, routers, lifespan);
    AppendAssociative(start, ConfigurationPhase(container, configurers), registration);
  }

  /** Where everything sits in the configuration phase. */
  lemma ConfigurationPhaseLayout(container: Container, configurers: seq<Candidate>)
    ensures var (inner, outer) := Groups(configurers);
            var events := ConfigurationPhase(container, configurers);
            && |events| == |inner| + 1 + |outer|
            && events[|inner|] == ScopeMiddlewareAdded(container)
            && (forall i :: 0 <= i < |inner| ==> events[i] == Configured(inner[i]))
            && (forall i :: 0 <= i < |outer| ==> events[|inner| + 1 + i] == Configured(outer[i]))
  {
    var (inner, outer) := Groups(configurers);
    forall i | 0 <= i < |inner| ensures ConfigurationPhase(container, configurers)[i] == Configured(inner[i]) {
      ConfigurationEventsAt(inner, i);
    }
    forall i | 0 <= i < |outer|
      ensures ConfigurationPhase(container, configurers)[|inner| + 1 + i] == Configured(outer[i])
    {
      ConfigurationEventsAt(outer, i);
    }
  }

  /** Registration applies no configurer and adds no middleware. */
  lemma {:induction false} RegistrationPhaseInert(container: Container, classes: seq<PyClass>)
    ensures forall e :: e in RegistrationPhase(container, classes) ==> e.RouterIncluded? || e.LifespanAttached?
  {
    var routers := RouterEvents(classes);
    RouterEventsAt(classes);
    forall e | e in RegistrationPhase(container, classes) ensures e.RouterIncluded? || e.LifespanAttached? {
      if e in routers {
        var i :| 0 <= i < |routers| && routers[i] == e;
      }
    }
  }

  /**
   * The configuration phase is a sandwich: configurers with priority >= 0,
   * then the scope middleware, then configurers with priority < 0.
   */
  lemma ConfigurationPhaseSandwich(container: Container, configurers: seq<Candidate>)
    ensures var m := |Groups(configurers).0|;
            var events := ConfigurationPhase(container, configurers);
            && m < |events| && events[m] == ScopeMiddlewareAdded(container)
            && (forall i :: 0 <= i < |events| && i != m ==>
                  events[i].Configured? && (Key(events[i].configurer) >= 0 <==> i < m))
  {
    var (inner, outer) := Groups(configurers);
    var events := ConfigurationPhase(container, configurers);
    ConfigurationPhaseLayout(container, configurers);
    forall i | 0 <= i < |events| && i != |inner|
      ensures events[i].Configured? && (Key(events[i].configurer) >= 0 <==> i < |inner|)
    {
      if i < |inner| {
        assert events[i] == Configured(inner[i]);
        assert inner[i] in inner;
      } else {
        assert events[i] == Configured(outer[i - |inner| - 1]);
        assert outer[i - |inner| - 1] in outer;
      }
    }
  }

  /**
   * The sandwich `setup_fastapi` builds: the scope middleware is added exactly
   * once, after every configurer with priority >= 0 and before every one with
   * priority < 0.
   */
  lemma SetupSandwich(container: Container, configurers: seq<Candidate>)
    ensures var events := SetupEvents(container, configurers);
            var m := |Groups(configurers).0|;
            && m < |events| && events[m] == ScopeMiddlewareAdded(container)
            && (forall i :: 0 <= i < |events| && events[i].ScopeMiddlewareAdded? ==> i == m)
            && (forall i :: 0 <= i < m ==> events[i].Configured? && Key(events[i].configurer) >= 0)
            && (forall i :: m < i < |events| && events[i].Configured? ==> Key(events[i].configurer) < 0)
  {
    var registration := RegistrationPhase(container, FindControllerClasses(container));
    RegistrationPhaseInert(container, FindControllerClasses(container));
    ConfigurationPhaseSandwich(container, configurers);
    SandwichKept(ConfigurationPhase(container, configurers), registration, |Groups(configurers).0|, container);
  }

  /** Appending registration events keeps the sandwich. */
  lemma SandwichKept(phase: seq<AppEvent>, registration: seq<AppEvent>, m: nat, container: Container)
    requires m < |phase| && phase[m] == ScopeMiddlewareAdded(container)
    requires forall i :: 0 <= i < |phase| && i != m ==>
               phase[i].Configured? && (Key(phase[i].configurer) >= 0 <==> i < m)
    requires forall e :: e in registration ==> e.RouterIncluded? || e.LifespanAttached?
    ensures var events := phase + registration;
            && m < |events| && events[m] == ScopeMiddlewareAdded(container)
            && (forall i :: 0 <= i < |events| && events[i].ScopeMiddlewareAdded? ==> i == m)
            && (forall i :: 0 <= i < m ==> events[i].Configured? && Key(events[i].configurer) >= 0)
            && (forall i :: m < i < |events| && events[i].Configured? ==> Key(events[i].configurer) < 0)
  {
    var events := phase + registration;
    forall i | |phase| <= i < |events| ensures events[i].RouterIncluded? || events[i].LifespanAttached? {
      assert events[i] == registration[i - |phase|];
    }
  }

  /** The configuration phase applies the inner group then the outer group. */
  lemma AppliedConfigurationPhase(container: Container, configurers: seq<Candidate>)
    ensures Applied(ConfigurationPhase(container, configurers)) == Groups(configurers).0 + Groups(configurers).1
  {
    var (inner, outer) := Groups(configurers);
    AppliedAroundScope(container, inner, outer);
  }

  lemma AppliedAroundScope(container: Container, inner: seq<Candidate>, outer: seq<Candidate>)
    ensures Applied(ConfigurationEvents(inner) + [ScopeMiddlewareAdded(container)] + ConfigurationEvents(outer))
         == inner + outer
  {
    var scope := [ScopeMiddlewareAdded(container)];
    var front := ConfigurationEvents(inner) + scope;
    AppliedAppend(front, ConfigurationEvents(outer));
    AppliedAppend(ConfigurationEvents(inner), scope);
    AppliedConfigurationEvents(inner);
    AppliedConfigurationEvents(outer);
    AppliedNone(scope);
    assert Applied(front) == inner + [] == inner;
  }

  /**
   * Which configurers `setup_fastapi` applies: the valid ones, each exactly
   * once (a permutation of them), ascending by priority within each side of
   * the scope middleware; an invalid configurer is never applied.
   */
  lemma SetupApplies(container: Container, configurers: seq<Candidate>)
    ensures var (inner, outer) := Groups(configurers);
            && Applied(SetupEvents(container, configurers)) == inner + outer
            && multiset(inner + outer) == multiset(Filter(configurers, IsValid))
            && SortedBy(inner, Key) && SortedBy(outer, Key)
            && (forall c :: c in inner + outer ==> IsValid(c))
  {
    var (inner, outer) := Groups(configurers);
    var valid := Filter(configurers, IsValid);
    var registration := RegistrationPhase(container, FindControllerClasses(container));
    RegistrationPhaseInert(container, FindControllerClasses(container));
    AppliedNone(registration);
    AppliedAppend(ConfigurationPhase(container, configurers), registration);
    AppliedConfigurationPhase(container, configurers);
    SplitByPriorityCorrect(valid);
    FilterMembers(configurers, IsValid);
    forall c | c in inner + outer ensures IsValid(c) {
      assert c in multiset(valid);
    }
  }

  /**
   * The lifespan is attached last, and only when controllers were found and
   * every one of their routes could be registered.
   */
  lemma SetupLifespanLast(container: Container, configurers: seq<Candidate>)
    ensures var events := SetupEvents(container, configurers);
            var classes := FindControllerClasses(container);
            && (LifespanAttached(container) in events <==> classes != [] && AllRoutable(classes))
            && (LifespanAttached(container) in events ==> events[|events| - 1] == LifespanAttached(container))
  {
    var events := SetupEvents(container, configurers);
    var classes := FindControllerClasses(container);
    if classes != [] && AllRoutable(classes) {
      assert events[|events| - 1] == LifespanAttached(container);
    } else {
      var phase := ConfigurationPhase(container, configurers);
      var routers := RouterEvents(classes);
      ConfigurationPhaseSandwich(container, configurers);
      RouterEventsAt(classes);
      assert events == phase + routers;
      forall i | 0 <= i < |events| ensures events[i] != LifespanAttached(container) {
        if i >= |phase| {
          assert events[i] == routers[i - |phase|];
        }
      }
    }
  }

  /**
   * With a CORS-style configurer at priority -100 and an auth-style one at
   * 10, the auth configurer is applied before the scope middleware is added
   * and the CORS one after it, whatever their input order.
   */
  lemma SandwichExample(container: Container, cors: Candidate, auth: Candidate)
    requires IsValid(cors) && IsValid(auth)
    requires cors.priority == Priority.Found(IntVal(-100)) && auth.priority == Priority.Found(IntVal(10))
    ensures ConfigurationPhase(container, [cors, auth]) == ConfigurationPhase(container, [auth, cors])
    ensures var events := ConfigurationPhase(container, [cors, auth]);
            && |events| == 3
            && events[0] == Configured(auth)
            && events[1] == ScopeMiddlewareAdded(container)
            && events[2] == Configured(cors)
  {
    assert Key(cors) == -100 && Key(auth) == 10;
    PairSandwich(container, cors, auth);
  }

  /** Two valid configurers on either side of 0 sandwich the scope middleware in either input order. */
  lemma PairSandwich(container: Container, outside: Candidate, inside: Candidate)
    requires IsValid(outside) && IsValid(inside)
    requires Key(outside) < 0 <= Key(inside)
    ensures ConfigurationPhase(container, [outside, inside]) == ConfigurationPhase(container, [inside, outside])
    ensures var events := ConfigurationPhase(container, [outside, inside]);
            && |events| == 3
            && events[0] == Configured(inside)
            && events[1] == ScopeMiddlewareAdded(container)
            && events[2] == Configured(outside)
  {
    GroupsOfPair(outside, inside);
    ConfigurationPhaseLayout(container, [outside, inside]);
    assert [inside][0] == inside && [outside][0] == outside;
  }

  /** Two valid configurers on either side of 0 end up on either side of the scope middleware. */
  lemma GroupsOfPair(outside: Candidate, inside: Candidate)
    requires IsValid(outside) && IsValid(inside)
    requires Key(outside) < 0 <= Key(inside)
    ensures Groups([outside, inside]) == Groups([inside, outside]) == ([inside], [outside])
  {
    var pair := [outside, inside];
    FilterAll(pair, IsValid);
    FilterAll([inside, outside], IsValid);
    assert SortBy([outside], Key) == [outside] by {
      assert [outside][..0] == [];
    }
    assert SortBy([inside], Key) == [inside] by {
      assert [inside][..0] == [];
    }
    assert SortBy(pair, Key) == pair by {
      assert pair[..1] == [outside];
      assert Insert([outside], inside, Key) == [outside] + Insert([], inside, Key);
    }
    assert SortBy([inside, outside], Key) == pair by {
      assert [inside, outside][..1] == [inside];
      assert Insert([inside], outside, Key) == [outside] + [inside];
    }
    assert Filter(pair, IsInner) == [inside] by {
      FilterAppend([outside], [inside], IsInner);
      FilterSingleton(outside, IsInner);
      FilterSingleton(inside, IsInner);
    }
    assert Filter(pair, Not(IsInner)) == [outside] by {
      FilterAppend([outside], [inside], Not(IsInner));
      FilterSingleton(outside, Not(IsInner));
      FilterSingleton(inside, Not(IsInner));
    }
  }

  // ---------------------------------------------------------------- lifespan

  datatype ContainerCall = CleanupAllAsync | Shutdown

  /** The container's side of shutdown: the calls made to it, in order. */
  class ContainerLog {
    var calls: seq<ContainerCall>

    constructor ()
      ensures calls == []
    {
      calls := [];
    }
  }

  /**
   * The container calls the lifespan manager makes, given how serving ended
   * (an exception there is re-raised at the `yield`) and how
   * `cleanup_all_async` ended.
   */
  function LifespanCalls(serving: Outcome, cleanup: Outcome): (calls: seq<ContainerCall>)
    // nothing is released while serving ends with an exception
    ensures serving == Raised ==> calls == []
    // otherwise cleanup comes first, exactly once; shutdown only after a cleanup that completed
    ensures serving == Completed ==> |calls| >= 1 && calls[0] == CleanupAllAsync
    ensures Shutdown in calls <==> serving == Completed && cleanup == Completed
    ensures forall i :: 0 <= i < |calls| && calls[i] == Shutdown ==> i == |calls| - 1 && i > 0
    ensures multiset(calls)[CleanupAllAsync] <= 1 && multiset(calls)[Shutdown] <= 1
  {
    match (serving, cleanup)
    case (Raised, _) => []
    case (Completed, Raised) => [CleanupAllAsync]
    case (Completed, Completed) => [CleanupAllAsync, Shutdown]
  }

  /**
   * `lifespan_manager(app)` from the `yield` on: how the context ends (with
   * the exception of serving or of a container call, or normally) and the
   * calls it made.
   */
  method LifespanManager(log: ContainerLog, serving: Outcome, cleanup: Outcome, shutdown: Outcome)
    returns (outcome: Outcome)
    modifies log
    ensures log.calls == old(log.calls) + LifespanCalls(serving, cleanup)
    ensures outcome == Completed <==> serving == Completed && cleanup == Completed && shutdown == Completed
  {
    // yield
    if serving == Raised {
      return Raised;
    }
    log.calls := log.calls + [CleanupAllAsync];
    if cleanup == Raised {
      return Raised;
    }
    log.calls := log.calls + [Shutdown];
    outcome := shutdown;
  }
}
