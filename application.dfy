/**
 * The `FastAPI` application object as this library changes it: a log of
 * the configuration steps applied to it, in order. What each step does
 * inside FastAPI and Starlette is not modelled.
 */
module Application {
  import opened Objects
  import opened Configurers
  import opened Routing

  datatype AppEvent =
      /** `configurer.configure_app(app)` */
    | Configured(configurer: Candidate)
      /** `app.add_middleware(PicoScopeMiddleware, container=container)` */
    | ScopeMiddlewareAdded(container: Container)
      /** `app.include_router(router)` */
    | RouterIncluded(router: Router)
      /** `app.router.lifespan_context = _create_lifespan_manager(container)` */
    | LifespanAttached(container: Container)

  class FastApiApp {
    var events: seq<AppEvent>

    constructor ()
      ensures events == []
    {
      events := [];
    }

    method Configure(c: Candidate)
      modifies this
      ensures events == old(events) + [Configured(c)]
    {
      events := events + [Configured(c)];
    }

    method AddScopeMiddleware(container: Container)
      modifies this
      ensures events == old(events) + [ScopeMiddlewareAdded(container)]
    {
      events := events + [ScopeMiddlewareAdded(container)];
    }

    method IncludeRouter(router: Router)
      modifies this
      ensures events == old(events) + [RouterIncluded(router)]
    {
      events := events + [RouterIncluded(router)];
    }

    method AttachLifespan(container: Container)
      modifies this
      ensures events == old(events) + [LifespanAttached(container)]
    {
      events := events + [LifespanAttached(container)];
    }
  }
}
