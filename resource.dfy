/** The routed resource of src/resource.rs: a path prefix with one nested
    route, the future `CreateResourceService` that resolves the route's
    service and attaches the joined path to it, and `register`, which drives
    that future to completion and appends the result to an `AppService`.

    The route (src/route.rs) is not part of this model: a `Route` is its path
    together with the future its `new_service` returns. Requests and
    responses are strings, and a dispatch's deferred result is represented by
    the value it resolves to. */
module Resources {
  import opened Services
  import opened Config

  /** Rust's `u16`. */
  newtype u16 = x: int | 0 <= x < 0x1_0000

  /** `Option<T>` */
  datatype Option<T> = None | Some(value: T)

  /** `Result<T, ()>`: both error kinds of this layer are the unit error. */
  datatype Result<T> = Ok(value: T) | Err

  /** `std::task::Poll` */
  datatype Poll<T> = Pending | Ready(value: T)

  type ServiceRequest = string
  type ServiceResponse = string

  /** The route's `BoxedRouteService`: called with a request, it yields the
      result its response future resolves to. */
  type RouteService = Service<ServiceRequest, Result<ServiceResponse>>

  /** `RouteFutureService`, the future a route's `new_service` returns: it
      answers `Pending` to some number of polls, then resolves to its output. */
  datatype RouteFuture = Waiting(next: RouteFuture) | Resolved(output: Result<RouteService>) {

    /** How many polls answer `Pending` before the future resolves. */
    function PendingPolls(): nat {
      match this
      case Waiting(next) => next.PendingPolls() + 1
      case Resolved(_) => 0
    }

    /** What the future eventually resolves to. */
    function Outcome(): Result<RouteService> {
      match this
      case Waiting(next) => next.Outcome()
      case Resolved(output) => output
    }
  }

  /** `Route`: its path and the construction future of its service. */
  datatype Route = Route(path: string, build: RouteFuture)

  /** The `as u16` cast: keep the low 16 bits. */
  function TruncateU16(n: nat): (r: u16)
    ensures r as int == n % 0x1_0000
    ensures n < 0x1_0000 ==> r as int == n
  {
    (n % 0x1_0000) as u16
  }

  /** `ResourceService`: the resolved service with its joined path. */
  datatype ResourceService = ResourceService(service: RouteService, path: string, len: u16) {

    /** `Service::call` for `ResourceService`: hand the request, unchanged,
        to the boxed service and return its result. */
    function Call(req: ServiceRequest): Result<ServiceResponse> {
      service.call(req)
    }
  }

  /** `CreateResourceService`: the route's construction future together with
      the path and length to attach to its result. */
  datatype CreateResourceService = CreateResourceService(fut: RouteFuture, path: string, len: u16) {

    /** `Future::poll` for `CreateResourceService`: pending while the route's
        future is pending; once it is ready, its service (unwrapped: an error
        there aborts) is wrapped with the precomputed path and length. */
    function Poll(): (p: Poll<Result<ResourceService>>)
      requires fut.Resolved? ==> fut.output.Ok?
      ensures p.Pending? <==> fut.Waiting?
      ensures p.Ready? ==> p.value.Ok?
      ensures p.Ready? ==> p.value.value == ResourceService(fut.output.value, path, len)
    {
      match fut
      case Waiting(_) => Pending
      case Resolved(output) => Ready(Ok(ResourceService(output.value, path, len)))
    }

    /** The future after one poll: the route's future has advanced by one
        step, the path and length are untouched. */
    function Polled(): (c: CreateResourceService)
      ensures c.path == path && c.len == len
      ensures c.fut.Outcome() == fut.Outcome()
      ensures fut.Waiting? ==> c.fut == fut.next && c.fut.PendingPolls() == fut.PendingPolls() - 1
      ensures fut.Resolved? ==> c == this
    {
      match fut
      case Waiting(next) => this.(fut := next)
      case Resolved(_) => this
    }
  }

  /** `block_on` applied to a `CreateResourceService`: poll until ready. The
      result is the route's eventual service with the future's path and length. */
  function BlockOn(c: CreateResourceService): (r: Result<ResourceService>)
    requires c.fut.Outcome().Ok?
    ensures r == Ok(ResourceService(c.fut.Outcome().value, c.path, c.len))
    decreases c.fut
  {
    match c.Poll()
    case Ready(v) => v
    case Pending => BlockOn(c.Polled())
  }

  /** The future after `n` polls. */
  function PolledTimes(c: CreateResourceService, n: nat): (r: CreateResourceService)
    ensures r.path == c.path && r.len == c.len
    ensures r.fut.Outcome() == c.fut.Outcome()
    ensures r.fut.PendingPolls() == if n <= c.fut.PendingPolls() then c.fut.PendingPolls() - n else 0
    decreases n
  {
    if n == 0 then c else PolledTimes(c.Polled(), n - 1)
  }

  /** `Resource`: a path prefix, the nested route, and the slot in which a
      resolved service could be kept for later inspection. */
  datatype Resource = Resource(prefix: string, route: Route, routeService: Option<ResourceService>) {

    /** `Resource::new`: the given prefix, the route `Route::new("")` (whose
        construction future is passed in, since src/route.rs is not part of
        this model) and an empty slot. */
    static function New(prefix: string, emptyRouteBuild: RouteFuture): (r: Resource)
      ensures r.prefix == prefix
      ensures r.route.path == "" && r.route.build == emptyRouteBuild
      ensures r.routeService == None
    {
      Resource(prefix, Route("", emptyRouteBuild), None)
    }

    /** `Resource::route`: replace the route, keep the prefix and the slot. */
    function WithRoute(newRoute: Route): (r: Resource)
      ensures r.route == newRoute
      ensures r.prefix == prefix && r.routeService == routeService
    {
      this.(route := newRoute)
    }

    /** `ServiceFactory::new_service` for `Resource`: the full path is the
        prefix followed by the route's path, its length is kept as a `u16`,
        and the future to drive is the route's own. */
    function NewService(): (c: CreateResourceService)
      ensures c.fut == route.build
      ensures |c.path| == |prefix| + |route.path|
      ensures c.path[..|prefix|] == prefix && c.path[|prefix|..] == route.path
      ensures c.len as int == |c.path| % 0x1_0000
      ensures |c.path| < 0x1_0000 ==> c.len as int == |c.path|
    {
      var path := prefix + route.path;
      CreateResourceService(route.build, path, TruncateU16(|path|))
    }
  }

  /** `Resource::register`: build the future, block on it, and append the
      resolved service to the `AppService`. The resource itself, and with it
      its slot, is left as it was. */
  method Register(res: Resource, config: AppService<ResourceService>)
    requires res.route.build.Outcome().Ok?
    modifies config
    ensures config.services == old(config.services) + [ResourceService(
      res.route.build.Outcome().value,
      res.prefix + res.route.path,
      TruncateU16(|res.prefix| + |res.route.path|))]
  {
    var fut := res.NewService();
    var resolved := BlockOn(fut);
    config.AddService(resolved.value);
  }

  /** Polling the construction future of a resource answers `Pending`
      exactly as often as the route's future does, and then `Ready` with the
      very service `block_on` returns. */
  lemma PendingThenReady(c: CreateResourceService, n: nat)
    requires c.fut.Outcome().Ok?
    ensures n < c.fut.PendingPolls() ==> PolledTimes(c, n).Poll() == Pending
    ensures PolledTimes(c, c.fut.PendingPolls()).Poll() == Ready(BlockOn(c))
  {
  }

  /** Dispatching to a registered resource reaches the route's service with
      the request unchanged. */
  lemma ResolvedServiceForwards(res: Resource, req: ServiceRequest)
    requires res.route.build.Outcome().Ok?
    ensures BlockOn(res.NewService()).value.Call(req) == res.route.build.Outcome().value.call(req)
  {
  }

  /** Path composition: prefix "/api" and route path "/home" give the
      path "/api/home" of length 9. */
  lemma ApiHomePath(build: RouteFuture)
    ensures Resource("/api", Route("/home", build), None).NewService().path == "/api/home"
    ensures Resource("/api", Route("/home", build), None).NewService().len == 9
  {
  }

  /** The unit test of src/resource.rs: a route for "/home" under an empty
      prefix, registered into a fresh `AppService`. The resolved service is
      in the `AppService`; the resource's own slot is still empty, so the
      test's `take()` finds nothing to call. */
  method RegisterHomeResource(homeBuild: RouteFuture, emptyBuild: RouteFuture)
    returns (rs: Resource, app: AppService<ResourceService>)
    requires homeBuild.Outcome().Ok?
    ensures rs.routeService == None
    ensures app.services == [ResourceService(homeBuild.Outcome().value, "/home", 5)]
  {
    var r := Route("/home", homeBuild);
    rs := Resource.New("", emptyBuild);
    rs := rs.WithRoute(r);
    app := new AppService();
    Register(rs, app);
    assert rs.prefix + rs.route.path == "/home";
  }
}
