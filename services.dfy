/** The service algebra of loony-test/src/wrapper.rs: the `Service` and
    `ServiceFactory` capabilities, the handler `Wrapper`, the extractor stage
    (`Extract` / `ExtractService`) and the type-erasure layer
    (`RouteServiceWrapper`, `RouteNewService` and the boxed service).

    A capability is represented by the dictionary a trait object carries: a
    `Service` is its `call`, a `ServiceFactory` is its `new_service`. Erasing
    a concrete service into a `BoxedRouteService` is building that dictionary. */
module Services {

  /** `trait Service`: called with a `Req`, yields a `Res`. */
  datatype Service<!Req, Res> = Service(call: Req -> Res)

  /** `trait ServiceFactory`: builds a fresh `Service` on every request. */
  datatype ServiceFactory<!Req, Res> = ServiceFactory(newService: () -> Service<Req, Res>)

  /** `Box<dyn Service<Request = String, Response = String>>` */
  type BoxedRouteService = Service<string, string>

  /** `Box<dyn ServiceFactory<Request = String, Response = String, Service = BoxedRouteService>>` */
  type BoxedRouteNewService = ServiceFactory<string, string>

  /** Two string services answer every request alike. */
  ghost predicate SameCalls(a: Service<string, string>, b: Service<string, string>) {
    forall req :: a.call(req) == b.call(req)
  }

  /** `String::clone`: a copy of the same characters. */
  function CloneString(s: string): (c: string)
    ensures |c| == |s| && forall i :: 0 <= i < |s| ==> c[i] == s[i]
  {
    s[..]
  }

  /** `Wrapper<T, Arg, Res>`: a handler `Arg -> Res` turned into a service on
      `(Arg, String)`. The `Responder` capability of `Res` (its `respond`) is
      carried along as a function value. `Wrapper::new` is the constructor. */
  datatype Wrapper<!Arg(!new), !Res> = Wrapper(handler: Arg -> Res, respond: Res -> string) {

    /** `Service::call` for `Wrapper`: run the handler on the extracted
        argument and turn its result into the wire response. */
    function Call(param: Arg, req: string): string {
      respond(handler(param))
    }

    /** `Clone for Wrapper`: a copy holding a clone of the same handler,
        which answers every call as the original does. */
    function Clone(): (c: Wrapper<Arg, Res>)
      ensures c.handler == handler && c.respond == respond
      ensures forall param, req :: c.Call(param, req) == Call(param, req)
    {
      Wrapper(handler, respond)
    }

    /** The wrapper seen through its `Service` capability: the handler's
        result, turned into a response, whatever the raw request. */
    function AsService(): (s: Service<(Arg, string), string>)
      ensures forall param, req :: s.call((param, req)) == respond(handler(param))
    {
      Service((p: (Arg, string)) => Call(p.0, p.1))
    }
  }

  /** `ExtractService<T, S>`: the realised extractor stage holding its inner
      service, which expects the extracted `T` with the raw request. */
  datatype ExtractService<!T> = ExtractService(service: Service<(T, string), string>) {

    /** `Service::call` for `ExtractService`, as written: the extraction
        and the inner call are absent, so the request itself is returned. */
    function Call(req: string): string {
      req
    }

    /** The stage behind the erased `String -> String` signature: as
        written, it echoes every request. */
    function AsService(): (s: BoxedRouteService)
      ensures forall req :: s.call(req) == req
    {
      Service(req => Call(req))
    }
  }

  /** `Extract<T, S>`: the factory form of the extractor stage.
      `Extract::new` is the constructor. */
  datatype Extract<!T> = Extract(service: Service<(T, string), string>) {

    /** `ServiceFactory::new_service` for `Extract`: an `ExtractService`
        holding a clone of the inner service. */
    function NewService(): (s: ExtractService<T>)
      ensures s.service == service
    {
      ExtractService(service)
    }

    /** The factory behind the erased signature: every stage it builds
        echoes every request. */
    function AsFactory(): (f: BoxedRouteNewService)
      ensures forall req :: f.newService().call(req) == req
    {
      ServiceFactory(() => NewService().AsService())
    }
  }

  /** `RouteServiceWrapper<T>`: the erasure adapter around a typed service. */
  datatype RouteServiceWrapper = RouteServiceWrapper(service: Service<string, string>) {

    /** `Service::call` for `RouteServiceWrapper`: delegate to the wrapped service. */
    function Call(req: string): string {
      service.call(req)
    }

    /** `Box::new(RouteServiceWrapper { .. })` as a `BoxedRouteService`:
        the box answers every request as the wrapped service does. */
    function Boxed(): (b: BoxedRouteService)
      ensures forall req :: b.call(req) == service.call(req)
    {
      Service(req => Call(req))
    }
  }

  /** `impl Service for BoxedRouteService`: call the boxed service on a copy
      of the request. */
  function BoxedCall(boxed: BoxedRouteService, param: string): string {
    boxed.call(CloneString(param))
  }

  /** `RouteNewService<T>`: the erasure adapter around a typed factory.
      `RouteNewService::new` is the constructor. */
  datatype RouteNewService = RouteNewService(service: ServiceFactory<string, string>) {

    /** `ServiceFactory::new_service` for `RouteNewService`: build one inner
        service, wrap it in a `RouteServiceWrapper` and box it. The boxed
        result answers every request exactly as that inner service does. */
    function NewService(): (b: BoxedRouteService)
      ensures forall req :: BoxedCall(b, req) == service.newService().call(req)
    {
      RouteServiceWrapper(service.newService()).Boxed()
    }

    /** The adapter itself as a `BoxedRouteNewService`: the services it
        builds answer like those the wrapped factory builds. */
    function AsFactory(): (f: BoxedRouteNewService)
      ensures SameCalls(f.newService(), service.newService())
    {
      ServiceFactory(() => NewService())
    }
  }

  /** The raw request does not reach the handler: only the extracted
      argument decides the response. */
  lemma WrapperIgnoresRequest<Arg(!new), Res>(w: Wrapper<Arg, Res>, param: Arg, req1: string, req2: string)
    ensures w.Call(param, req1) == w.Call(param, req2) == w.respond(w.handler(param))
  {
  }

  /** A clone answers like the original, also through the `Service` capability. */
  lemma CloneAnswersAlike<Arg(!new), Res>(w: Wrapper<Arg, Res>, param: Arg, req: string)
    ensures w.Clone().AsService().call((param, req)) == w.AsService().call((param, req))
  {
  }

  /** As written, `ExtractService::call` echoes the request and what it holds
      as inner service makes no difference. */
  lemma ExtractServiceEchoes<T>(a: ExtractService<T>, b: ExtractService<T>, req: string)
    ensures a.Call(req) == req
    ensures a.Call(req) == b.Call(req)
  {
  }

  /** Erasure transparency: wrapping a service for the route table changes
      no response. */
  lemma RouteServiceWrapperTransparent(s: Service<string, string>, req: string)
    ensures RouteServiceWrapper(s).Call(req) == s.call(req)
    ensures BoxedCall(RouteServiceWrapper(s).Boxed(), req) == s.call(req)
  {
  }

  /** The boxed service answers a request as the service inside the box
      answers the request's copy, which is the request itself. */
  lemma BoxedServiceTransparent(boxed: BoxedRouteService, req: string)
    ensures BoxedCall(boxed, req) == boxed.call(req)
  {
  }

  /** Wrapping an erased factory once more in `RouteNewService` yields
      services that answer like the ones the factory builds itself. */
  lemma RouteNewServiceTransparent(f: BoxedRouteNewService)
    ensures SameCalls(RouteNewService(f).AsFactory().newService(), f.newService())
  {
    forall req
      ensures RouteNewService(f).AsFactory().newService().call(req) == f.newService().call(req)
    {
      assert BoxedCall(RouteNewService(f).NewService(), req) == f.newService().call(req);
    }
  }

  /** The chain a route is built from, `RouteNewService(Extract(handler))`,
      answers every request with the request itself while the extractor is
      the stub it is. */
  lemma ErasedExtractChainEchoes<T>(inner: Service<(T, string), string>, req: string)
    ensures BoxedCall(RouteNewService(Extract(inner).AsFactory()).NewService(), req) == req
  {
  }
}
