# Composable services and routed resources, in Dafny

This project models the core of a small Rust web-server experiment. Request
handlers are composed out of two capabilities: a *service* (called with a
request, yields a response) and a *service factory* (builds a service). Three
parts are modelled:

- `services.dfy`, module `Services` (loony-test/src/wrapper.rs). A `Service`
  or `ServiceFactory` is the dictionary its trait object carries: a datatype
  holding the `call` or `new_service` function. The handler `Wrapper`, the
  extractor stage (`Extract` / `ExtractService`) and the erasure layer
  (`RouteServiceWrapper`, `RouteNewService` and the `Service` impl of the
  boxed service) are datatypes with their calls. The constructors
  `Wrapper::new`, `Extract::new` and `RouteNewService::new` are the
  datatypes' own constructors. The erasure layers are proved transparent:
  every response equals the wrapped service's response.
- `resource.dfy`, module `Resources` (src/resource.rs). A `Resource` is built
  by `New` and `WithRoute` (the builder chain `new`, `route`). `NewService`
  joins prefix and route path and keeps the length as a `u16` (truncated
  modulo 2^16). The route's construction future is an inductive datatype:
  `Waiting(next)` answers `Pending` to a poll, `Resolved(output)` is ready.
  `CreateResourceService.Poll` is the two-outcome step, `BlockOn` drives it
  to completion, and `Register` is the imperative registration into an
  `AppService`.
- `config.dfy`, module `Config` (src/config.rs). `AppService` and
  `ServiceConfig` are classes whose list fields only grow at the end, so list
  order is registration order. Registering two resources one after the other
  leaves them in that order, by `Register`'s postcondition.

The extractor stage is modelled as the code has it: in
`ExtractService::call` the extraction and the inner call are commented out
(loony-test/src/wrapper.rs:159-160), so the stage returns the raw request and
never calls its inner service.

Each source `call` is a function without a contract of its own
(`Wrapper.Call`, `ExtractService.Call`, `RouteServiceWrapper.Call`,
`BoxedCall`, `ResourceService.Call`); its promise is stated by the lemma whose
row names it below.

## Model

| member | source | states |
|---|---|---|
| `Services.WrapperIgnoresRequest` | loony-test/src/wrapper.rs:136-143 | `Wrapper.Call` (`Service::call` for `Wrapper`): calling a `Wrapper` with `(param, req)` gives `respond(handler(param))`, and the same for every raw request `req` |
| `Services.Wrapper.AsService` | loony-test/src/wrapper.rs:128-143 | through its `Service` capability, the wrapper answers `(param, req)` with `respond(handler(param))`, whatever the raw request |
| `Services.Wrapper.Clone` | loony-test/src/wrapper.rs:79-84 | the clone holds the same handler and responder and answers every `(param, req)` like the original |
| `Services.CloneAnswersAlike` | loony-test/src/wrapper.rs:79-84 | a clone and its original give the same response through the `Service` capability |
| `Services.Extract.NewService` | loony-test/src/wrapper.rs:176-181 | the built `ExtractService` holds exactly the factory's inner service; the factory is a value and stays as it was |
| `Services.Extract.AsFactory` | loony-test/src/wrapper.rs:166-182 | every stage the erased factory builds echoes every request, as the stub at lines 156-162 does |
| `Services.ExtractServiceEchoes` | loony-test/src/wrapper.rs:156-162 | `ExtractService.Call` (`Service::call` for `ExtractService`): as written, the extractor returns its request unchanged, whatever inner service it holds |
| `Services.ExtractService.AsService` | loony-test/src/wrapper.rs:146-163 | behind the erased `String -> String` signature the stage answers every request with the request itself |
| `Services.RouteServiceWrapperTransparent` | loony-test/src/wrapper.rs:194-198 | `RouteServiceWrapper.Call` (`Service::call` for `RouteServiceWrapper`): erasure transparency, `RouteServiceWrapper(s)` answers every request as `s` does, also once boxed |
| `Services.RouteServiceWrapper.Boxed` | loony-test/src/wrapper.rs:228-230 | the boxed `RouteServiceWrapper` answers every request as the service it wraps does |
| `Services.CloneString` | loony-test/src/wrapper.rs:206 | the request's clone has the same length and the same characters |
| `Services.BoxedServiceTransparent` | loony-test/src/wrapper.rs:205-207 | `BoxedCall` (`Service::call` for `BoxedRouteService`): the boxed service's own `call` (on a copy of the request) equals the call of the service in the box |
| `Services.RouteNewService.NewService` | loony-test/src/wrapper.rs:225-232 | the boxed result answers every request exactly as the service the wrapped factory builds |
| `Services.RouteNewService.AsFactory` | loony-test/src/wrapper.rs:211-233 | the adapter used as a factory builds services that answer every request like those the wrapped factory builds |
| `Services.RouteNewServiceTransparent` | loony-test/src/wrapper.rs:211-233 | wrapping a factory in `RouteNewService` changes no response of the services it builds |
| `Services.ErasedExtractChainEchoes` | loony-test/src/wrapper.rs:225-232 | the whole chain `RouteNewService(Extract(inner))` answers every request with the request itself |
| `Resources.Resource.New` | src/resource.rs:28-34 | the new resource has the given prefix, a route with path `""` and an empty service slot |
| `Resources.Resource.WithRoute` | src/resource.rs:36-39 | only the route is replaced; prefix and slot are unchanged |
| `Resources.Resource.NewService` | src/resource.rs:51-60 | the future's path is the prefix followed by the route path, its length is the path length modulo 2^16 (exact below 2^16), and it drives the route's own future |
| `Resources.TruncateU16` | src/resource.rs:56 | the `as u16` cast keeps the value modulo 2^16 and leaves values below 2^16 alone |
| `Resources.ApiHomePath` | src/resource.rs:51-60 | prefix `/api` with route path `/home` gives path `/api/home` and length 9 |
| `Resources.CreateResourceService.Poll` | src/resource.rs:97-109 | `Pending` exactly when the route's future is pending; when it is ready with `Ok(s)`, `Ready(Ok(ResourceService(s, path, len)))` with the precomputed path and length; an `Err` there aborts, so it is excluded |
| `Resources.CreateResourceService.Polled` | src/resource.rs:98-107 | after a poll the route's future has advanced one step, its eventual output is the same, and path and length are untouched |
| `Resources.BlockOn` | src/resource.rs:66 | driving the future to completion yields `Ok` of the route's eventual service with the future's path and length |
| `Resources.PendingThenReady` | src/resource.rs:97-109 | successive polls answer `Pending` exactly as many times as the route's future is pending, then `Ready` with the value `BlockOn` returns |
| `Resources.Register` | src/resource.rs:64-68 | the `AppService` gets exactly one more service at the end: the route's service with the joined path and its `u16` length; construction must succeed |
| `Resources.ResolvedServiceForwards` | src/resource.rs:90-92 | `ResourceService.Call` (`Service::call` for `ResourceService`): calling the resolved `ResourceService` hands the request unchanged to the route's service |
| `Resources.RegisterHomeResource` | src/resource.rs:129-142 | the unit test's scenario: the `AppService` then holds one service with path `/home` and length 5, and the resource's slot is still empty, so `take()` finds nothing |
| `Config.AppService.constructor` | src/config.rs:12-16 | a new `AppService` has no services |
| `Config.AppService.AddService` | src/config.rs:18-20 | the service list becomes the old list followed by the new service; earlier entries and their order are kept |
| `Config.ServiceConfig.constructor` | src/config.rs:24-28 | a new `ServiceConfig` has no factories |
| `Config.ServiceConfig.AddService` | src/config.rs:30-35 | exactly one wrapped factory is appended at the end; earlier entries are kept |

## Left out

- Asynchronous runtime mechanics (`Pin`, `Context`, wakers, `pin_project`, `boxed_local`, the executor inside `block_on`): a future is a value that is `Pending` some number of times and then ready, and `poll` is a pure step.
- A construction future that never resolves cannot be represented: `RouteFuture` is inductive, so every route future resolves after finitely many polls, and `BlockOn` and `Register` always finish. In the source, `block_on` at src/resource.rs:66 stalls forever on such a future, and so does the registration waiting on it.
- `Resources.CreateResourceService.Polled`: a future polled again after it is ready stays as it is; Rust forbids that poll instead.
- The `Rc<RefCell<Option<ResourceService>>>` sharing of the resource's slot: it is a plain `Option` field, and no aliasing is modelled (`register` never writes it).
- Trait objects, `Box` and `PhantomData`: capabilities are function values, so Rust's per-call ownership and independence of freshly built services are not modelled.
- `Services.RouteNewService.NewService`: that the wrapped factory's `new_service` runs exactly once per call is not observable in a value model; the contract states what the result answers.
- The `Factory`, `Responder`, `FromRequest`, `Route`, `ServiceRequest`, `ServiceResponse`, `HttpServiceFactory` and `ServiceFactoryWrapper` types: their source is not part of this model. The handler is a function value, `respond` is a function value carried in the `Wrapper`, requests and responses are strings, a route is its path and its construction future, and `Route::new("")`'s future is a parameter of `Resources.Resource.New`.
- `Resources.Resource.NewService`: the length counts characters, while Rust counts UTF-8 bytes; the two agree on ASCII paths.
- `Resources.CreateResourceService.Poll`: the abort of `unwrap` on a construction error is not represented as an outcome; it is a precondition.
- `Resources.Register`: the two `unwrap` calls make successful construction a precondition; a failing construction aborts in the source.
- A dispatch's response future (`boxed_local` in `ResourceService::call`) is represented by the result it resolves to.
- The `println!` in `ExtractService::call`: console output.
- Extraction and its failure short-circuit: the code has them commented out, so they are not modelled.
- loony-test/src/main.rs: a closure demonstration with no behaviour of the core.
