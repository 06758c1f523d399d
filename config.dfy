/** The application registries of src/config.rs: `AppService` collects the
    resolved resource services, `ServiceConfig` the type-erased factories
    awaiting registration. Both only ever append, so the order of the list is
    the order of registration.

    Both classes are generic in what they hold: `AppService<ResourceService>`
    is the source's `AppService`, and `ServiceConfig<F>` holds the wrapped
    factories `F`. */
module Config {

  /** `AppService`: the resolved services, in registration order. */
  class AppService<S> {
    var services: seq<S>

    /** `AppService::new`: no service registered yet. */
    constructor ()
      ensures services == []
    {
      services := [];
    }

    /** `AppService::service`: push one resolved service at the end. */
    method AddService(service: S)
      modifies this
      ensures services == old(services) + [service]
      ensures |services| == |old(services)| + 1
      ensures services[..|old(services)|] == old(services) && services[|old(services)|] == service
    {
      services := services + [service];
    }
  }

  /** `ServiceFactoryWrapper::new(factory)`: the type-erased form in which a
      factory is stored; the wrapper type itself is not part of this model. */
  datatype ServiceFactoryWrapper<F> = ServiceFactoryWrapper(factory: F)

  /** `ServiceConfig`: the factories awaiting registration, in the order given. */
  class ServiceConfig<F> {
    var services: seq<ServiceFactoryWrapper<F>>

    /** `ServiceConfig::new`: no factory yet. */
    constructor ()
      ensures services == []
    {
      services := [];
    }

    /** `ServiceConfig::service`: wrap the factory and push it at the end. */
    method AddService(factory: F)
      modifies this
      ensures services == old(services) + [ServiceFactoryWrapper(factory)]
      ensures |services| == |old(services)| + 1
      ensures services[..|old(services)|] == old(services)
      ensures services[|old(services)|].factory == factory
    {
      services := services + [ServiceFactoryWrapper(factory)];
    }
  }
}
