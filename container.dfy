/** The application's container of cmd/my-application/app/service/container.go: one slot per
    service, the configuration it was created with, and an embedded shutdown stack to which
    the two lifecycle operations are forwarded. Nil pointers are None. */
module AppContainer {
  import opened Basics
  import opened Clients
  import opened Shutdown
  import AppConfig

  /** CustomService of internal/service/custom_service.go: built from other services. */
  datatype CustomService = CustomService(mgo: Option<MongoClient>, log: Option<ZapLogger>, bkt: BucketHandle)

  /** MyService of cmd/my-application/app/service/my_service.go. */
  datatype MyService = MyService(mgo: Option<MongoClient>, log: Option<ZapLogger>, bkt: BucketHandle)

  /** The service slots of a container. */
  datatype Slots = Slots(
    mgo: Option<MongoClient>,
    gcs: Option<StorageClient>,
    log: Option<ZapLogger>,
    csm: Option<CustomService>,
    svc: Option<MyService>)

  const EmptySlots := Slots(None, None, None, None, None)

  /** Everything a container holds: its slots, the pending teardown callbacks, and the
      trace of the callbacks invoked so far. */
  datatype ContainerState = ContainerState(slots: Slots, pending: seq<Callback>, invoked: seq<Callback>)

  const FreshState := ContainerState(EmptySlots, [], [])

  class Container {
    const cfg: AppConfig.Config
    const handler: ShutdownHandler
    var mgo: Option<MongoClient>
    var gcs: Option<StorageClient>
    var log: Option<ZapLogger>
    var csm: Option<CustomService>
    var svc: Option<MyService>

    /** `&Container{cfg: cfg}`: every slot nil, nothing registered. */
    constructor (cfg: AppConfig.Config)
      ensures this.cfg == cfg && fresh(handler)
      ensures Model() == FreshState
    {
      this.cfg := cfg;
      handler := new ShutdownHandler();
      mgo, gcs, log, csm, svc := None, None, None, None, None;
    }

    function Services(): Slots
      reads this
    {
      Slots(mgo, gcs, log, csm, svc)
    }

    ghost function Model(): ContainerState
      reads this, handler
    {
      ContainerState(Services(), handler.onShutdown, handler.invoked)
    }

    /** Config: the configuration the container was created with. */
    function Config(): AppConfig.Config
    {
      cfg
    }

    function MongoDB(): Option<MongoClient>
      reads this
    {
      mgo
    }

    function CloudStorage(): Option<StorageClient>
      reads this
    {
      gcs
    }

    function Logger(): Option<ZapLogger>
      reads this
    {
      log
    }

    function CustomService(): Option<CustomService>
      reads this
    {
      csm
    }

    function MyService(): Option<MyService>
      reads this
    {
      svc
    }

    /** Bucket: the handle on the named bucket of the container's storage client; None when
        the client slot is nil, which the model takes to be a panic of the storage library. */
    function Bucket(name: string): (h: Option<BucketHandle>)
      reads this
      ensures h.Some? <==> gcs.Some?
      ensures h.Some? ==> h.value.client == gcs.value && h.value.name == name
    {
      StorageBucket(gcs, name)
    }

    method SetMongoDB(client: Option<MongoClient>)
      modifies this
      ensures Services() == old(Services()).(mgo := client)
      ensures MongoDB() == client
    {
      mgo := client;
    }

    method SetCloudStorage(client: Option<StorageClient>)
      modifies this
      ensures Services() == old(Services()).(gcs := client)
      ensures CloudStorage() == client
    {
      gcs := client;
    }

    method SetLogger(logger: Option<ZapLogger>)
      modifies this
      ensures Services() == old(Services()).(log := logger)
      ensures Logger() == logger
    {
      log := logger;
    }

    method SetCustomService(service: Option<CustomService>)
      modifies this
      ensures Services() == old(Services()).(csm := service)
      ensures CustomService() == service
    {
      csm := service;
    }

    method SetMyService(service: Option<MyService>)
      modifies this
      ensures Services() == old(Services()).(svc := service)
      ensures MyService() == service
    {
      svc := service;
    }

    /** RegisterOnShutdown, forwarded to the embedded handler. */
    method RegisterOnShutdown(fn: Option<Callback>)
      requires fn.Some?
      modifies handler
      ensures Model() == old(Model()).(pending := old(Model()).pending + [fn.value])
    {
      handler.RegisterOnShutdown(fn);
    }

    /** Shutdown, forwarded to the embedded handler. */
    method Shutdown()
      modifies handler
      ensures Model() == Unwound(old(Model()))
    {
      handler.Shutdown();
    }
  }

  /** The state after Shutdown: the pending callbacks were invoked, last first, and none
      remain. */
  function Unwound(st: ContainerState): (r: ContainerState)
    ensures r.slots == st.slots && r.pending == []
    ensures r.invoked == st.invoked + Reversed(st.pending)
  {
    st.(pending := [], invoked := st.invoked + Reversed(st.pending))
  }

  /** A second Shutdown invokes nothing: unwinding is idempotent. */
  lemma UnwoundIdempotent(st: ContainerState)
    ensures Unwound(Unwound(st)) == Unwound(st)
  {
  }
}
