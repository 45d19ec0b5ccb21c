/** The service providers of internal/service/service.go, internal/service/custom_service.go and
    cmd/my-application/app/service/my_service.go. A Go provider is a closure `func() error`
    over the container; here it is a Provider value naming the factory it came from and what
    the factory captured. Step says what invoking one does to the container's slots and
    registrations; the Run methods do it in place, through the container's setters and
    RegisterOnShutdown, and are proved to match Step. */
module Providers {
  import opened Basics
  import opened Clients
  import opened Shutdown
  import opened LoggerOptions
  import AppConfig
  import opened AppContainer

  /** What invoking a provider ends in: nil, an error, or a panic (which the source never
      recovers from). */
  datatype Status = Success | Failure(error: string) | Panic(message: string)

  const BucketRequired := "cloud storage bucket name is required"
  const NilPointer := "invalid memory address or nil pointer dereference"

  /** A provider, or a nil entry in a provider list. */
  datatype Provider =
    | NilProvider
    | LoggerProvider(format: LogFormat, level: Level, out: Writer, opts: seq<ZapOption>)
    | CloudStorageProvider(newClient: Result<StorageClient>)
    | MongoDBProvider(mongoOptions: MongoOptions, connect: MongoOptions -> Result<MongoClient>)
    | CustomServiceProvider(bucket: string)
    | MyServiceProvider(cfg: AppConfig.Config)

  /** The outcome of one invocation: its status, the slots afterwards, and the callbacks it
      registered, in order. */
  datatype Effect = Effect(status: Status, services: Slots, registered: seq<Callback>)

  datatype SlotName = LoggerSlot | StorageSlot | MongoSlot | CustomSlot | MyServiceSlot

  /** `s` with the named slot taken from `t`. */
  function Overwrite(s: Slots, t: Slots, slot: SlotName): Slots
  {
    match slot
    case LoggerSlot => s.(log := t.log)
    case StorageSlot => s.(gcs := t.gcs)
    case MongoSlot => s.(mgo := t.mgo)
    case CustomSlot => s.(csm := t.csm)
    case MyServiceSlot => s.(svc := t.svc)
  }

  predicate Holds(s: Slots, slot: SlotName)
  {
    match slot
    case LoggerSlot => s.log.Some?
    case StorageSlot => s.gcs.Some?
    case MongoSlot => s.mgo.Some?
    case CustomSlot => s.csm.Some?
    case MyServiceSlot => s.svc.Some?
  }

  /** The contract every provider keeps: either it fails and leaves the container as it
      was, or it fills exactly its own slot and registers at most one callback. */
  predicate Disciplined(s: Slots, e: Effect, slot: SlotName)
  {
    if e.status.Success? then
      e.services == Overwrite(s, e.services, slot) && Holds(e.services, slot) && |e.registered| <= 1
    else
      e.services == s && e.registered == []
  }

  /** The slot a provider fills. */
  function OwnSlot(p: Provider): SlotName
    requires !p.NilProvider?
  {
    match p
    case LoggerProvider(_, _, _, _) => LoggerSlot
    case CloudStorageProvider(_) => StorageSlot
    case MongoDBProvider(_, _) => MongoSlot
    case CustomServiceProvider(_) => CustomSlot
    case MyServiceProvider(_) => MyServiceSlot
  }

  /** The format switch of the logger provider: "json" gives the JSON encoder with lowercase
      levels, "text" and "" the console encoder with capitalised levels, anything else none. */
  function EncoderFor(format: LogFormat): (r: Option<Encoder>)
    ensures r.Some? <==> format in {LogFormatJSON, LogFormatText, ""}
    ensures r == Some(JSONEncoder(LowercaseLevels)) <==> format == LogFormatJSON
    ensures r == Some(ConsoleEncoder(CapitalLevels)) <==> format in {LogFormatText, ""}
  {
    if format == LogFormatJSON then Some(JSONEncoder(LowercaseLevels))
    else if format == LogFormatText || format == "" then Some(ConsoleEncoder(CapitalLevels))
    else None
  }

  /** The logger provider: an unsupported format fails before anything is built; otherwise
      the logger goes into its slot and a callback that syncs it is registered. */
  function LoggerStep(format: LogFormat, level: Level, out: Writer, opts: seq<ZapOption>, s: Slots): (e: Effect)
    ensures Disciplined(s, e, LoggerSlot)
    ensures e.status.Success? <==> EncoderFor(format).Some?
    ensures e.status.Failure? ==> e.status.error == "unsupported log format \"" + format + "\""
    ensures e.status.Success? ==>
      var logger := ZapLogger(EncoderFor(format).value, level, out, opts);
      e.services.log == Some(logger) && e.registered == [SyncLogger(logger)]
  {
    match EncoderFor(format)
    case None => Effect(Failure("unsupported log format \"" + format + "\""), s, [])
    case Some(enc) =>
      var logger := ZapLogger(enc, level, out, opts);
      Effect(Success, s.(log := Some(logger)), [SyncLogger(logger)])
  }

  /** The cloud storage provider: a client error comes back prefixed; a client goes into its
      slot and nothing is registered. */
  function CloudStorageStep(newClient: Result<StorageClient>, s: Slots): (e: Effect)
    ensures Disciplined(s, e, StorageSlot)
    ensures e.registered == []
    ensures e.status.Success? <==> newClient.Ok?
    ensures newClient.Err? ==> e.status == Failure("cloud storage service: " + newClient.error)
    ensures newClient.Ok? ==> e.services.gcs == Some(newClient.value)
  {
    match newClient
    case Err(msg) => Effect(Failure("cloud storage service: " + msg), s, [])
    case Ok(client) => Effect(Success, s.(gcs := Some(client)), [])
  }

  /** The MongoDB provider: a driver error comes back prefixed; a client goes into its slot
      and a callback that disconnects it is registered. */
  function MongoDBStep(mongoOptions: MongoOptions, connect: MongoOptions -> Result<MongoClient>, s: Slots): (e: Effect)
    ensures Disciplined(s, e, MongoSlot)
    ensures e.status.Success? <==> connect(mongoOptions).Ok?
    ensures connect(mongoOptions).Err? ==> e.status == Failure("mongodb service: " + connect(mongoOptions).error)
    ensures connect(mongoOptions).Ok? ==>
      var client := connect(mongoOptions).value;
      e.services.mgo == Some(client) && e.registered == [DisconnectMongo(client)]
  {
    match connect(mongoOptions)
    case Err(msg) => Effect(Failure("mongodb service: " + msg), s, [])
    case Ok(client) => Effect(Success, s.(mgo := Some(client)), [DisconnectMongo(client)])
  }

  /** The custom service provider: an empty bucket name is an error; otherwise the service is
      built from the MongoDB and logger slots as they are now and a handle on the bucket.
      Nothing is registered. */
  function CustomServiceStep(bucket: string, s: Slots): (e: Effect)
    ensures Disciplined(s, e, CustomSlot)
    ensures e.registered == []
    ensures e.status == Failure(BucketRequired) <==> bucket == ""
    ensures e.status.Panic? <==> bucket != "" && s.gcs.None?
    ensures e.status.Success? ==>
      e.services.csm == Some(CustomService(s.mgo, s.log, BucketHandle(s.gcs.value, bucket)))
  {
    if bucket == "" then Effect(Failure(BucketRequired), s, [])
    else
      match StorageBucket(s.gcs, bucket)
      case None => Effect(Panic(NilPointer), s, [])
      case Some(bkt) => Effect(Success, s.(csm := Some(CustomService(s.mgo, s.log, bkt))), [])
  }

  /** The MyService provider: an empty configured bucket is an error; otherwise the service is
      built from the MongoDB and logger slots and the container's bucket handle. Nothing is
      registered. */
  function MyServiceStep(cfg: AppConfig.Config, s: Slots): (e: Effect)
    ensures Disciplined(s, e, MyServiceSlot)
    ensures e.registered == []
    ensures e.status == Failure(BucketRequired) <==> cfg.bucket == ""
    ensures e.status.Panic? <==> cfg.bucket != "" && s.gcs.None?
    ensures e.status.Success? ==>
      e.services.svc == Some(MyService(s.mgo, s.log, BucketHandle(s.gcs.value, cfg.bucket)))
  {
    if cfg.bucket == "" then Effect(Failure(BucketRequired), s, [])
    else
      match StorageBucket(s.gcs, cfg.bucket)
      case None => Effect(Panic(NilPointer), s, [])
      case Some(bkt) => Effect(Success, s.(svc := Some(MyService(s.mgo, s.log, bkt))), [])
  }

  /** Invoking a (non-nil) provider. */
  function Step(p: Provider, s: Slots): (e: Effect)
    requires !p.NilProvider?
    ensures Disciplined(s, e, OwnSlot(p))
  {
    match p
    case LoggerProvider(f, l, w, zs) => LoggerStep(f, l, w, zs, s)
    case CloudStorageProvider(r) => CloudStorageStep(r, s)
    case MongoDBProvider(o, c) => MongoDBStep(o, c, s)
    case CustomServiceProvider(b) => CustomServiceStep(b, s)
    case MyServiceProvider(cfg) => MyServiceStep(cfg, s)
  }

  /** The container state after an invocation with effect e. */
  function AfterEffect(st: ContainerState, e: Effect): ContainerState
  {
    st.(slots := e.services, pending := st.pending + e.registered)
  }

  /** The container now is what `before` becomes under e, and `status` is e's. */
  ghost predicate Performed(cnt: Container, before: ContainerState, e: Effect, status: Status)
    reads cnt, cnt.handler
  {
    status == e.status && cnt.Model() == AfterEffect(before, e)
  }

  /** Logger: folds the options over the default configuration when the provider is made,
      falling back to stdout when no output was given. */
  method Logger(opts: seq<LoggerOption>) returns (p: Provider)
    ensures p == LoggerFor(opts)
    ensures p.out == (if Latest(opts, OutputKind).Some? && Latest(opts, OutputKind).value.out.Some?
                      then Latest(opts, OutputKind).value.out.value else Stdout)
  {
    var cfg := new LoggerConfig();
    for i := 0 to |opts|
      invariant AppliedAll(cfg.Current(), opts[i..]) == AppliedAll(DefaultSettings, opts)
    {
      assert opts[i..][1..] == opts[i + 1..];
      cfg.Apply(opts[i]);
    }
    assert opts[|opts|..] == [];
    if cfg.out.None? {
      cfg.out := Some(Stdout);
    }
    p := LoggerProvider(cfg.format, cfg.level, cfg.out.value, cfg.opts);
    LatestOptionWins(DefaultSettings, opts);
  }

  /** The provider Logger makes from a list of options. */
  function LoggerFor(opts: seq<LoggerOption>): Provider
  {
    var s := AppliedAll(DefaultSettings, opts);
    LoggerProvider(s.format, s.level, if s.out.Some? then s.out.value else Stdout, s.opts)
  }

  /** The closure returned by Logger. */
  method RunLogger(cnt: Container, format: LogFormat, level: Level, out: Writer, opts: seq<ZapOption>)
    returns (status: Status)
    modifies cnt, cnt.handler
    ensures Performed(cnt, old(cnt.Model()), LoggerStep(format, level, out, opts, old(cnt.Services())), status)
  {
    var encoder := EncoderFor(format);
    if encoder.None? {
      return Failure("unsupported log format \"" + format + "\"");
    }
    var logger := ZapLogger(encoder.value, level, out, opts);
    cnt.SetLogger(Some(logger));
    cnt.RegisterOnShutdown(Some(SyncLogger(logger)));
    return Success;
  }

  /** The closure returned by CloudStorage. */
  method RunCloudStorage(cnt: Container, newClient: Result<StorageClient>) returns (status: Status)
    modifies cnt
    ensures Performed(cnt, old(cnt.Model()), CloudStorageStep(newClient, old(cnt.Services())), status)
  {
    if newClient.Err? {
      return Failure("cloud storage service: " + newClient.error);
    }
    cnt.SetCloudStorage(Some(newClient.value));
    return Success;
  }

  /** The closure returned by MongoDB. */
  method RunMongoDB(cnt: Container, mongoOptions: MongoOptions, connect: MongoOptions -> Result<MongoClient>)
    returns (status: Status)
    modifies cnt, cnt.handler
    ensures Performed(cnt, old(cnt.Model()), MongoDBStep(mongoOptions, connect, old(cnt.Services())), status)
  {
    var client := connect(mongoOptions);
    if client.Err? {
      return Failure("mongodb service: " + client.error);
    }
    cnt.SetMongoDB(Some(client.value));
    cnt.RegisterOnShutdown(Some(DisconnectMongo(client.value)));
    return Success;
  }

  /** The closure returned by CustomServiceFactory. */
  method RunCustomService(cnt: Container, bucket: string) returns (status: Status)
    modifies cnt
    ensures Performed(cnt, old(cnt.Model()), CustomServiceStep(bucket, old(cnt.Services())), status)
  {
    if bucket == "" {
      return Failure(BucketRequired);
    }
    var bkt := StorageBucket(cnt.CloudStorage(), bucket);
    if bkt.None? {
      return Panic(NilPointer);
    }
    cnt.SetCustomService(Some(CustomService(cnt.MongoDB(), cnt.Logger(), bkt.value)));
    return Success;
  }

  /** The closure returned by MyServiceFactory. */
  method RunMyService(cnt: Container, cfg: AppConfig.Config) returns (status: Status)
    modifies cnt
    ensures Performed(cnt, old(cnt.Model()), MyServiceStep(cfg, old(cnt.Services())), status)
  {
    if cfg.bucket == "" {
      return Failure(BucketRequired);
    }
    var bkt := cnt.Bucket(cfg.bucket);
    if bkt.None? {
      return Panic(NilPointer);
    }
    cnt.SetMyService(Some(MyService(cnt.MongoDB(), cnt.Logger(), bkt.value)));
    return Success;
  }

  /** Calling a provider `fn()`. */
  method Invoke(cnt: Container, p: Provider) returns (status: Status)
    requires !p.NilProvider?
    modifies cnt, cnt.handler
    ensures Performed(cnt, old(cnt.Model()), Step(p, old(cnt.Services())), status)
  {
    match p
    case LoggerProvider(f, l, w, zs) => status := RunLogger(cnt, f, l, w, zs);
    case CloudStorageProvider(r) => status := RunCloudStorage(cnt, r);
    case MongoDBProvider(o, c) => status := RunMongoDB(cnt, o, c);
    case CustomServiceProvider(b) => status := RunCustomService(cnt, b);
    case MyServiceProvider(cfg) => status := RunMyService(cnt, cfg);
  }
}
