/** Wire of internal/service/container.go, which runs providers in order and unwinds on the
    first failure, and NewContainer of cmd/my-application/app/service/container.go, which fixes
    the application's provider list. WireSpec says what wiring does; Wire does it on a
    container and is proved to match it. */
module Wiring {
  import opened Basics
  import opened Clients
  import opened Shutdown
  import opened LoggerOptions
  import AppConfig
  import opened AppContainer
  import opened Providers

  const NilProviderMessage := "provider function cannot be nil"

  /** The outcome of wiring: its status, the container state afterwards, and how many
      providers were invoked. */
  datatype Wiring = Wiring(status: Status, state: ContainerState, ran: nat)

  function Shifted(w: Wiring, n: nat): Wiring
  {
    w.(ran := w.ran + n)
  }

  /** Running the providers `sp` on a container in state `st`. A nil provider unwinds the
      container and panics; a failing provider unwinds it and returns its error; a provider
      that panics propagates the panic without unwinding anything. */
  function WireSpec(st: ContainerState, sp: seq<Provider>): (w: Wiring)
    ensures w.ran <= |sp|
    ensures forall i :: 0 <= i < w.ran ==> !sp[i].NilProvider?
    ensures w.status.Success? ==> w.ran == |sp| && w.state.invoked == st.invoked
    ensures w.status.Success? ==> st.pending <= w.state.pending
    ensures w.status.Failure? ==> 0 < w.ran && w.state.pending == []
    ensures st.invoked <= w.state.invoked
    decreases |sp|
  {
    if sp == [] then Wiring(Success, st, 0)
    else if sp[0].NilProvider? then Wiring(Panic(NilProviderMessage), Unwound(st), 0)
    else
      var e := Step(sp[0], st.slots);
      match e.status
      case Success => Shifted(WireSpec(AfterEffect(st, e), sp[1..]), 1)
      case Failure(msg) => Wiring(e.status, Unwound(st), 1)
      case Panic(msg) => Wiring(e.status, st, 1)
  }

  /** Wire: invokes the providers one at a time, in order, and stops at the first nil or
      failing one. */
  method Wire(cnt: Container, sp: seq<Provider>) returns (status: Status, ghost ran: nat)
    modifies cnt, cnt.handler
    ensures Wiring(status, cnt.Model(), ran) == WireSpec(old(cnt.Model()), sp)
  {
    ran := 0;
    var i := 0;
    while i < |sp|
      invariant 0 <= i <= |sp| && ran == i
      invariant WireSpec(old(cnt.Model()), sp) == Shifted(WireSpec(cnt.Model(), sp[i..]), i)
    {
      var fn := sp[i];
      assert sp[i..][1..] == sp[i + 1..];
      if fn.NilProvider? {
        cnt.Shutdown();
        return Panic(NilProviderMessage), ran;
      }
      status := Invoke(cnt, fn);
      ran := ran + 1;
      if status.Failure? {
        cnt.Shutdown();
        return;
      }
      if status.Panic? {
        return;
      }
      i := i + 1;
    }
    return Success, ran;
  }

  /** Wiring a list in two parts: the second part runs only if the first succeeded, on the
      state the first left behind. */
  lemma {:induction false} WireAppend(st: ContainerState, a: seq<Provider>, b: seq<Provider>)
    ensures WireSpec(st, a + b) ==
      var w := WireSpec(st, a);
      if w.status.Success? then Shifted(WireSpec(w.state, b), |a|) else w
    decreases |a|
  {
    if a == [] {
      assert a + b == b;
    } else {
      assert (a + b)[0] == a[0];
      assert (a + b)[1..] == a[1..] + b;
      if !a[0].NilProvider? {
        var e := Step(a[0], st.slots);
        if e.status.Success? {
          WireAppend(AfterEffect(st, e), a[1..], b);
        }
      }
    }
  }

  /** When the providers before k all succeed and provider k is nil, fails or panics, wiring
      stops at k: the providers after k never run. A nil provider unwinds what the earlier
      ones registered and panics; a failure unwinds it and returns provider k's error as it
      is; a panic inside provider k leaves the registrations pending. */
  lemma {:induction false} WireStopsAt(st: ContainerState, sp: seq<Provider>, k: nat)
    requires k < |sp|
    requires WireSpec(st, sp[..k]).status.Success?
    requires !sp[k].NilProvider? ==> !Step(sp[k], WireSpec(st, sp[..k]).state.slots).status.Success?
    ensures var mid := WireSpec(st, sp[..k]).state;
      && mid.invoked == st.invoked
      && (sp[k].NilProvider? ==> WireSpec(st, sp) == Wiring(Panic(NilProviderMessage), Unwound(mid), k))
      && (!sp[k].NilProvider? && Step(sp[k], mid.slots).status.Failure? ==>
            WireSpec(st, sp) == Wiring(Step(sp[k], mid.slots).status, Unwound(mid), k + 1))
      && (!sp[k].NilProvider? && Step(sp[k], mid.slots).status.Panic? ==>
            WireSpec(st, sp) == Wiring(Step(sp[k], mid.slots).status, mid, k + 1))
  {
    assert sp == sp[..k] + sp[k..];
    WireAppend(st, sp[..k], sp[k..]);
    assert sp[k..][0] == sp[k];
  }

  /** On a returned error nothing leaks: the callbacks pending when the failing provider
      ran are all invoked, last registered first, and none remain. */
  lemma {:induction false} WireFailureUnwindsAll(st: ContainerState, sp: seq<Provider>)
    requires WireSpec(st, sp).status.Failure?
    ensures var w := WireSpec(st, sp);
      && w.state.pending == []
      && w.state.invoked == st.invoked + Reversed(WireSpec(st, sp[..w.ran - 1]).state.pending)
    decreases |sp|
  {
    var w := WireSpec(st, sp);
    var e := Step(sp[0], st.slots);
    if e.status.Success? {
      var st1 := AfterEffect(st, e);
      WireFailureUnwindsAll(st1, sp[1..]);
      var r := WireSpec(st1, sp[1..]).ran;
      assert sp[..w.ran - 1][1..] == sp[1..][..r - 1];
    } else {
      assert sp[..w.ran - 1] == [];
    }
  }

  /** buildLoggerOptions: the configured format and level, then extra fields naming the
      environment and an error output on stderr. */
  function BuildLoggerOptions(cfg: AppConfig.Config): seq<LoggerOption>
  {
    [WithFormat(cfg.logFormat), WithLevel(cfg.logLevel), WithOptions([Fields("env", cfg.env), ErrorOutput(Stderr)])]
  }

  /** The logger the application's logger provider builds when the format is supported. */
  function AppLogger(cfg: AppConfig.Config): ZapLogger
    requires EncoderFor(cfg.logFormat).Some?
  {
    ZapLogger(EncoderFor(cfg.logFormat).value, cfg.logLevel, Stdout, [Fields("env", cfg.env), ErrorOutput(Stderr)])
  }

  lemma AppLoggerProvider(cfg: AppConfig.Config)
    ensures LoggerFor(BuildLoggerOptions(cfg)) ==
      LoggerProvider(cfg.logFormat, cfg.logLevel, Stdout, [Fields("env", cfg.env), ErrorOutput(Stderr)])
  {
    var opts := BuildLoggerOptions(cfg);
    var s1 := Applied(DefaultSettings, opts[0]);
    var s2 := Applied(s1, opts[1]);
    var s3 := Applied(s2, opts[2]);
    assert opts[1..][0] == opts[1] && opts[1..][1..][0] == opts[2] && opts[1..][1..][1..] == [];
    assert AppliedAll(DefaultSettings, opts) == AppliedAll(s1, opts[1..]);
    assert AppliedAll(s1, opts[1..]) == AppliedAll(s2, opts[1..][1..]);
    assert AppliedAll(s2, opts[1..][1..]) == s3;
  }

  /** The providers NewContainer wires, in order. */
  function AppProviders(cfg: AppConfig.Config, libs: Libraries): seq<Provider>
  {
    [ LoggerFor(BuildLoggerOptions(cfg)),
      CloudStorageProvider(libs.newStorageClient),
      MongoDBProvider(cfg.mongoOptions, libs.newMongoClient),
      CustomServiceProvider(cfg.bucket),
      MyServiceProvider(cfg) ]
  }

  /** What NewContainer's wiring ends in. */
  function AppWiring(cfg: AppConfig.Config, libs: Libraries): Wiring
  {
    WireSpec(FreshState, AppProviders(cfg, libs))
  }

  /** NewContainer: creates an empty container over cfg, wires the five providers in their
      fixed order, and returns the container, or no container and Wire's error. */
  method NewContainer(cfg: AppConfig.Config, libs: Libraries)
    returns (cnt: Container?, err: Option<string>, ghost w: Wiring)
    ensures w == AppWiring(cfg, libs)
    ensures err.Some? <==> w.status.Failure?
    ensures !w.status.Panic?
    ensures err.Some? ==> cnt == null && err.value == w.status.error
    ensures err.None? ==> cnt != null && fresh(cnt) && cnt.Config() == cfg && cnt.Model() == w.state
  {
    var c := new Container(cfg);
    var logger := Logger(BuildLoggerOptions(cfg));
    var sp := [
      logger,
      CloudStorageProvider(libs.newStorageClient),
      MongoDBProvider(cfg.mongoOptions, libs.newMongoClient),
      CustomServiceProvider(cfg.bucket),
      MyServiceProvider(cfg)];
    var status, ran := Wire(c, sp);
    w := Wiring(status, c.Model(), ran);
    AppWiringNeverPanics(cfg, libs);
    if status.Failure? {
      return null, Some(status.error), w;
    }
    return c, None, w;
  }

  /** The five providers' steps, in order, from an empty container. */
  lemma {:induction false} AppWiringSteps(cfg: AppConfig.Config, libs: Libraries)
    ensures var sp := AppProviders(cfg, libs);
      var st0 := FreshState;
      var e1 := Step(sp[0], st0.slots);
      var st1 := AfterEffect(st0, e1);
      var e2 := Step(sp[1], st1.slots);
      var st2 := AfterEffect(st1, e2);
      var e3 := Step(sp[2], st2.slots);
      var st3 := AfterEffect(st2, e3);
      var e4 := Step(sp[3], st3.slots);
      var st4 := AfterEffect(st3, e4);
      var e5 := Step(sp[4], st4.slots);
      AppWiring(cfg, libs) ==
        if !e1.status.Success? then Wiring(e1.status, Unwound(st0), 1)
        else if !e2.status.Success? then Wiring(e2.status, Unwound(st1), 2)
        else if !e3.status.Success? then Wiring(e3.status, Unwound(st2), 3)
        else if !e4.status.Success? then
          (if e4.status.Failure? then Wiring(e4.status, Unwound(st3), 4) else Wiring(e4.status, st3, 4))
        else if !e5.status.Success? then
          (if e5.status.Failure? then Wiring(e5.status, Unwound(st4), 5) else Wiring(e5.status, st4, 5))
        else Wiring(Success, AfterEffect(st4, e5), 5)
  {
    var sp := AppProviders(cfg, libs);
    var sp1, sp2, sp3, sp4 := sp[1..], sp[2..], sp[3..], sp[4..];
    assert sp1[0] == sp[1] && sp1[1..] == sp2 && sp2[0] == sp[2] && sp2[1..] == sp3;
    assert sp3[0] == sp[3] && sp3[1..] == sp4 && sp4[0] == sp[4] && sp4[1..] == [];
    var st0 := FreshState;
    var e1 := Step(sp[0], st0.slots);
    if !e1.status.Success? {
      return;
    }
    var st1 := AfterEffect(st0, e1);
    assert WireSpec(st0, sp) == Shifted(WireSpec(st1, sp1), 1);
    var e2 := Step(sp[1], st1.slots);
    if !e2.status.Success? {
      return;
    }
    var st2 := AfterEffect(st1, e2);
    assert WireSpec(st1, sp1) == Shifted(WireSpec(st2, sp2), 1);
    var e3 := Step(sp[2], st2.slots);
    if !e3.status.Success? {
      return;
    }
    var st3 := AfterEffect(st2, e3);
    assert WireSpec(st2, sp2) == Shifted(WireSpec(st3, sp3), 1);
    var e4 := Step(sp[3], st3.slots);
    if !e4.status.Success? {
      return;
    }
    var st4 := AfterEffect(st3, e4);
    assert WireSpec(st3, sp3) == Shifted(WireSpec(st4, sp4), 1);
    var e5 := Step(sp[4], st4.slots);
    if !e5.status.Success? {
      return;
    }
    assert WireSpec(st4, sp4) == Shifted(WireSpec(AfterEffect(st4, e5), []), 1);
  }

  /** The application's list never panics: no entry is nil, and the storage client is in
      place, or wiring has already stopped, before any provider asks it for a bucket. */
  lemma AppWiringNeverPanics(cfg: AppConfig.Config, libs: Libraries)
    ensures !AppWiring(cfg, libs).status.Panic?
  {
    AppWiringSteps(cfg, libs);
  }

  /** With a supported log format and both clients available, a non-empty bucket wires all
      five services: every slot is filled, the logger sync and the MongoDB disconnect are
      pending in that order, and nothing has been torn down. */
  lemma AppWiringSucceeds(cfg: AppConfig.Config, libs: Libraries)
    requires EncoderFor(cfg.logFormat).Some?
    requires libs.newStorageClient.Ok? && libs.newMongoClient(cfg.mongoOptions).Ok?
    requires cfg.bucket != ""
    ensures var w := AppWiring(cfg, libs);
      var logger, mongo := AppLogger(cfg), libs.newMongoClient(cfg.mongoOptions).value;
      var bkt := BucketHandle(libs.newStorageClient.value, cfg.bucket);
      && w.status == Success && w.ran == 5
      && w.state.pending == [SyncLogger(logger), DisconnectMongo(mongo)]
      && w.state.invoked == []
      && w.state.slots == Slots(Some(mongo), Some(libs.newStorageClient.value), Some(logger),
                                Some(CustomService(Some(mongo), Some(logger), bkt)),
                                Some(MyService(Some(mongo), Some(logger), bkt)))
  {
    AppWiringSteps(cfg, libs);
    AppLoggerProvider(cfg);
  }

  /** The canonical failure: with an empty bucket the custom service fails, MyService never
      runs, and the unwind disconnects MongoDB and then syncs the logger. */
  lemma AppWiringEmptyBucket(cfg: AppConfig.Config, libs: Libraries)
    requires EncoderFor(cfg.logFormat).Some?
    requires libs.newStorageClient.Ok? && libs.newMongoClient(cfg.mongoOptions).Ok?
    requires cfg.bucket == ""
    ensures var w := AppWiring(cfg, libs);
      && w.status == Failure(BucketRequired) && w.ran == 4
      && w.state.pending == []
      && w.state.invoked == [DisconnectMongo(libs.newMongoClient(cfg.mongoOptions).value), SyncLogger(AppLogger(cfg))]
      && w.state.slots.csm.None? && w.state.slots.svc.None?
  {
    AppWiringSteps(cfg, libs);
    AppLoggerProvider(cfg);
    var logger, mongo := AppLogger(cfg), libs.newMongoClient(cfg.mongoOptions).value;
    ReversedShort(SyncLogger(logger), DisconnectMongo(mongo));
  }

  /** The earlier failures: an unsupported format fails before anything is registered; a
      storage or MongoDB client error unwinds only the logger. */
  lemma AppWiringEarlyFailures(cfg: AppConfig.Config, libs: Libraries)
    ensures var w := AppWiring(cfg, libs);
      && (EncoderFor(cfg.logFormat).None? ==>
            w == Wiring(Failure("unsupported log format \"" + cfg.logFormat + "\""), FreshState, 1))
      && (EncoderFor(cfg.logFormat).Some? && libs.newStorageClient.Err? ==>
            w.status == Failure("cloud storage service: " + libs.newStorageClient.error)
            && w.ran == 2 && w.state.pending == [] && w.state.invoked == [SyncLogger(AppLogger(cfg))])
      && (EncoderFor(cfg.logFormat).Some? && libs.newStorageClient.Ok? && libs.newMongoClient(cfg.mongoOptions).Err? ==>
            w.status == Failure("mongodb service: " + libs.newMongoClient(cfg.mongoOptions).error)
            && w.ran == 3 && w.state.pending == [] && w.state.invoked == [SyncLogger(AppLogger(cfg))])
  {
    AppWiringSteps(cfg, libs);
    AppLoggerProvider(cfg);
    if EncoderFor(cfg.logFormat).Some? {
      ReversedShort(SyncLogger(AppLogger(cfg)), SyncLogger(AppLogger(cfg)));
    }
  }

  /** A configuration read from the environment always has a format the logger provider
      accepts, so wiring never fails at the logger. */
  lemma EnvConfigLoggerBuilds(env: map<string, string>, parseLevel: string -> Result<Level>, libs: Libraries)
    requires AppConfig.FromEnv(env, parseLevel).Ok?
    ensures EncoderFor(AppConfig.FromEnv(env, parseLevel).value.logFormat).Some?
    ensures AppWiring(AppConfig.FromEnv(env, parseLevel).value, libs).ran >= 2
  {
    var cfg := AppConfig.FromEnv(env, parseLevel).value;
    AppConfig.FromEnvIsValid(env, parseLevel);
    AppWiringSteps(cfg, libs);
    AppLoggerProvider(cfg);
  }
}
