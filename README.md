# Service container lifecycle, modelled in Dafny

This project models the service container of the `service-container-example` repository:
a Go process that reads its configuration from environment variables, builds a logger, a
MongoDB client, a Google Cloud Storage client and two derived services through an ordered
list of providers, keeps them in a container, and tears them down in reverse order.

What is modelled, by module:

- `Shutdown` (internal/service/container.go): the `ShutdownHandler` class. Its
  `onShutdown` list grows only by appending, until `Shutdown` walks it from the last entry
  to the first and then clears it. Callbacks are identifiers (`DisconnectMongo`,
  `SyncLogger`), and a ghost `invoked` field records every callback invoked.
- `LoggerOptions` (internal/service/logger.go): the default logger configuration and the
  four options. Each option is a constructor of `LoggerOption`, and applying one updates a
  `LoggerConfig` object in place. The lemma `LatestOptionWins` proves that the last option
  of each kind decides its field.
- `AppConfig` (cmd/my-application/app/config): the defaults, the two closed-set parsers,
  and `NewFromEnv`. The method walks the keys in their fixed order, skips empty variables,
  and returns the first error. `ExpectedFromEnv` defines the same result field by field,
  and `FromEnvMatchesExpected` proves the two agree.
- `AppContainer` (cmd/my-application/app/service/container.go): the `Container` class.
  It has one slot per service, the configuration, and an embedded `ShutdownHandler`
  to which `RegisterOnShutdown` and `Shutdown` are forwarded. Nil pointers are `None`.
- `Providers` (internal/service/service.go, custom_service.go and
  cmd/my-application/app/service/my_service.go): each provider closure is a `Provider`
  value. A pure function (`LoggerStep`, `MongoDBStep`, …) says what invoking it does:
  its status, the slots afterwards, and the callbacks it registers. A `Run…` method
  performs the step on a `Container` through its setters and `RegisterOnShutdown`, and is
  proved to match the function. `Step` proves the shared contract (`Disciplined`):
  a provider either fails and leaves the container as it was, or fills exactly its own
  slot and registers at most one callback.
- `Wiring` (Wire in internal/service/container.go, NewContainer in
  cmd/my-application/app/service/container.go): `WireSpec` says what running a provider
  list does. The `Wire` method does it on a container and is proved to match `WireSpec`.
  `NewContainer` builds the fixed list Logger, CloudStorage, MongoDB, CustomService,
  MyService. The lemmas cover all of its outcomes, including the empty-bucket failure,
  whose unwind disconnects MongoDB and then syncs the logger.

Go panics are modelled in two ways. `RegisterOnShutdown(nil)` is a precondition
(`requires fn.Some?`), because no caller can recover from it. `Wire` returns a `Panic`
status, distinct from `Failure`, for its two panicking paths:

- A nil provider: the container is shut down first, then Wire aborts.
- A provider that asks a nil storage client for a bucket, which the model assumes panics:
  this happens when `CustomService` or `MyService` runs before `CloudStorage`. Wire does
  not recover the panic, so nothing is unwound and the callbacks registered so far stay
  pending.

The repository's own provider order never reaches the second case; `AppWiringNeverPanics`
proves it. So the guarantee that a provider's returned error leaks no registered callback
holds (`WireFailureUnwindsAll`). A provider that panics gets no such guarantee.

External collaborators are inputs:

- The environment is a `map<string, string>`, where an unset key reads as `""`.
- zap's level parser (`Level.Set`) is a function parameter `string -> Result<Level>`.
- `mongo.NewClient` is a function of the client options, held in `Libraries`.
- `storage.NewClient` is a fixed answer, also held in `Libraries`.
- `ApplyURI` records the URI on the options.

## Model

| member | source | states |
|---|---|---|
| `Shutdown.ShutdownHandler.RegisterOnShutdown` | internal/service/container.go:38-46 | a nil callback is a fatal misuse (precondition); a callback is appended at the end and earlier entries and the invocation trace are unchanged |
| `Shutdown.ShutdownHandler.Shutdown` | internal/service/container.go:48-56 | the trace grows by exactly the registered callbacks in reverse registration order, each once (multiset equality), and the list is empty afterwards; with no registrations nothing is invoked |
| `Shutdown.ShutdownTwice` | internal/service/container.go:53-54 | a second Shutdown invokes nothing and does not fail: two calls leave the trace of one |
| `Shutdown.ReversedMultiset` | internal/service/container.go:50-52 | unwinding invokes every registered callback exactly as often as it was registered |
| `Shutdown.ReversedIndex` | internal/service/container.go:50-52 | the k-th callback invoked is the k-th registered counted from the end |
| `Shutdown.ReversedShort` | internal/service/container.go:50-52 | registrations [A] and [A, B] are unwound as [A] and [B, A] |
| `AppContainer.Unwound` | internal/service/container.go:48-56 | the state after Shutdown: slots untouched, nothing pending, the pending callbacks appended to the trace last-first |
| `AppContainer.UnwoundIdempotent` | internal/service/container.go:53-54 | shutting down an already shut-down container changes nothing |
| `Wiring.WireSpec` | internal/service/container.go:60-73 | only non-nil providers are invoked; on success every provider ran and nothing was unwound, registrations only grew; on a returned error at least one provider ran and nothing is left pending; the trace only grows |
| `Wiring.Wire` | internal/service/container.go:60-73 | the loop's status, resulting container state and number of providers invoked are those of WireSpec |
| `Wiring.WireAppend` | internal/service/container.go:61-71 | providers run strictly in list order: a list split in two runs its second part only after the first part succeeded, on the state the first part left |
| `Wiring.WireStopsAt` | internal/service/container.go:61-70 | if provider k is the first nil or failing one, no later provider runs; a nil provider unwinds everything registered so far and then panics; a failure unwinds it and returns provider k's error unchanged; a panic inside provider k unwinds nothing |
| `Wiring.WireFailureUnwindsAll` | internal/service/container.go:67-70 | on a returned error every callback registered before the failure is invoked, last first, and none remains pending |
| `LoggerOptions.LoggerConfig.constructor` | internal/service/logger.go:43-48 | the default logger configuration is text format, Info level, no output and no zap options |
| `LoggerOptions.LoggerConfig.Apply` | internal/service/logger.go:51-80 | WithLevel, WithFormat, WithOptions and WithOutput each overwrite only their own field; WithFormat stores any string unchecked and WithOptions replaces the option list |
| `LoggerOptions.Latest` | internal/service/service.go:68-71 | the option found is of the requested kind and no later option has that kind; none is found only when no option has it |
| `LoggerOptions.LatestOptionWins` | internal/service/service.go:68-71 | applying options in order leaves each field with the value of the last option of its kind, or its default if there is none |
| `Providers.Logger` | internal/service/service.go:67-75 | the provider carries the folded configuration; its output is the last WithOutput's writer, and stdout when none was configured |
| `Providers.EncoderFor` | internal/service/service.go:90-100 | "json" selects the JSON encoder with lowercase levels; "text" or "" the console encoder with capitalised levels; every other format none |
| `Providers.LoggerStep` | internal/service/service.go:76-111 | an unsupported format fails with `unsupported log format "<f>"`, setting no logger and registering nothing; otherwise the logger slot holds the logger built from the chosen encoder and exactly one sync callback for it is registered |
| `Providers.RunLogger` | internal/service/service.go:76-111 | the provider closure changes the container exactly as LoggerStep says and returns its status |
| `Providers.CloudStorageStep` | internal/service/service.go:47-56 | a client error comes back prefixed `cloud storage service: ` with the container unchanged; a client fills only the storage slot; no callback is ever registered |
| `Providers.RunCloudStorage` | internal/service/service.go:47-56 | the provider closure changes the container exactly as CloudStorageStep says |
| `Providers.MongoDBStep` | internal/service/service.go:25-37 | a driver error comes back prefixed `mongodb service: ` with the container unchanged; a client fills only the MongoDB slot and exactly one disconnect callback for it is registered |
| `Providers.RunMongoDB` | internal/service/service.go:25-37 | the provider closure changes the container exactly as MongoDBStep says |
| `Providers.CustomServiceStep` | internal/service/custom_service.go:29-41 | an empty bucket, and only that, fails with "cloud storage bucket name is required" and writes nothing; otherwise the service holds the container's current MongoDB and logger slots and a handle on the bucket, only the custom-service slot changes, and nothing is registered |
| `Providers.RunCustomService` | internal/service/custom_service.go:29-41 | the provider closure changes the container exactly as CustomServiceStep says |
| `Providers.MyServiceStep` | cmd/my-application/app/service/my_service.go:22-34 | an empty configured bucket, and only that, fails with "cloud storage bucket name is required" and writes nothing; otherwise MyService is built from the current MongoDB and logger slots and the container's bucket handle, only its slot changes, and nothing is registered |
| `Providers.RunMyService` | cmd/my-application/app/service/my_service.go:22-34 | the provider closure changes the container exactly as MyServiceStep says |
| `Providers.Step` | internal/service/container.go:24-26 | every provider either fails and leaves slots and registrations untouched, or fills exactly its own slot and registers at most one callback |
| `Providers.Invoke` | internal/service/container.go:67 | calling a non-nil provider changes the container exactly as Step says and yields its status |
| `AppContainer.Container.constructor` | cmd/my-application/app/service/container.go:36 | a new container holds the given configuration, empty slots and an empty shutdown list |
| `AppContainer.Container.SetMongoDB` | cmd/my-application/app/service/container.go:54-60 | only the MongoDB slot changes, and the getter then returns the value just set |
| `AppContainer.Container.Bucket` | cmd/my-application/app/service/container.go:78-80 | the handle names the requested bucket on the container's own storage client; there is a handle exactly when the storage slot is set, and a nil client gives none (a panic for the provider that asked) |
| `AppContainer.Container.SetCloudStorage` | cmd/my-application/app/service/container.go:62-68 | only the storage slot changes, and the getter then returns the value just set |
| `AppContainer.Container.SetLogger` | cmd/my-application/app/service/container.go:70-76 | only the logger slot changes, and the getter then returns the value just set |
| `AppContainer.Container.SetCustomService` | cmd/my-application/app/service/container.go:82-88 | only the custom-service slot changes, and the getter then returns the value just set |
| `AppContainer.Container.SetMyService` | cmd/my-application/app/service/container.go:90-96 | only the MyService slot changes, and the getter then returns the value just set |
| `AppContainer.Container.RegisterOnShutdown` | cmd/my-application/app/service/container.go:24-25 | the embedded handler's registration: one callback appended, slots and trace unchanged |
| `AppContainer.Container.Shutdown` | cmd/my-application/app/service/container.go:24-25 | the embedded handler's shutdown: the container moves to its unwound state |
| `Wiring.AppLoggerProvider` | cmd/my-application/app/service/container.go:98-106 | the application's logger provider uses the configured format and level, stdout, and the env field plus stderr error output |
| `Wiring.NewContainer` | cmd/my-application/app/service/container.go:35-48 | wires Logger, CloudStorage, MongoDB, CustomService, MyService in that order on a fresh container; wiring never panics; on a Wire error returns no container and that error; otherwise the populated container, whose Config() is the given configuration |
| `Wiring.AppWiringSteps` | cmd/my-application/app/service/container.go:37-44 | the application's wiring stops at the first of its five providers that does not succeed, with that provider's status |
| `Wiring.AppWiringNeverPanics` | cmd/my-application/app/service/container.go:37-43 | the fixed order puts the storage client before both services that need it, so wiring never panics |
| `Wiring.AppWiringSucceeds` | cmd/my-application/app/service/container.go:35-48 | with a supported format, both clients available and a bucket, all five slots are filled with the expected services, and the logger sync and MongoDB disconnect are pending in that order |
| `Wiring.AppWiringEmptyBucket` | cmd/my-application/app/service/container.go:37-45 | with an empty bucket wiring fails at CustomService, MyService never runs, and the unwind is the MongoDB disconnect followed by the logger sync |
| `Wiring.AppWiringEarlyFailures` | cmd/my-application/app/service/container.go:37-45 | an unsupported format fails with nothing registered; a storage or MongoDB client error returns its prefixed error after unwinding only the logger |
| `Wiring.EnvConfigLoggerBuilds` | cmd/my-application/app/config/config_env.go:63-69 | a configuration read from the environment always has a format the logger provider accepts, so wiring gets past the logger |
| `AppConfig.EnvironmentsDistinct` | cmd/my-application/app/config/config.go:11-15 | the four environment constants are pairwise distinct |
| `AppConfig.NewConfig` | cmd/my-application/app/config/config.go:32-39 | the defaults are the local environment, Info level, text format, base client options and an empty bucket, and the parsers accept the default environment and format |
| `AppConfig.ParseEnvironment` | cmd/my-application/app/config/config_env.go:55-61 | accepts exactly local, development, staging and production, unchanged; rejects everything else with `environment "<v>" is not valid` |
| `AppConfig.ParseLogFormat` | cmd/my-application/app/config/config_env.go:63-69 | accepts exactly text and json; anything else, the empty string included, fails with `log format "<v>" is not supported` |
| `AppConfig.ApplyVar` | cmd/my-application/app/config/config_env.go:35-50 | each key writes only its own field; STORAGE_BUCKET is copied verbatim and MONGODB_URI applied to the client options, neither of which can fail |
| `AppConfig.NewFromEnv` | cmd/my-application/app/config/config_env.go:26-53 | the loop over the keys computes FromEnv |
| `AppConfig.FromEnvMatchesExpected` | cmd/my-application/app/config/config_env.go:18-53 | the result is the error of the first set variable, in the order ENV, LOG_LEVEL, LOG_FORMAT, that does not parse; otherwise each field is its variable's value, or the default when the variable is unset or empty |
| `AppConfig.FromEnvIsValid` | cmd/my-application/app/config/config_env.go:37-42 | a configuration read from the environment names a known environment and a supported log format |
| `AppConfig.XmlLogFormatRejected` | cmd/my-application/app/config/config_env.go:41-42 | LOG_FORMAT=xml fails with `log format "xml" is not supported` whenever ENV and LOG_LEVEL are unset or parse |

## Left out

- The `sync.Mutex` in `ShutdownHandler`: concurrency is not modelled. Each method is one atomic step, so the property about concurrent registration is not stated.
- zap encoder and core construction, `zapcore.AddSync`, `zap.New` and `Logger.Sync`: a logger is the record of what it was built from (encoder kind, level, writer, options), and syncing it is the `SyncLogger` callback identifier.
- `mongo.NewClient`, `Client.Disconnect`, `storage.NewClient` and `Client.Bucket`: clients are opaque tokens. Construction is a success-or-error answer supplied in `Libraries`. Errors from `Disconnect` and `Sync` are discarded by the source, so a callback always completes.
- `zapcore.Level.Set` and `ClientOptions.ApplyURI`: level parsing is a function parameter of `NewFromEnv`, and `ApplyURI` only records the URI it was given.
- `os.Getenv`: the environment is a map passed to `NewFromEnv`.
- `app.ID`, `context.Background()` and `option.WithUserAgent`: they only set names and contexts for the client libraries. `app.ID` is not part of this model.
- cmd/my-application/main.go and cmd/my-application/app/app.go: process exit codes, `log.Fatalf`, and a deferred `Shutdown` with a log line.
- `%w` error wrapping: errors are their message strings, and a wrapped error is the prefix followed by the inner message.
- Go capability interfaces and closures: Dafny here has no traits, so every provider works on the one concrete `Container`, and a closure is the `Provider` value naming its factory and what it captured. A provider acts on the container `Wire` is given, which in `NewContainer` is the container it was made for.
- Pointer identity: the derived services and clients are values, so two containers sharing one object are not distinguished.
- `Shutdown.ShutdownHandler.RegisterOnShutdown`: the source panics on a nil callback. The model makes that a precondition, so the panic itself is not represented.
- `Wiring.Wire`: a Go panic does not return. The model returns it as the `Panic` status instead. `NewContainer` never sees that status: its contract excludes it, which `AppWiringNeverPanics` proves.
- `AppContainer.Container.Bucket`: that `(*storage.Client).Bucket` panics on a nil client is an assumption about the storage library. Go allows calling a method on a nil pointer, and whether `Bucket` reads its receiver depends on the library version; the model takes the nil case to be a panic.
