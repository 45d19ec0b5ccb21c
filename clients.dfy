/** Opaque stand-ins for the third-party libraries the services wrap: the zap logger,
    the MongoDB driver and the Google Cloud Storage client. Only what the repository's
    own code observes of them is kept: identities, the pieces a logger is built from,
    and whether construction succeeds. */
module Clients {
  import opened Basics

  /** zapcore.Level is a signed 8-bit integer. */
  newtype Level = l: int | -128 <= l < 128

  /** zapcore.InfoLevel. */
  const InfoLevel: Level := 0

  /** An io.Writer a logger can write to. */
  datatype Writer = Stdout | Stderr | OtherWriter(id: nat)

  /** A zap.Option: extra fields, an error-output sink, or any other option. */
  datatype ZapOption = Fields(key: string, value: string) | ErrorOutput(sink: Writer) | OtherOption(id: nat)

  /** How an encoder writes the level of an entry. */
  datatype LevelEncoding = LowercaseLevels | CapitalLevels

  /** The zapcore encoder a logger is built with. */
  datatype Encoder = JSONEncoder(levels: LevelEncoding) | ConsoleEncoder(levels: LevelEncoding)

  /** A *zap.Logger, identified by everything it was built from. */
  datatype ZapLogger = ZapLogger(encoder: Encoder, level: Level, out: Writer, opts: seq<ZapOption>)

  /** A *mongo.Client. */
  datatype MongoClient = MongoClient(id: nat)

  /** *options.ClientOptions: the base options (which carry the application name) with the
      connection URIs applied to them, oldest first. */
  datatype MongoOptions = MongoOptions(uris: seq<string>)

  /** The base client options, before any URI is applied. */
  const BaseMongoOptions := MongoOptions([])

  /** ClientOptions.ApplyURI: the URI is recorded on the options; parsing it is the driver's business. */
  function ApplyURI(o: MongoOptions, uri: string): MongoOptions
  {
    o.(uris := o.uris + [uri])
  }

  /** A *storage.Client. */
  datatype StorageClient = StorageClient(id: nat)

  /** A *storage.BucketHandle. */
  datatype BucketHandle = BucketHandle(client: StorageClient, name: string)

  /** (*storage.Client).Bucket: None stands for calling it on a nil client, which
      dereferences the nil pointer and panics. */
  function StorageBucket(client: Option<StorageClient>, name: string): (h: Option<BucketHandle>)
    ensures h.Some? <==> client.Some?
    ensures h.Some? ==> h.value.client == client.value && h.value.name == name
  {
    match client
    case None => None
    case Some(c) => Some(BucketHandle(c, name))
  }

  /** What the client libraries answer when asked for a client: mongo.NewClient as a function of
      the options, storage.NewClient for the fixed options the application passes. */
  datatype Libraries = Libraries(
    newMongoClient: MongoOptions -> Result<MongoClient>,
    newStorageClient: Result<StorageClient>)
}
