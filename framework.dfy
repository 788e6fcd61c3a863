/**
 * The values that cross the object-store proxy: plugin keys, configurations,
 * errors, the calls a plugin receives and the answers it gives.
 */
module Framework {
  import opened Wrappers

  /** The plugin kinds of the plugin framework; only the object-store kinds matter here. */
  datatype PluginKind =
    | PluginKindObjectStore
    | PluginKindObjectStoreV2
    | OtherPluginKind(kind: string)

  /** `kindAndName`: the key under which a plugin is registered with its process. */
  datatype KindAndName = KindAndName(kind: PluginKind, name: string)

  /** A Go `map[string]string`; a nil map is `None`, an empty non-nil map is `Some(map[])`. */
  type Config = Option<map<string, string>>

  /** An opaque interface value the proxy only passes on (io.Reader, io.ReadCloser,
      context.Context); `Nil` is Go's nil interface. */
  datatype Handle = Nil | Handle(id: nat)

  /** `time.Duration`, passed on untouched. */
  type Duration = int

  datatype Error =
    /** "already initialized", raised by Init */
    | AlreadyInitialized
    /** "%T is not a ObjectStore!", raised when a dispensed value is not an object store */
    | NotAnObjectStore(typeName: string)
    /** the process could not dispense a plugin for this key */
    | NotDispensed(key: KindAndName)
    /** any other error of the shared plugin process, e.g. a failed restart */
    | ProcessError(message: string)
    /** an error the plugin itself returned */
    | PluginError(message: string)

  /** One call of the object store plugin interface, with its arguments. */
  datatype Call =
    | Init(config: Config)
    | PutObject(bucket: string, key: string, body: Handle)
    | ObjectExists(bucket: string, key: string)
    | GetObject(bucket: string, key: string)
    | ListCommonPrefixes(bucket: string, prefix: string, delimiter: string)
    | ListObjects(bucket: string, prefix: string)
    | DeleteObject(bucket: string, key: string)
    | CreateSignedURL(bucket: string, key: string, ttl: Duration)
    | PutObjectV2(ctx: Handle, bucket: string, key: string, body: Handle)
    | ObjectExistsV2(ctx: Handle, bucket: string, key: string)
    | GetObjectV2(ctx: Handle, bucket: string, key: string)
    | ListCommonPrefixesV2(ctx: Handle, bucket: string, prefix: string, delimiter: string)
    | ListObjectsV2(ctx: Handle, bucket: string, prefix: string)
    | DeleteObjectV2(ctx: Handle, bucket: string, key: string)
    | CreateSignedURLV2(ctx: Handle, bucket: string, key: string, ttl: Duration)

  /**
   * What a call returns. Each Go method returns the error and at most one of
   * the other components: ObjectExists the flag, GetObject the stream,
   * the two List calls the names (a nil slice is `None`), CreateSignedURL the URL.
   */
  datatype Reply = Reply(found: bool, body: Handle, names: Option<seq<string>>, url: string, err: Option<Error>)

  /** Go's zero values (false, nil, nil, "") together with an error. */
  function ZeroReply(e: Error): Reply {
    Reply(false, Nil, None, "", Some(e))
  }

  /** The value behind the `interface{}` a process dispenses for a key: either an
      object store (of type D) or something else, known by its dynamic type name. */
  datatype Dispensed<D> = ObjectStore(store: D) | NotObjectStore(typeName: string)
}
