/**
 * restartableObjectStore: an object store for one implementation (such as
 * "aws") that sits in front of a shared, restartable plugin process. Every
 * call except Init first asks the process to restart itself if needed, then
 * looks up the dispensed object store and hands the call on unchanged.
 */
module ClientMgmt {
  import opened Wrappers
  import opened Framework
  import opened ObjectStorePlugin
  import opened Process
  import opened Protocol

  class RestartableObjectStore {
    const key: KindAndName
    const sharedPluginProcess: RestartableProcess
    /** The config passed to Init, replayed after a restart; nil until an Init with a non-nil map reaches a plugin. */
    var config: Config

    /** newRestartableObjectStoreV2: registers the new proxy as the reinitializer for its key. */
    constructor (name: string, sharedPluginProcess: RestartableProcess)
      modifies sharedPluginProcess
      ensures key == KindAndName(PluginKindObjectStoreV2, name)
      ensures this.sharedPluginProcess == sharedPluginProcess
      ensures config == None
      ensures sharedPluginProcess.reinitializers == old(sharedPluginProcess.reinitializers)[key := this]
      ensures sharedPluginProcess.dispensed == old(sharedPluginProcess.dispensed)
      ensures sharedPluginProcess.resetCalls == old(sharedPluginProcess.resetCalls)
      ensures sharedPluginProcess.lookups == old(sharedPluginProcess.lookups)
    {
      key := KindAndName(PluginKindObjectStoreV2, name);
      this.sharedPluginProcess := sharedPluginProcess;
      config := None;
      new;
      sharedPluginProcess.AddReinitializer(key, this);
    }

    /** The object store a forwarding call made now would reach, or its error. */
    ghost function Delegate(): Result<ObjectStoreClient, Error>
      reads this, sharedPluginProcess
    {
      Route(sharedPluginProcess.NextReset(), sharedPluginProcess.dispensed, key)
    }

    /** The object stores a forwarding call made now could reach. */
    ghost function Reachable(): set<ObjectStoreClient>
      reads this, sharedPluginProcess
    {
      Stubs(sharedPluginProcess.RegistryAfterReset())
    }

    /** What a forwarding call `c` made now returns: the delegate's answer as it
        is, or Go's zero values with the error that stopped the call. */
    ghost function Response(c: Call): Reply
      reads this, sharedPluginProcess, Reachable()
    {
      match Delegate()
      case Failure(e) => ZeroReply(e)
      case Success(s) => s.Answer(c)
    }

    /** The effect every forwarding call `c` has on the process and the plugins. */
    twostate predicate Forwarded(stubs: set<ObjectStoreClient>, route: Result<ObjectStoreClient, Error>, c: Call)
      reads this, sharedPluginProcess, stubs
    {
      && sharedPluginProcess.ResetThenLookedUp(key)
      && Delivered(stubs, if route.Success? then Some(route.value) else None, c)
    }

    /** The effect of Init(config): see PlanInit for the decision it makes. */
    twostate predicate Initialized(stubs: set<ObjectStoreClient>, config: Config, new err: Option<Error>)
      reads this, sharedPluginProcess, stubs
    {
      var lookup := old(Lookup(sharedPluginProcess.dispensed, key));
      var plan := PlanInit(old(this.config), lookup);
      && this.config == Apply(old(this.config), InitOp(config, lookup))
      && sharedPluginProcess.LookedUp(if plan.Rejected? then [] else [key])
      && Delivered(stubs, if plan.Forward? then Some(plan.to) else None, Call.Init(config))
      && err == InitError(plan, if plan.Forward? then old(plan.to.Answer(Call.Init(config))).err else None)
    }

    /** reinitialize: replays the stored config on a freshly dispensed value. */
    method Reinitialize(dispensed: Dispensed<ObjectStoreClient>) returns (err: Option<Error>)
      modifies if dispensed.ObjectStore? then {dispensed.store} else {}
      ensures var sent := Sent(config, ReinitializeOp(dispensed));
              Delivered(if dispensed.ObjectStore? then {dispensed.store} else {},
                        if sent == [] then None else Some(sent[0].to), Call.Init(config))
      ensures dispensed.NotObjectStore? ==> err == Some(NotAnObjectStore(dispensed.typeName))
      ensures dispensed.ObjectStore? ==> err == old(dispensed.store.Answer(Call.Init(config))).err
    {
      var objectStore := ObjectStoreOf(Success(dispensed));
      if objectStore.Failure? {
        return Some(objectStore.error);
      }
      err := InitObjectStore(objectStore.value, config);
    }

    /** getObjectStore: looks the plugin up without restarting the process. */
    method GetObjectStore() returns (r: Result<ObjectStoreClient, Error>)
      modifies sharedPluginProcess
      ensures r == ObjectStoreOf(old(Lookup(sharedPluginProcess.dispensed, key)))
      ensures sharedPluginProcess.LookedUp([key])
    {
      var plugin := sharedPluginProcess.GetByKindAndName(key);
      if plugin.Failure? {
        return Failure(plugin.error);
      }
      match plugin.value
      case ObjectStore(s) =>
        r := Success(s);
      case NotObjectStore(t) =>
        r := Failure(NotAnObjectStore(t));
    }

    /** getDelegate: restarts the process if needed, then looks the plugin up. */
    method GetDelegate() returns (r: Result<ObjectStoreClient, Error>)
      modifies sharedPluginProcess
      ensures r == old(Delegate())
      ensures sharedPluginProcess.ResetThenLookedUp(key)
    {
      var err := sharedPluginProcess.ResetIfNeeded();
      if err.Some? {
        return Failure(err.value);
      }
      r := GetObjectStore();
    }

    /** Init: stores config and initializes the plugin with it; may get through
        only once, and never restarts the process. */
    method Init(config: Config) returns (err: Option<Error>)
      modifies this, sharedPluginProcess, Stubs(sharedPluginProcess.dispensed)
      ensures Initialized(old(Stubs(sharedPluginProcess.dispensed)), config, err)
    {
      if this.config.Some? {
        return Some(AlreadyInitialized);
      }
      var delegate := GetObjectStore();
      if delegate.Failure? {
        return Some(delegate.error);
      }
      this.config := config;
      err := InitObjectStore(delegate.value, config);
    }

    /** InitV2: the context is ignored; the same as Init. */
    method InitV2(ctx: Handle, config: Config) returns (err: Option<Error>)
      modifies this, sharedPluginProcess, Stubs(sharedPluginProcess.dispensed)
      ensures Initialized(old(Stubs(sharedPluginProcess.dispensed)), config, err)
    {
      err := Init(config);
    }

    /** init: calls Init(config) on the given object store. */
    method InitObjectStore(objectStore: ObjectStoreClient, config: Config) returns (err: Option<Error>)
      modifies objectStore
      ensures objectStore.calls == old(objectStore.calls) + [Call.Init(config)]
      ensures err == old(objectStore.Answer(Call.Init(config))).err
    {
      var reply := objectStore.Receive(Call.Init(config));
      err := reply.err;
    }

    method PutObject(bucket: string, objectKey: string, body: Handle) returns (err: Option<Error>)
      modifies sharedPluginProcess, Reachable()
      ensures Forwarded(old(Reachable()), old(Delegate()), Call.PutObject(bucket, objectKey, body))
      ensures err == old(Response(Call.PutObject(bucket, objectKey, body))).err
    {
      // the stubs a restart may install were allocated before this call
      assert old(allocated(Reachable()));
      var delegate := GetDelegate();
      if delegate.Failure? {
        return Some(delegate.error);
      }
      var reply := delegate.value.Receive(Call.PutObject(bucket, objectKey, body));
      err := reply.err;
    }

    method ObjectExists(bucket: string, objectKey: string) returns (found: bool, err: Option<Error>)
      modifies sharedPluginProcess, Reachable()
      ensures Forwarded(old(Reachable()), old(Delegate()), Call.ObjectExists(bucket, objectKey))
      ensures found == old(Response(Call.ObjectExists(bucket, objectKey))).found
      ensures err == old(Response(Call.ObjectExists(bucket, objectKey))).err
    {
      assert old(allocated(Reachable()));
      var delegate := GetDelegate();
      if delegate.Failure? {
        return false, Some(delegate.error);
      }
      var reply := delegate.value.Receive(Call.ObjectExists(bucket, objectKey));
      found, err := reply.found, reply.err;
    }

    method GetObject(bucket: string, objectKey: string) returns (body: Handle, err: Option<Error>)
      modifies sharedPluginProcess, Reachable()
      ensures Forwarded(old(Reachable()), old(Delegate()), Call.GetObject(bucket, objectKey))
      ensures body == old(Response(Call.GetObject(bucket, objectKey))).body
      ensures err == old(Response(Call.GetObject(bucket, objectKey))).err
    {
      assert old(allocated(Reachable()));
      var delegate := GetDelegate();
      if delegate.Failure? {
        return Nil, Some(delegate.error);
      }
      var reply := delegate.value.Receive(Call.GetObject(bucket, objectKey));
      body, err := reply.body, reply.err;
    }

    method ListCommonPrefixes(bucket: string, prefix: string, delimiter: string) returns (names: Option<seq<string>>, err: Option<Error>)
      modifies sharedPluginProcess, Reachable()
      ensures Forwarded(old(Reachable()), old(Delegate()), Call.ListCommonPrefixes(bucket, prefix, delimiter))
      ensures names == old(Response(Call.ListCommonPrefixes(bucket, prefix, delimiter))).names
      ensures err == old(Response(Call.ListCommonPrefixes(bucket, prefix, delimiter))).err
    {
      assert old(allocated(Reachable()));
      var delegate := GetDelegate();
      if delegate.Failure? {
        return None, Some(delegate.error);
      }
      var reply := delegate.value.Receive(Call.ListCommonPrefixes(bucket, prefix, delimiter));
      names, err := reply.names, reply.err;
    }

    method ListObjects(bucket: string, prefix: string) returns (names: Option<seq<string>>, err: Option<Error>)
      modifies sharedPluginProcess, Reachable()
      ensures Forwarded(old(Reachable()), old(Delegate()), Call.ListObjects(bucket, prefix))
      ensures names == old(Response(Call.ListObjects(bucket, prefix))).names
      ensures err == old(Response(Call.ListObjects(bucket, prefix))).err
    {
      assert old(allocated(Reachable()));
      var delegate := GetDelegate();
      if delegate.Failure? {
        return None, Some(delegate.error);
      }
      var reply := delegate.value.Receive(Call.ListObjects(bucket, prefix));
      names, err := reply.names, reply.err;
    }

    method DeleteObject(bucket: string, objectKey: string) returns (err: Option<Error>)
      modifies sharedPluginProcess, Reachable()
      ensures Forwarded(old(Reachable()), old(Delegate()), Call.DeleteObject(bucket, objectKey))
      ensures err == old(Response(Call.DeleteObject(bucket, objectKey))).err
    {
      assert old(allocated(Reachable()));
      var delegate := GetDelegate();
      if delegate.Failure? {
        return Some(delegate.error);
      }
      var reply := delegate.value.Receive(Call.DeleteObject(bucket, objectKey));
      err := reply.err;
    }

    method CreateSignedURL(bucket: string, objectKey: string, ttl: Duration) returns (url: string, err: Option<Error>)
      modifies sharedPluginProcess, Reachable()
      ensures Forwarded(old(Reachable()), old(Delegate()), Call.CreateSignedURL(bucket, objectKey, ttl))
      ensures url == old(Response(Call.CreateSignedURL(bucket, objectKey, ttl))).url
      ensures err == old(Response(Call.CreateSignedURL(bucket, objectKey, ttl))).err
    {
      assert old(allocated(Reachable()));
      var delegate := GetDelegate();
      if delegate.Failure? {
        return "", Some(delegate.error);
      }
      var reply := delegate.value.Receive(Call.CreateSignedURL(bucket, objectKey, ttl));
      url, err := reply.url, reply.err;
    }

    // Version 2: the same calls with a context, which is passed on untouched.

    method PutObjectV2(ctx: Handle, bucket: string, objectKey: string, body: Handle) returns (err: Option<Error>)
      modifies sharedPluginProcess, Reachable()
      ensures Forwarded(old(Reachable()), old(Delegate()), Call.PutObjectV2(ctx, bucket, objectKey, body))
      ensures err == old(Response(Call.PutObjectV2(ctx, bucket, objectKey, body))).err
    {
      assert old(allocated(Reachable()));
      var delegate := GetDelegate();
      if delegate.Failure? {
        return Some(delegate.error);
      }
      var reply := delegate.value.Receive(Call.PutObjectV2(ctx, bucket, objectKey, body));
      err := reply.err;
    }

    method ObjectExistsV2(ctx: Handle, bucket: string, objectKey: string) returns (found: bool, err: Option<Error>)
      modifies sharedPluginProcess, Reachable()
      ensures Forwarded(old(Reachable()), old(Delegate()), Call.ObjectExistsV2(ctx, bucket, objectKey))
      ensures found == old(Response(Call.ObjectExistsV2(ctx, bucket, objectKey))).found
      ensures err == old(Response(Call.ObjectExistsV2(ctx, bucket, objectKey))).err
    {
      assert old(allocated(Reachable()));
      var delegate := GetDelegate();
      if delegate.Failure? {
        return false, Some(delegate.error);
      }
      var reply := delegate.value.Receive(Call.ObjectExistsV2(ctx, bucket, objectKey));
      found, err := reply.found, reply.err;
    }

    method GetObjectV2(ctx: Handle, bucket: string, objectKey: string) returns (body: Handle, err: Option<Error>)
      modifies sharedPluginProcess, Reachable()
      ensures Forwarded(old(Reachable()), old(Delegate()), Call.GetObjectV2(ctx, bucket, objectKey))
      ensures body == old(Response(Call.GetObjectV2(ctx, bucket, objectKey))).body
      ensures err == old(Response(Call.GetObjectV2(ctx, bucket, objectKey))).err
    {
      assert old(allocated(Reachable()));
      var delegate := GetDelegate();
      if delegate.Failure? {
        return Nil, Some(delegate.error);
      }
      var reply := delegate.value.Receive(Call.GetObjectV2(ctx, bucket, objectKey));
      body, err := reply.body, reply.err;
    }

    method ListCommonPrefixesV2(ctx: Handle, bucket: string, prefix: string, delimiter: string) returns (names: Option<seq<string>>, err: Option<Error>)
      modifies sharedPluginProcess, Reachable()
      ensures Forwarded(old(Reachable()), old(Delegate()), Call.ListCommonPrefixesV2(ctx, bucket, prefix, delimiter))
      ensures names == old(Response(Call.ListCommonPrefixesV2(ctx, bucket, prefix, delimiter))).names
      ensures err == old(Response(Call.ListCommonPrefixesV2(ctx, bucket, prefix, delimiter))).err
    {
      assert old(allocated(Reachable()));
      var delegate := GetDelegate();
      if delegate.Failure? {
        return None, Some(delegate.error);
      }
      var reply := delegate.value.Receive(Call.ListCommonPrefixesV2(ctx, bucket, prefix, delimiter));
      names, err := reply.names, reply.err;
    }

    method ListObjectsV2(ctx: Handle, bucket: string, prefix: string) returns (names: Option<seq<string>>, err: Option<Error>)
      modifies sharedPluginProcess, Reachable()
      ensures Forwarded(old(Reachable()), old(Delegate()), Call.ListObjectsV2(ctx, bucket, prefix))
      ensures names == old(Response(Call.ListObjectsV2(ctx, bucket, prefix))).names
      ensures err == old(Response(Call.ListObjectsV2(ctx, bucket, prefix))).err
    {
      assert old(allocated(Reachable()));
      var delegate := GetDelegate();
      if delegate.Failure? {
        return None, Some(delegate.error);
      }
      var reply := delegate.value.Receive(Call.ListObjectsV2(ctx, bucket, prefix));
      names, err := reply.names, reply.err;
    }

    method DeleteObjectV2(ctx: Handle, bucket: string, objectKey: string) returns (err: Option<Error>)
      modifies sharedPluginProcess, Reachable()
      ensures Forwarded(old(Reachable()), old(Delegate()), Call.DeleteObjectV2(ctx, bucket, objectKey))
      ensures err == old(Response(Call.DeleteObjectV2(ctx, bucket, objectKey))).err
    {
      assert old(allocated(Reachable()));
      var delegate := GetDelegate();
      if delegate.Failure? {
        return Some(delegate.error);
      }
      var reply := delegate.value.Receive(Call.DeleteObjectV2(ctx, bucket, objectKey));
      err := reply.err;
    }

    method CreateSignedURLV2(ctx: Handle, bucket: string, objectKey: string, ttl: Duration) returns (url: string, err: Option<Error>)
      modifies sharedPluginProcess, Reachable()
      ensures Forwarded(old(Reachable()), old(Delegate()), Call.CreateSignedURLV2(ctx, bucket, objectKey, ttl))
      ensures url == old(Response(Call.CreateSignedURLV2(ctx, bucket, objectKey, ttl))).url
      ensures err == old(Response(Call.CreateSignedURLV2(ctx, bucket, objectKey, ttl))).err
    {
      assert old(allocated(Reachable()));
      var delegate := GetDelegate();
      if delegate.Failure? {
        return "", Some(delegate.error);
      }
      var reply := delegate.value.Receive(Call.CreateSignedURLV2(ctx, bucket, objectKey, ttl));
      url, err := reply.url, reply.err;
    }
  }
}
