/**
 * Worked scenarios on one proxy, each built from fresh objects: what the
 * caller and the plugins observe, proved from the contracts alone.
 */
module Scenarios {
  import opened Wrappers
  import opened Framework
  import opened ObjectStorePlugin
  import opened Process
  import opened ClientMgmt

  /** A plugin that answers every call with `reply`. */
  function Always(reply: Reply): (seq<Call>, Call) -> Reply
  {
    (history: seq<Call>, c: Call) => reply
  }

  /** Init twice, the second time through InitV2 with another config: the first
      gets through, the second is refused, the first config stays stored, and
      the plugin saw exactly one Init. */
  method InitTwiceKeepsFirst(name: string, first: map<string, string>, second: map<string, string>)
    returns (err1: Option<Error>, err2: Option<Error>, stored: Config, received: seq<Call>)
    ensures err1 == None
    ensures err2 == Some(AlreadyInitialized)
    ensures stored == Some(first)
    ensures received == [Call.Init(Some(first))]
  {
    var plugin := new ObjectStoreClient(Always(Reply(false, Nil, None, "", None)));
    var process := new RestartableProcess(map[KindAndName(PluginKindObjectStoreV2, name) := ObjectStore(plugin)], (n: nat) => Alive);
    var store := new RestartableObjectStore(name, process);
    err1 := store.Init(Some(first));
    err2 := store.InitV2(Nil, Some(second));
    stored := store.config;
    received := plugin.calls;
  }

  /** Init with a nil map reaches the plugin but stores nothing, so a later Init
      with a real config still gets through. */
  method NilInitLeavesProxyOpen(name: string, c: map<string, string>)
    returns (err1: Option<Error>, err2: Option<Error>, stored: Config, received: seq<Call>)
    ensures err1 == None && err2 == None
    ensures stored == Some(c)
    ensures received == [Call.Init(None), Call.Init(Some(c))]
  {
    var plugin := new ObjectStoreClient(Always(Reply(false, Nil, None, "", None)));
    var process := new RestartableProcess(map[KindAndName(PluginKindObjectStoreV2, name) := ObjectStore(plugin)], (n: nat) => Alive);
    var store := new RestartableObjectStore(name, process);
    err1 := store.Init(None);
    err2 := store.Init(Some(c));
    stored := store.config;
    received := plugin.calls;
  }

  /** A restart fails under GetObject: its error comes back with a nil body,
      the plugin is not looked up and not called. */
  method FailedRestartShortCircuits(name: string, bucket: string, objectKey: string)
    returns (body: Handle, err: Option<Error>, received: seq<Call>, lookups: seq<KindAndName>, resets: nat)
    ensures body == Nil && err == Some(ProcessError("plugin process exited"))
    ensures received == [] && lookups == [] && resets == 1
  {
    var plugin := new ObjectStoreClient(Always(Reply(true, Handle(7), None, "", None)));
    var process := new RestartableProcess(map[KindAndName(PluginKindObjectStoreV2, name) := ObjectStore(plugin)],
      (n: nat) => RestartFailed(ProcessError("plugin process exited")));
    var store := new RestartableObjectStore(name, process);
    body, err := store.GetObject(bucket, objectKey);
    received, lookups, resets := plugin.calls, process.lookups, process.resetCalls;
  }

  /** After Init(c), replaying on a freshly dispensed plugin sends it exactly
      Init(c) and returns its answer; the old plugin saw only the first Init. */
  method ReplaySendsStoredConfig(name: string, c: map<string, string>)
    returns (replayErr: Option<Error>, oldCalls: seq<Call>, newCalls: seq<Call>)
    ensures replayErr == Some(PluginError("bucket not found"))
    ensures oldCalls == [Call.Init(Some(c))]
    ensures newCalls == [Call.Init(Some(c))]
  {
    var before := new ObjectStoreClient(Always(Reply(false, Nil, None, "", None)));
    var after := new ObjectStoreClient(Always(Reply(false, Nil, None, "", Some(PluginError("bucket not found")))));
    var process := new RestartableProcess(map[KindAndName(PluginKindObjectStoreV2, name) := ObjectStore(before)], (n: nat) => Alive);
    var store := new RestartableObjectStore(name, process);
    var initErr := store.Init(Some(c));
    replayErr := store.Reinitialize(ObjectStore(after));
    oldCalls := before.calls;
    newCalls := after.calls;
  }

  /** The process restarts onto a new plugin under GetObject: the call reaches
      only the new plugin and returns its answer unchanged. */
  method RestartForwardsToNewPlugin(name: string, bucket: string, objectKey: string)
    returns (body: Handle, err: Option<Error>, oldCalls: seq<Call>, newCalls: seq<Call>, lookups: seq<KindAndName>)
    ensures body == Handle(7) && err == None
    ensures oldCalls == []
    ensures newCalls == [Call.GetObject(bucket, objectKey)]
    ensures lookups == [KindAndName(PluginKindObjectStoreV2, name)]
  {
    var before := new ObjectStoreClient(Always(Reply(false, Nil, None, "", None)));
    var after := new ObjectStoreClient(Always(Reply(false, Handle(7), None, "", None)));
    var key := KindAndName(PluginKindObjectStoreV2, name);
    var restarted := map[key := ObjectStore(after)];
    var process := new RestartableProcess(map[key := ObjectStore(before)], (n: nat) => Restarted(restarted));
    var store := new RestartableObjectStore(name, process);
    body, err := store.GetObject(bucket, objectKey);
    oldCalls, newCalls, lookups := before.calls, after.calls, process.lookups;
  }
}
