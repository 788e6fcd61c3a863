# Restartable object-store proxy

This project models `restartableObjectStore`, the object store that Velero's
plugin client management hands to its controllers. The proxy stands in front
of one object-store plugin (such as "aws") that runs inside a shared plugin
process. That process can die and be restarted. The proxy:

- holds its `kindAndName` key (`PluginKindObjectStoreV2`, name), the shared
  `RestartableProcess`, and the config passed to `Init` (nil until an `Init`
  with a non-nil map reaches a plugin);
- registers itself with the process as the reinitializer for its key when it
  is constructed;
- lets at most one `Init` store a config (`AtMostOneStore`), without
  restarting the process; an `Init(nil)` reaches the plugin and leaves the
  proxy uninitialized;
- replays the stored config on a freshly dispensed plugin in `reinitialize`;
- for every other call, asks the process to reset itself if needed, looks the
  plugin up again and hands the call on unchanged. Any error on the way is
  returned with Go's zero values, and the plugin is not called.

Modules, one per component:

- `Wrappers` (wrappers.dfy): `Option` and `Result`.
- `Framework` (framework.dfy): plugin kinds and keys, configs (a nil Go map is
  `None`), errors, the calls of the object-store plugin interface (`Call`), the
  values they return (`Reply`), and what a process dispenses (`Dispensed`:
  an object store, or a value of another type).
- `ObjectStorePlugin` (object_store_plugin.dfy): `ObjectStoreClient`, a stub
  for the plugin on the other side of the process. It records every call it
  receives, in order, and answers through an oracle field. The plugin's own
  code is not part of this model.
- `Process` (restartable_process.dfy): the `RestartableProcess` interface the
  proxy uses: `addReinitializer`, `resetIfNeeded` and `getByKindAndName`. It
  keeps the reinitializer registry, the registry of dispensed values, a count
  of reset calls, and a log of looked-up keys. What the n-th reset does
  (nothing, a restart that installs a new registry, or a failure) is given by
  an oracle field.
- `Protocol` (protocol.dfy): the decisions the proxy makes, as pure
  functions. It also has lemmas about any sequence of calls on one proxy
  (`Op`): the stored config, and every `Init(config)` call the proxy makes on
  a plugin (`InitMessage`).
- `ClientMgmt` (restartable_object_store.dfy): the proxy class
  `RestartableObjectStore`. Each method is proved against the `Protocol`
  functions and states its whole effect on the process and the plugins.
- `Scenarios` (scenarios.dfy): scenarios on fresh objects, proved from the
  contracts alone.

### Edge cases of the code

- The guard of `Init` is `r.config != nil` (line 94), and line 104 stores
  whatever map it was given. So `Init(nil)` reaches the plugin but leaves the
  proxy uninitialized, and a later `Init` still gets through. `Apply`,
  `NilUntilStored` and `Scenarios.NilInitLeavesProxyOpen` state this.
- `reinitialize` before any `Init` (lines 57-64) sends `Init(nil)` to the new
  plugin. `Sent` and `NilUntilStored` state this.
- The proxy ignores any result of `addReinitializer` (line 51). The model's
  process overwrites an existing entry for the key.

## Model

| member | source | states |
|---|---|---|
| `ClientMgmt.RestartableObjectStore.constructor` | pkg/plugin/clientmgmt/restartable_object_store.go:43-54 | the key is (`PluginKindObjectStoreV2`, name), config is nil, and exactly this proxy is registered under that key; nothing else in the process changes |
| `ClientMgmt.RestartableObjectStore.Reinitialize` | pkg/plugin/clientmgmt/restartable_object_store.go:57-64 | a value that is not an object store gets the "is not a ObjectStore" error and nothing is called; an object store receives exactly `Init(stored config)`, and its answer is returned; config does not change |
| `ClientMgmt.RestartableObjectStore.GetObjectStore` | pkg/plugin/clientmgmt/restartable_object_store.go:68-80 | one lookup of the key and no reset; the result is `ObjectStoreOf` of what the lookup answered |
| `ClientMgmt.RestartableObjectStore.GetDelegate` | pkg/plugin/clientmgmt/restartable_object_store.go:83-89 | exactly one reset, then one lookup unless the reset failed; the result is `Route` of the pre-state |
| `ClientMgmt.RestartableObjectStore.Init` | pkg/plugin/clientmgmt/restartable_object_store.go:91-107 | with config already set: `AlreadyInitialized`, no lookup, no plugin call, config unchanged; otherwise one lookup and never a reset; on a lookup or type failure that error is returned and config stays nil; on success config is the caller's map, the found plugin alone receives exactly `Init(config)`, and its answer is returned (config stays stored even if it fails) |
| `ClientMgmt.RestartableObjectStore.InitV2` | pkg/plugin/clientmgmt/restartable_object_store.go:109-113 | ignores the context and has exactly Init's effect and result, sharing Init's one-shot guard |
| `ClientMgmt.RestartableObjectStore.InitObjectStore` | pkg/plugin/clientmgmt/restartable_object_store.go:115-119 | the given plugin receives exactly `Init(config)` and its answer is returned |
| `ClientMgmt.RestartableObjectStore.PutObject` | pkg/plugin/clientmgmt/restartable_object_store.go:121-128 | one reset then the lookup; on an error from either, that error and no plugin call; otherwise only the plugin found after the reset receives `PutObject` with the caller's arguments, and its error is returned unchanged |
| `ClientMgmt.RestartableObjectStore.ObjectExists` | pkg/plugin/clientmgmt/restartable_object_store.go:130-137 | as PutObject; on an error the result is `false`, otherwise the plugin's flag and error |
| `ClientMgmt.RestartableObjectStore.GetObject` | pkg/plugin/clientmgmt/restartable_object_store.go:139-146 | as PutObject; on an error the body is nil, otherwise the plugin's body and error |
| `ClientMgmt.RestartableObjectStore.ListCommonPrefixes` | pkg/plugin/clientmgmt/restartable_object_store.go:148-155 | as PutObject; on an error the slice is nil, otherwise the plugin's prefixes and error |
| `ClientMgmt.RestartableObjectStore.ListObjects` | pkg/plugin/clientmgmt/restartable_object_store.go:157-164 | as PutObject; on an error the slice is nil, otherwise the plugin's names and error |
| `ClientMgmt.RestartableObjectStore.DeleteObject` | pkg/plugin/clientmgmt/restartable_object_store.go:166-173 | as PutObject, for `DeleteObject(bucket, key)` |
| `ClientMgmt.RestartableObjectStore.CreateSignedURL` | pkg/plugin/clientmgmt/restartable_object_store.go:175-182 | as PutObject; on an error the URL is "", otherwise the plugin's URL and error; the ttl is passed on unchanged |
| `ClientMgmt.RestartableObjectStore.PutObjectV2` | pkg/plugin/clientmgmt/restartable_object_store.go:184-192 | as PutObject, with the context passed on unchanged |
| `ClientMgmt.RestartableObjectStore.ObjectExistsV2` | pkg/plugin/clientmgmt/restartable_object_store.go:194-201 | as ObjectExists, with the context passed on unchanged |
| `ClientMgmt.RestartableObjectStore.GetObjectV2` | pkg/plugin/clientmgmt/restartable_object_store.go:203-210 | as GetObject, with the context passed on unchanged |
| `ClientMgmt.RestartableObjectStore.ListCommonPrefixesV2` | pkg/plugin/clientmgmt/restartable_object_store.go:212-220 | as ListCommonPrefixes, with the context passed on unchanged |
| `ClientMgmt.RestartableObjectStore.ListObjectsV2` | pkg/plugin/clientmgmt/restartable_object_store.go:222-229 | as ListObjects, with the context passed on unchanged |
| `ClientMgmt.RestartableObjectStore.DeleteObjectV2` | pkg/plugin/clientmgmt/restartable_object_store.go:231-238 | as DeleteObject, with the context passed on unchanged |
| `ClientMgmt.RestartableObjectStore.CreateSignedURLV2` | pkg/plugin/clientmgmt/restartable_object_store.go:240-247 | as CreateSignedURL, with the context passed on unchanged |
| `Protocol.ObjectStoreOf` | pkg/plugin/clientmgmt/restartable_object_store.go:68-80 | succeeds exactly when the lookup returned an object store, and then yields it; a lookup error is passed on unchanged; any other dispensed value gets `NotAnObjectStore` with its type name |
| `Protocol.Route` | pkg/plugin/clientmgmt/restartable_object_store.go:83-89 | a failed reset's error wins; a call is routed to a plugin exactly when the registry after the reset holds an object store under the key, and only to the object store that registry holds under the key (which may be the same plugin as before, if the restart dispensed it again) |
| `Protocol.PlanInit` | pkg/plugin/clientmgmt/restartable_object_store.go:93-106 | Init is rejected exactly when a config is stored; it reaches a plugin exactly when none is stored and the lookup found an object store; otherwise it fails with the lookup's error |
| `Protocol.InitError` | pkg/plugin/clientmgmt/restartable_object_store.go:93-106 | Init returns `AlreadyInitialized` when rejected, the lookup's error when that failed, and otherwise exactly the plugin's answer |
| `Protocol.Apply` | pkg/plugin/clientmgmt/restartable_object_store.go:93-106 | a stored config never changes; only Init changes config; the proxy holds a config afterwards exactly when it did before or an Init with a non-nil map reached an object store |
| `Protocol.Sent` | pkg/plugin/clientmgmt/restartable_object_store.go:57-64 | a call makes at most one Init call on a plugin, and makes one exactly for an Init that gets through or a reinitialize of an object store; that Init carries the config the proxy holds afterwards |
| `Protocol.StoredConfigIsFinal` | pkg/plugin/clientmgmt/restartable_object_store.go:93-106 | once config c is stored, it stays c over any sequence of calls, no Init gets through again, and the only Init calls still made are replays, each carrying c |
| `Protocol.AtMostOneStore` | pkg/plugin/clientmgmt/restartable_object_store.go:93-106 | starting uninitialized, at most one call in any sequence stores a config |
| `Protocol.NilUntilStored` | pkg/plugin/clientmgmt/restartable_object_store.go:57-64 | while no config is stored, every Init call the proxy makes on a plugin (through Init or a replay) carries a nil map |
| `Protocol.FirstStoreWins` | pkg/plugin/clientmgmt/restartable_object_store.go:93-106 | the first Init that stores c decides: the proxy holds c after every later call, every later Init is rejected, and every Init call after it is a replay of c |
| `Process.Lookup` | pkg/plugin/clientmgmt/restartable_object_store.go:69 | `getByKindAndName` succeeds exactly for a key the process dispenses, and then yields what it dispenses for that key |
| `Process.RestartableProcess.AddReinitializer` | pkg/plugin/clientmgmt/restartable_object_store.go:51 | registers the reinitializer under the key; nothing else changes |
| `Process.RestartableProcess.ResetIfNeeded` | pkg/plugin/clientmgmt/restartable_object_store.go:84 | counts the call, and does what the next reset outcome says: nothing, install a new registry, or return an error |
| `Process.RestartableProcess.GetByKindAndName` | pkg/plugin/clientmgmt/restartable_object_store.go:69 | logs the key and returns `Lookup` of the current registry; nothing else changes |
| `Scenarios.InitTwiceKeepsFirst` | pkg/plugin/clientmgmt/restartable_object_store.go:93-113 | Init then InitV2 with another config: the first gets through, the second gets `AlreadyInitialized`, the first config stays stored, and the plugin saw exactly one Init |
| `Scenarios.NilInitLeavesProxyOpen` | pkg/plugin/clientmgmt/restartable_object_store.go:93-106 | Init(nil) reaches the plugin but stores nothing, so a following Init(c) gets through and stores c |
| `Scenarios.FailedRestartShortCircuits` | pkg/plugin/clientmgmt/restartable_object_store.go:139-146 | a failed restart under GetObject returns its error with a nil body, with no lookup and no plugin call |
| `Scenarios.ReplaySendsStoredConfig` | pkg/plugin/clientmgmt/restartable_object_store.go:57-64 | after Init(c), reinitialize sends exactly Init(c) to the new plugin and returns its answer; the old plugin saw only the first Init |
| `Scenarios.RestartForwardsToNewPlugin` | pkg/plugin/clientmgmt/restartable_object_store.go:83-89 | when the reset restarts the process, GetObject reaches only the newly dispensed plugin and returns its answer unchanged |

## Left out

- The implementation of `RestartableProcess` (restartable_process.go) is not part of this model: launching the process, dispensing over RPC, restart generations, and the replay of every reinitializer inside a restart. The model reduces it to the interface the proxy calls, with an oracle for what each reset does.
- Process.RestartableProcess.ResetIfNeeded: does not call the registered reinitializers after a restart, because that code is not part of this model; `Scenarios.ReplaySendsStoredConfig` calls `Reinitialize` directly instead.
- ClientMgmt.RestartableObjectStore.Init: the stored config is a value copy of the caller's map. Go keeps a reference (line 104), so changes the caller makes to its map after Init also change what `reinitialize` replays (line 63); the model does not capture that aliasing, and `Protocol.StoredConfigIsFinal` speaks of the stored value.
- Scenarios.RestartForwardsToNewPlugin: the new plugin's call list is exactly the forwarded `GetObject`. In the program the restart inside `resetIfNeeded` first runs this proxy's registered `reinitialize` (line 51), so the new plugin receives `Init(config)` (here `Init(nil)`) before the call; the model's restart does not replay it.
- ClientMgmt.RestartableObjectStore.PutObject: after a restart, the new plugin's calls gain only the forwarded call; the `Init(config)` that the restart replays through the registered `reinitialize` before it is not in the model.
- ClientMgmt.RestartableObjectStore.ObjectExists: after a restart, the new plugin's calls gain only the forwarded call; the `Init(config)` that the restart replays through the registered `reinitialize` before it is not in the model.
- ClientMgmt.RestartableObjectStore.GetObject: after a restart, the new plugin's calls gain only the forwarded call; the `Init(config)` that the restart replays through the registered `reinitialize` before it is not in the model.
- ClientMgmt.RestartableObjectStore.ListCommonPrefixes: after a restart, the new plugin's calls gain only the forwarded call; the `Init(config)` that the restart replays through the registered `reinitialize` before it is not in the model.
- ClientMgmt.RestartableObjectStore.ListObjects: after a restart, the new plugin's calls gain only the forwarded call; the `Init(config)` that the restart replays through the registered `reinitialize` before it is not in the model.
- ClientMgmt.RestartableObjectStore.DeleteObject: after a restart, the new plugin's calls gain only the forwarded call; the `Init(config)` that the restart replays through the registered `reinitialize` before it is not in the model.
- ClientMgmt.RestartableObjectStore.CreateSignedURL: after a restart, the new plugin's calls gain only the forwarded call; the `Init(config)` that the restart replays through the registered `reinitialize` before it is not in the model.
- ClientMgmt.RestartableObjectStore.PutObjectV2: after a restart, the new plugin's calls gain only the forwarded call; the `Init(config)` that the restart replays through the registered `reinitialize` before it is not in the model.
- ClientMgmt.RestartableObjectStore.ObjectExistsV2: after a restart, the new plugin's calls gain only the forwarded call; the `Init(config)` that the restart replays through the registered `reinitialize` before it is not in the model.
- ClientMgmt.RestartableObjectStore.GetObjectV2: after a restart, the new plugin's calls gain only the forwarded call; the `Init(config)` that the restart replays through the registered `reinitialize` before it is not in the model.
- ClientMgmt.RestartableObjectStore.ListCommonPrefixesV2: after a restart, the new plugin's calls gain only the forwarded call; the `Init(config)` that the restart replays through the registered `reinitialize` before it is not in the model.
- ClientMgmt.RestartableObjectStore.ListObjectsV2: after a restart, the new plugin's calls gain only the forwarded call; the `Init(config)` that the restart replays through the registered `reinitialize` before it is not in the model.
- ClientMgmt.RestartableObjectStore.DeleteObjectV2: after a restart, the new plugin's calls gain only the forwarded call; the `Init(config)` that the restart replays through the registered `reinitialize` before it is not in the model.
- ClientMgmt.RestartableObjectStore.CreateSignedURLV2: after a restart, the new plugin's calls gain only the forwarded call; the `Init(config)` that the restart replays through the registered `reinitialize` before it is not in the model.
- Process.Lookup: a key the registry lacks fails with `NotDispensed`. The real process would try to dispense it; that code is not part of this model.
- The plugin behind the proxy is a stub. Its fifteen interface methods are one `Receive` taking a `Call` value that names the method. Its answers come from an oracle, because the plugin's code is not part of this model.
- `io.Reader`, `io.ReadCloser` and `context.Context` are opaque `Handle` values, and `time.Duration` is an `int`. The proxy only passes them on. Context cancellation is not modelled.
- The texts of the two errors the proxy creates ("already initialized" and "%T is not a ObjectStore!") are modelled by the constructors `AlreadyInitialized` and `NotAnObjectStore`, not as strings.
- Go's `%T` in the "is not a ObjectStore!" error is the dispensed value's type name, carried as a string in `NotObjectStore`.
- Concurrency: the proxy has no locking of its own, and calls are modelled one at a time.
- test/e2e/util/k8s/common.go, test/e2e/util/k8s/client.go and pkg/util/kube/periodical_enqueue_source.go are not part of this model. They are test plumbing and a periodic enqueue source over external clients.
