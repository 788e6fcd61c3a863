/**
 * The shared plugin process a proxy talks to (`RestartableProcess`). Its
 * implementation (launching, dispensing over RPC, restarting) is not part of
 * this model; this is the interface the proxy relies on, with enough state
 * to observe what the proxy asks of it.
 */
module Process {
  import opened Wrappers
  import opened Framework
  import opened ObjectStorePlugin

  /** What one `resetIfNeeded` call does: nothing (the process is alive), a
      restart that installs a freshly dispensed registry, or a failed restart. */
  datatype ResetOutcome<D> =
    | Alive
    | Restarted(registry: map<KindAndName, Dispensed<D>>)
    | RestartFailed(err: Error)

  /** The registry lookups see once `resetIfNeeded` has returned. */
  function RegistryAfter<D>(reset: ResetOutcome<D>, registry: map<KindAndName, Dispensed<D>>): map<KindAndName, Dispensed<D>>
  {
    if reset.Restarted? then reset.registry else registry
  }

  /** What `getByKindAndName(key)` answers from a registry. */
  function Lookup<D>(registry: map<KindAndName, Dispensed<D>>, key: KindAndName): (r: Result<Dispensed<D>, Error>)
    ensures r.Success? <==> key in registry
    ensures r.Success? ==> r.value == registry[key]
    ensures r.Failure? ==> r.error == NotDispensed(key)
  {
    if key in registry then Success(registry[key]) else Failure(NotDispensed(key))
  }

  /** The object stores a registry holds. */
  function Stubs(registry: map<KindAndName, Dispensed<ObjectStoreClient>>): (s: set<ObjectStoreClient>)
    ensures forall k :: k in registry && registry[k].ObjectStore? ==> registry[k].store in s
  {
    set k | k in registry && registry[k].ObjectStore? :: registry[k].store
  }

  class RestartableProcess {
    /** `addReinitializer` registrations, by key. */
    var reinitializers: map<KindAndName, object>
    /** What the process currently dispenses, by key. */
    var dispensed: map<KindAndName, Dispensed<ObjectStoreClient>>
    /** How many times `resetIfNeeded` was called. */
    var resetCalls: nat
    /** The keys `getByKindAndName` was asked for, oldest first. */
    var lookups: seq<KindAndName>
    /** What the n-th `resetIfNeeded` call does. */
    const resetOutcome: nat -> ResetOutcome<ObjectStoreClient>

    constructor (dispensed: map<KindAndName, Dispensed<ObjectStoreClient>>, resetOutcome: nat -> ResetOutcome<ObjectStoreClient>)
      ensures this.dispensed == dispensed && this.resetOutcome == resetOutcome
      ensures reinitializers == map[] && resetCalls == 0 && lookups == []
    {
      this.dispensed := dispensed;
      this.resetOutcome := resetOutcome;
      reinitializers := map[];
      resetCalls := 0;
      lookups := [];
    }

    /** What the next `resetIfNeeded` call will do. */
    function NextReset(): ResetOutcome<ObjectStoreClient>
      reads this
    {
      resetOutcome(resetCalls)
    }

    /** The registry once the next `resetIfNeeded` call has returned. */
    function RegistryAfterReset(): map<KindAndName, Dispensed<ObjectStoreClient>>
      reads this
    {
      RegistryAfter(NextReset(), dispensed)
    }

    /** Only the lookup log moved, by `keys`. */
    twostate predicate LookedUp(keys: seq<KindAndName>)
      reads this
    {
      && lookups == old(lookups) + keys
      && resetCalls == old(resetCalls)
      && dispensed == old(dispensed)
      && reinitializers == old(reinitializers)
    }

    /** One `resetIfNeeded` call, then a lookup of `key` unless the reset failed. */
    twostate predicate ResetThenLookedUp(key: KindAndName)
      reads this
    {
      && resetCalls == old(resetCalls) + 1
      && dispensed == old(RegistryAfterReset())
      && reinitializers == old(reinitializers)
      && lookups == old(lookups) + (if old(NextReset()).RestartFailed? then [] else [key])
    }

    method AddReinitializer(key: KindAndName, r: object)
      modifies this
      ensures reinitializers == old(reinitializers)[key := r]
      ensures dispensed == old(dispensed) && resetCalls == old(resetCalls) && lookups == old(lookups)
    {
      reinitializers := reinitializers[key := r];
    }

    method ResetIfNeeded() returns (err: Option<Error>)
      modifies this
      ensures err == (if old(NextReset()).RestartFailed? then Some(old(NextReset()).err) else None)
      ensures resetCalls == old(resetCalls) + 1
      ensures dispensed == old(RegistryAfterReset())
      ensures reinitializers == old(reinitializers) && lookups == old(lookups)
    {
      var outcome := resetOutcome(resetCalls);
      resetCalls := resetCalls + 1;
      match outcome
      case Alive =>
        err := None;
      case Restarted(registry) =>
        dispensed := registry;
        err := None;
      case RestartFailed(e) =>
        err := Some(e);
    }

    method GetByKindAndName(key: KindAndName) returns (r: Result<Dispensed<ObjectStoreClient>, Error>)
      modifies this
      ensures r == old(Lookup(dispensed, key))
      ensures LookedUp([key])
    {
      r := Lookup(dispensed, key);
      lookups := lookups + [key];
    }
  }
}
