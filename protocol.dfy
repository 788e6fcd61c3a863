/**
 * The decisions the object-store proxy makes, as functions of what the
 * shared process and the plugin answer, and what they imply over any
 * sequence of calls on one proxy. D stands for the object store type.
 */
module Protocol {
  import opened Wrappers
  import opened Framework
  import opened Process

  /** getObjectStore after its lookup: a lookup error is passed on, and a
      dispensed value that is not an object store is refused. */
  function ObjectStoreOf<D>(lookup: Result<Dispensed<D>, Error>): (r: Result<D, Error>)
    ensures r.Success? <==> lookup.Success? && lookup.value.ObjectStore?
    ensures r.Success? ==> r.value == lookup.value.store
    ensures lookup.Failure? ==> r == Failure(lookup.error)
    ensures lookup.Success? && lookup.value.NotObjectStore? ==> r == Failure(NotAnObjectStore(lookup.value.typeName))
  {
    match lookup
    case Failure(e) => Failure(e)
    case Success(ObjectStore(s)) => Success(s)
    case Success(NotObjectStore(t)) => Failure(NotAnObjectStore(t))
  }

  /** getDelegate: the object store a forwarding call goes to, or the error it
      returns instead. Only an object store registered under `key` after the
      reset is ever chosen; a failed reset wins over everything else. */
  function Route<D>(reset: ResetOutcome<D>, registry: map<KindAndName, Dispensed<D>>, key: KindAndName): (r: Result<D, Error>)
    ensures r.Success? <==> !reset.RestartFailed? && key in RegistryAfter(reset, registry) && RegistryAfter(reset, registry)[key].ObjectStore?
    ensures r.Success? ==> RegistryAfter(reset, registry)[key] == ObjectStore(r.value)
    ensures reset.RestartFailed? ==> r == Failure(reset.err)
    ensures !reset.RestartFailed? ==> r == ObjectStoreOf(Lookup(RegistryAfter(reset, registry), key))
  {
    if reset.RestartFailed? then Failure(reset.err)
    else ObjectStoreOf(Lookup(RegistryAfter(reset, registry), key))
  }

  /** What Init does, given the stored config and what the lookup answers. */
  datatype InitPlan<D> =
    | Rejected                 // already initialized: no lookup, no call
    | LookupFailed(err: Error) // the lookup's error is returned, config untouched
    | Forward(to: D)           // config stored, then Init(config) sent to `to`

  function PlanInit<D>(stored: Config, lookup: Result<Dispensed<D>, Error>): (p: InitPlan<D>)
    ensures p.Rejected? <==> stored.Some?
    ensures p.Forward? <==> stored.None? && ObjectStoreOf(lookup).Success?
    ensures p.Forward? ==> p.to == ObjectStoreOf(lookup).value
    ensures p.LookupFailed? ==> Failure(p.err) == ObjectStoreOf(lookup)
  {
    if stored.Some? then Rejected
    else match ObjectStoreOf(lookup)
      case Failure(e) => LookupFailed(e)
      case Success(s) => Forward(s)
  }

  /** The error Init returns, given the plugin's answer to Init(config) when it is called. */
  function InitError<D>(plan: InitPlan<D>, answered: Option<Error>): (err: Option<Error>)
    ensures plan.Rejected? ==> err == Some(AlreadyInitialized)
    ensures plan.LookupFailed? ==> err == Some(plan.err)
    ensures plan.Forward? ==> err == answered
  {
    match plan
    case Rejected => Some(AlreadyInitialized)
    case LookupFailed(e) => Some(e)
    case Forward(_) => answered
  }

  /** One call on a proxy, as far as its stored config is concerned. */
  datatype Op<D> =
    | InitOp(arg: Config, lookup: Result<Dispensed<D>, Error>)  // Init or InitV2
    | ForwardOp                                                // any of the fourteen forwarding calls
    | ReinitializeOp(target: Dispensed<D>)                     // reinitialize after a restart

  /** An Init(config) call the proxy makes on the object store `to`. */
  datatype InitMessage<D> = InitMessage(to: D, config: Config)

  /** The stored config after `op`. Only an Init that reaches an object store
      while nothing is stored changes it, and only a non-nil map makes it stick. */
  function Apply<D>(stored: Config, op: Op<D>): (r: Config)
    ensures stored.Some? ==> r == stored
    ensures !op.InitOp? ==> r == stored
    ensures r.Some? <==> stored.Some? || (op.InitOp? && op.arg.Some? && ObjectStoreOf(op.lookup).Success?)
  {
    if op.InitOp? && PlanInit(stored, op.lookup).Forward? then op.arg else stored
  }

  /** The Init calls `op` makes on object stores. Every one carries the config
      the proxy holds afterwards. */
  function Sent<D>(stored: Config, op: Op<D>): (m: seq<InitMessage<D>>)
    ensures |m| <= 1
    ensures forall msg :: msg in m ==> msg.config == Apply(stored, op)
    ensures m != [] <==> (op.InitOp? && PlanInit(stored, op.lookup).Forward?) || (op.ReinitializeOp? && op.target.ObjectStore?)
  {
    match op
    case InitOp(arg, lookup) =>
      (match PlanInit(stored, lookup)
       case Forward(s) => [InitMessage(s, arg)]
       case _ => [])
    case ForwardOp => []
    case ReinitializeOp(target) =>
      (match ObjectStoreOf(Success(target))
       case Success(s) => [InitMessage(s, stored)]
       case Failure(_) => [])
  }

  /** The stored config after a sequence of calls. */
  function Final<D>(stored: Config, ops: seq<Op<D>>): Config
    decreases |ops|
  {
    if ops == [] then stored else Final(Apply(stored, ops[0]), ops[1..])
  }

  /** Every Init call a sequence of calls makes on object stores, in order. */
  function Messages<D>(stored: Config, ops: seq<Op<D>>): seq<InitMessage<D>>
    decreases |ops|
  {
    if ops == [] then [] else Sent(stored, ops[0]) + Messages(Apply(stored, ops[0]), ops[1..])
  }

  /** How many calls in the sequence turned a nil config into a stored one. */
  function Stores<D>(stored: Config, ops: seq<Op<D>>): nat
    decreases |ops|
  {
    if ops == [] then 0
    else (if stored.None? && Apply(stored, ops[0]).Some? then 1 else 0) + Stores(Apply(stored, ops[0]), ops[1..])
  }

  /** The Init(Some(c)) calls the reinitialize steps of `ops` make when `c` is stored. */
  function Replays<D>(ops: seq<Op<D>>, c: map<string, string>): seq<InitMessage<D>>
  {
    if ops == [] then []
    else (if ops[0].ReinitializeOp? && ops[0].target.ObjectStore? then [InitMessage(ops[0].target.store, Some(c))] else [])
         + Replays(ops[1..], c)
  }

  lemma {:induction false} FinalAppend<D>(stored: Config, a: seq<Op<D>>, b: seq<Op<D>>)
    ensures Final(stored, a + b) == Final(Final(stored, a), b)
    ensures Messages(stored, a + b) == Messages(stored, a) + Messages(Final(stored, a), b)
    decreases |a|
  {
    if a != [] {
      assert (a + b)[0] == a[0];
      assert (a + b)[1..] == a[1..] + b;
      FinalAppend(Apply(stored, a[0]), a[1..], b);
    } else {
      assert a + b == b;
    }
  }

  /** Once a config is stored it never changes, no Init gets through again, and
      the only Init calls still made are replays that carry that config. */
  lemma {:induction false} StoredConfigIsFinal<D>(c: map<string, string>, ops: seq<Op<D>>)
    ensures Final(Some(c), ops) == Some(c)
    ensures Messages(Some(c), ops) == Replays(ops, c)
    ensures Stores(Some(c), ops) == 0
  {
    if ops != [] {
      StoredConfigIsFinal(c, ops[1..]);
    }
  }

  /** Starting uninitialized, at most one call ever stores a config. */
  lemma {:induction false} AtMostOneStore<D>(ops: seq<Op<D>>)
    ensures Stores(None, ops) <= 1
  {
    if ops != [] {
      var next := Apply(None, ops[0]);
      if next.Some? {
        StoredConfigIsFinal(next.value, ops[1..]);
      } else {
        AtMostOneStore(ops[1..]);
      }
    }
  }

  /** As long as no config is stored, every Init call the proxy makes carries a nil map. */
  lemma {:induction false} NilUntilStored<D>(ops: seq<Op<D>>)
    requires Final(None, ops) == None
    ensures forall m :: m in Messages(None, ops) ==> m.config == None
  {
    if ops != [] {
      var next := Apply(None, ops[0]);
      if next.Some? {
        StoredConfigIsFinal(next.value, ops[1..]);
        assert false;
      }
      NilUntilStored(ops[1..]);
    }
  }

  /** The first Init that stores config c wins: the proxy ends holding c, every
      later Init is rejected, and every Init call after it is a replay of c. */
  lemma {:induction false} FirstStoreWins<D>(ops: seq<Op<D>>, i: nat, c: map<string, string>)
    requires i < |ops|
    requires Final(None, ops[..i]) == None
    requires Apply(None, ops[i]) == Some(c)
    ensures Final(None, ops) == Some(c)
    ensures forall j :: i < j < |ops| ==> Final(None, ops[..j]) == Some(c)
    ensures forall j :: i < j < |ops| && ops[j].InitOp? ==> PlanInit(Final(None, ops[..j]), ops[j].lookup).Rejected?
    ensures Messages(None, ops) == Messages(None, ops[..i]) + Sent(None, ops[i]) + Replays(ops[i + 1..], c)
  {
    assert ops == ops[..i] + ops[i..];
    FinalAppend(None, ops[..i], ops[i..]);
    StoredConfigIsFinal(c, ops[i + 1..]);
    forall j | i < j < |ops|
      ensures Final(None, ops[..j]) == Some(c)
    {
      assert ops[..j] == ops[..i] + ops[i..j];
      FinalAppend(None, ops[..i], ops[i..j]);
      assert ops[i..j][1..] == ops[i + 1..j];
      StoredConfigIsFinal(c, ops[i + 1..j]);
    }
  }
}
