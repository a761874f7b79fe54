/** Client construction (client.go) and the parameter merge that both request
    paths perform before anything else (public.go:87-92, trading.go:305-313). */
module Client {
  import opened Pool

  /** `maxRequestsPerSecond` (client.go:13). */
  const MaxRequestsPerSecond: nat := 6
  /** `defaultTimeout`, 130 seconds (client.go:12). */
  const DefaultTimeoutSeconds: nat := 130

  /** The limiter's settings, `rate.NewLimiter(limit, burst)`. Its token
      bucket and clock are not modelled: each request gets the outcome of
      `limiter.Wait` as a parameter. */
  datatype LimiterConfig = LimiterConfig(limit: nat, burst: nat)

  /** `Params`: request parameters by name. */
  type Params = map<string, string>

  /** `NewKey` (client.go:25-31): keeps the key and secret as given. The
      time-based `nonce` field it also sets is never read and is not modelled. */
  function NewKey(key: string, secret: string): (k: Key)
    ensures k.id == key && k.secret == secret
  {
    Key(key, secret)
  }

  class Client {
    const pool: KeyPool
    var limiter: LimiterConfig
    var timeoutSeconds: nat

    ghost predicate Valid()
      reads this, pool
    {
      pool.Valid()
    }

    /** `NewClient` (client.go:39-53): a pool with room for exactly the given
        keys, filled with all of them in order, and a limiter of 6 requests per
        second with a burst of 1. An empty key list gives an empty pool, which
        the public endpoints never touch. */
    constructor (keys: seq<Key>)
      ensures Valid() && fresh(pool)
      ensures pool.capacity == |keys| && pool.keys == keys
      ensures limiter == LimiterConfig(MaxRequestsPerSecond, 1)
      ensures timeoutSeconds == DefaultTimeoutSeconds
    {
      pool := new KeyPool(|keys|);
      limiter := LimiterConfig(MaxRequestsPerSecond, 1);
      timeoutSeconds := DefaultTimeoutSeconds;
      new;
      var i := 0;
      while i < |keys|
        invariant 0 <= i <= |keys|
        invariant pool.Valid() && pool.capacity == |keys|
        invariant pool.keys == keys[..i]
        modifies pool
      {
        pool.Put(keys[i]);
        i := i + 1;
      }
    }
  }

  /** The request parameters: `command` set to the method name, then every
      entry of the caller's one parameter bag, if any, written over it. */
  function Overlay(command: string, params: seq<Params>): (r: Params)
    requires |params| <= 1
    ensures forall k :: k in r <==> k == "command" || (|params| == 1 && k in params[0])
    ensures |params| == 1 ==> forall k :: k in params[0] ==> r[k] == params[0][k]
    ensures (|params| == 0 || "command" !in params[0]) ==> r["command"] == command
  {
    if |params| == 0 then map["command" := command] else map["command" := command] + params[0]
  }

  /** The merge loop of public.go:87-92 and trading.go:305-313: starts from
      `{"command": command}` and copies the caller's entries in one by one. */
  method MergeParams(command: string, params: seq<Params>) returns (merged: Params)
    requires |params| <= 1
    ensures merged == Overlay(command, params)
  {
    merged := map["command" := command];
    if |params| == 1 {
      var bag := params[0];
      var pending := bag.Keys;
      while pending != {}
        invariant pending <= bag.Keys
        invariant forall k :: k in merged <==> k == "command" || (k in bag && k !in pending)
        invariant forall k :: k in merged ==> merged[k] == if k in bag && k !in pending then bag[k] else command
        decreases pending
      {
        var name :| name in pending;
        merged := merged[name := bag[name]];
        pending := pending - {name};
      }
    }
  }
}
