/**
 * The keyed, lazily initialised client cache behind NewNacosNamingClient and
 * NewNacosConfigClient. Both follow one memoisation rule over a map from
 * client name to client handle:
 *   - a private request (`share` false) always builds a fresh client and
 *     leaves the cache alone;
 *   - a shared request returns the cached client under its name if there
 *     is one, and otherwise builds one and caches it only if building
 *     succeeded.
 * The SDK factory is an input: the result it would return if called.
 */
module Nacos {
  import opened Wrappers

  /** Opaque handles for the SDK's naming and config clients. */
  datatype NamingClient = NamingClient(handle: nat)
  datatype ConfigClient = ConfigClient(handle: nat)

  /** The error the SDK factory reports. */
  datatype ClientError = ClientError(code: nat)

  /** What one lookup does: the result returned, the cache afterwards, and
      whether the factory was called. */
  datatype MemoOutcome<H> = MemoOutcome(result: Result<H, ClientError>, cache: map<string, H>, consulted: bool)

  /** One lookup of `name` in `cache`; `factory` is what the SDK returns if called. */
  function Memoize<H>(cache: map<string, H>, name: string, share: bool,
                      factory: Result<H, ClientError>): (o: MemoOutcome<H>)
    // the factory is called exactly when the request is private or the name is new
    ensures o.consulted <==> !share || name !in cache
    ensures o.consulted ==> o.result == factory
    ensures !o.consulted ==> o.result == Ok(cache[name])
    // cached entries are never replaced or dropped
    ensures forall k :: k in cache ==> k in o.cache && o.cache[k] == cache[k]
    // the only entry that can appear is a successful shared client under `name`
    ensures o.cache.Keys <= cache.Keys + {name}
    ensures o.cache != cache ==> share && o.result.Ok? && o.cache == cache[name := o.result.value]
    // after a successful shared request the cache holds the returned client
    ensures share && o.result.Ok? ==> name in o.cache && o.cache[name] == o.result.value
  {
    if !share then MemoOutcome(factory, cache, true)
    else if name in cache then MemoOutcome(Ok(cache[name]), cache, false)
    else match factory
      case Err(e) => MemoOutcome(Err(e), cache, true)
      case Ok(c) => MemoOutcome(Ok(c), cache[name := c], true)
  }

  /** One call of the constructor: the name, the sharing flag and what the
      factory would return. */
  datatype Request<H> = Request(name: string, share: bool, factory: Result<H, ClientError>)

  /** The cache after a sequence of calls. */
  function Replay<H>(cache: map<string, H>, calls: seq<Request<H>>): map<string, H>
    decreases |calls|
  {
    if calls == [] then cache
    else Replay(Memoize(cache, calls[0].name, calls[0].share, calls[0].factory).cache, calls[1..])
  }

  /** Once a name is cached, no later sequence of calls changes its client. */
  lemma {:induction false} CachedEntryIsStable<H>(cache: map<string, H>, name: string, calls: seq<Request<H>>)
    requires name in cache
    ensures name in Replay(cache, calls) && Replay(cache, calls)[name] == cache[name]
    decreases |calls|
  {
    if calls != [] {
      var next := Memoize(cache, calls[0].name, calls[0].share, calls[0].factory).cache;
      CachedEntryIsStable(next, name, calls[1..]);
    }
  }

  /** Idempotence: after a successful shared request for `name`, every later
      shared request for `name`, after any other calls and whatever the
      factory would return, yields the same client without calling the factory. */
  lemma SharedRequestIsIdempotent<H>(cache: map<string, H>, name: string, first: Result<H, ClientError>,
                                     calls: seq<Request<H>>, later: Result<H, ClientError>)
    requires Memoize(cache, name, true, first).result.Ok?
    ensures var o := Memoize(cache, name, true, first);
            var again := Memoize(Replay(o.cache, calls), name, true, later);
            again.result == o.result && !again.consulted && again.cache == Replay(o.cache, calls)
  {
    var o := Memoize(cache, name, true, first);
    CachedEntryIsStable(o.cache, name, calls);
  }

  /** The package-level state of the nacos client pools: for each kind of
      client, whether its `sync.Once` has run and the map it guards. */
  class Registry {
    var namingOnce: bool
    var namingClient: map<string, NamingClient>
    var configOnce: bool
    var configClient: map<string, ConfigClient>

    /** A map is empty until its Once has run. */
    ghost predicate Valid()
      reads this
    {
      (!namingOnce ==> namingClient == map[]) && (!configOnce ==> configClient == map[])
    }

    /** Program start: neither Once has run and both maps are nil. */
    constructor ()
      ensures Valid()
      ensures !namingOnce && !configOnce && namingClient == map[] && configClient == map[]
    {
      namingOnce, configOnce := false, false;
      namingClient, configClient := map[], map[];
    }

    /** initNacosClientPool. */
    method InitNacosClientPool()
      modifies this`namingClient
      ensures namingClient == map[]
    {
      namingClient := map[];
    }

    /** initNacosConfigClientPool. */
    method InitNacosConfigClientPool()
      modifies this`configClient
      ensures configClient == map[]
    {
      configClient := map[];
    }

    /** NewNacosNamingClient; `consulted` says whether newNamingClient ran. */
    method NewNacosNamingClient(name: string, share: bool, factory: Result<NamingClient, ClientError>)
      returns (r: Result<NamingClient, ClientError>, ghost consulted: bool)
      requires Valid()
      modifies this`namingOnce, this`namingClient
      ensures Valid()
      ensures r == Memoize(old(namingClient), name, share, factory).result
      ensures consulted == Memoize(old(namingClient), name, share, factory).consulted
      ensures namingClient == Memoize(old(namingClient), name, share, factory).cache
      ensures namingOnce == (old(namingOnce) || share)
      ensures configOnce == old(configOnce) && configClient == old(configClient)
    {
      if !share {
        return factory, true;
      }
      if !namingOnce {
        namingOnce := true;
        InitNacosClientPool();
      }
      if name in namingClient {
        return Ok(namingClient[name]), false;
      }
      consulted := true;
      match factory {
        case Err(e) =>
          r := Err(e);
        case Ok(c) =>
          namingClient := namingClient[name := c];
          r := Ok(c);
      }
    }

    /** NewNacosConfigClient; `consulted` says whether newConfigClient ran. */
    method NewNacosConfigClient(name: string, share: bool, factory: Result<ConfigClient, ClientError>)
      returns (r: Result<ConfigClient, ClientError>, ghost consulted: bool)
      requires Valid()
      modifies this`configOnce, this`configClient
      ensures Valid()
      ensures r == Memoize(old(configClient), name, share, factory).result
      ensures consulted == Memoize(old(configClient), name, share, factory).consulted
      ensures configClient == Memoize(old(configClient), name, share, factory).cache
      ensures configOnce == (old(configOnce) || share)
      ensures namingOnce == old(namingOnce) && namingClient == old(namingClient)
    {
      if !share {
        return factory, true;
      }
      if !configOnce {
        configOnce := true;
        InitNacosConfigClientPool();
      }
      if name in configClient {
        return Ok(configClient[name]), false;
      }
      consulted := true;
      match factory {
        case Err(e) =>
          r := Err(e);
        case Ok(c) =>
          configClient := configClient[name := c];
          r := Ok(c);
      }
    }
  }
}
