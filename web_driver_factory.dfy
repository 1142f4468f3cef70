/** WebDriverFactory: the deprecated static facade over one current pool. Its
    operations delegate to that pool unchanged; setMode swaps in a fresh pool
    of another kind, but only while the current pool holds no driver.

    The static state becomes the fields of one factory object: the current
    pool and the kind of pool it was created as. Only the thread-local pool is
    part of this model, so a pool of any kind is represented by a fresh
    thread-local pool object and `kind` records which kind was asked for. */
module Factory {
  import opened Common
  import opened DriverCreation
  import opened ThreadLocalSinglePool

  /** The factory modes; `OtherMode` stands for any value the mode switch has no
      case for. */
  datatype WebDriverFactoryMode =
    | Singleton
    | ThreadLocalSingleton
    | Unrestricted
    | OtherMode(name: string)

  /** The kinds of pool a mode selects. */
  datatype PoolKind = SinglePool | ThreadLocalPool | LoosePool

  /** createFactoryInternal's mode switch: each supported mode selects its pool
      kind; any other mode is an error. */
  function PoolKindFor(mode: WebDriverFactoryMode): (r: Result<PoolKind>)
    ensures r.Err? <==> mode.OtherMode?
    ensures r.Err? ==> r.error == UnsupportedMode(mode.name)
  {
    match mode
    case Singleton => Ok(SinglePool)
    case ThreadLocalSingleton => Ok(ThreadLocalPool)
    case Unrestricted => Ok(LoosePool)
    case OtherMode(name) => Err(UnsupportedMode(name))
  }

  /** The mode that selects a pool kind. */
  function ModeFor(kind: PoolKind): (mode: WebDriverFactoryMode)
    ensures !mode.OtherMode?
  {
    match kind
    case SinglePool => Singleton
    case ThreadLocalPool => ThreadLocalSingleton
    case LoosePool => Unrestricted
  }

  /** The mode switch is a bijection between the supported modes and the pool
      kinds: every kind is selected by exactly one mode. */
  lemma PoolKindRoundTrip(kind: PoolKind, mode: WebDriverFactoryMode)
    ensures PoolKindFor(ModeFor(kind)) == Ok(kind)
    ensures PoolKindFor(mode).Ok? ==> ModeFor(PoolKindFor(mode).value) == mode
    ensures PoolKindFor(mode) == Ok(kind) <==> mode == ModeFor(kind)
  {
  }

  class WebDriverFactory {
    /** the kind of pool the current pool was created as */
    var kind: PoolKind
    /** the current pool */
    var pool: ThreadLocalSingleWebDriverPool

    ghost predicate Valid()
      reads this, pool
    {
      pool.Valid()
    }

    /** The initial pool is the shared default pool, a thread-local pool. */
    constructor (defaultPool: ThreadLocalSingleWebDriverPool)
      requires defaultPool.Valid()
      ensures Valid()
      ensures pool == defaultPool && kind == ThreadLocalPool
    {
      pool := defaultPool;
      kind := ThreadLocalPool;
    }

    /** isEmpty: the current pool holds no driver. */
    function IsEmpty(): (empty: bool)
      reads this, pool
      requires Valid()
      ensures empty <==> pool.driverToKey == map[]
    {
      pool.IsEmpty()
    }

    /** setMode: refused while the current pool holds a driver; otherwise the mode
        switch picks the kind, and a fresh, empty pool of that kind replaces the
        current one. Both refusals leave the current pool in place. */
    method SetMode(mode: WebDriverFactoryMode, discoveredLocal: seq<LocalProvider>,
                   discoveredRemote: seq<RemoteProvider>) returns (o: Outcome)
      requires Valid()
      modifies this
      ensures Valid()
      ensures !old(IsEmpty()) ==> o == Fail(ActiveDrivers) && pool == old(pool) && kind == old(kind)
      ensures old(IsEmpty()) && mode.OtherMode? ==>
                o == Fail(UnsupportedMode(mode.name)) && pool == old(pool) && kind == old(kind)
      ensures old(IsEmpty()) && !mode.OtherMode? ==>
                && o == Pass && PoolKindFor(mode) == Ok(kind) && fresh(pool) && IsEmpty()
                && pool.localProviders == BuiltInLocalChain + discoveredLocal
                && pool.remoteProviders == BuiltInRemoteChain + discoveredRemote
                && pool.checker == DefaultChecker && pool.defaultHub == None
                && pool.State() == Book(map[], map[], map[], 0) && pool.quitLog == []
    {
      if !pool.IsEmpty() {
        return Fail(ActiveDrivers);
      }
      var selected := PoolKindFor(mode);
      if selected.Err? {
        return Fail(selected.error);
      }
      var created := new ThreadLocalSingleWebDriverPool(discoveredLocal, discoveredRemote);
      pool, kind := created, selected.value;
      return Pass;
    }

    method SetDriverAlivenessChecker(c: Checker)
      modifies pool`checker
      ensures pool.checker == c
    {
      pool.SetDriverAlivenessChecker(c);
    }

    method AddLocalDriverProvider(p: LocalProvider)
      modifies pool`localProviders
      ensures pool.localProviders == [p] + old(pool.localProviders)
    {
      pool.AddLocalDriverProvider(p);
    }

    method AddRemoteDriverProvider(p: RemoteProvider)
      modifies pool`remoteProviders
      ensures pool.remoteProviders == [p] + old(pool.remoteProviders)
    {
      pool.AddRemoteDriverProvider(p);
    }

    method SetDefaultHub(hub: Option<string>)
      modifies pool`defaultHub
      ensures pool.defaultHub == hub
    {
      pool.SetDefaultHub(hub);
    }

    method GetDriver(hub: Option<string>, caps: Capabilities, me: ThreadId, env: Environment)
      returns (r: Result<Driver>)
      requires Valid() && me in env.running
      modifies pool`driverToKey, pool`driverToThread, pool`slots, pool`nextDriver, pool`quitLog
      ensures Valid()
      ensures pool.Acquired(hub, caps, me, env, r)
    {
      r := pool.GetDriver(hub, caps, me, env);
    }

    method GetDriverOnDefaultHub(caps: Capabilities, me: ThreadId, env: Environment) returns (r: Result<Driver>)
      requires Valid() && me in env.running
      modifies pool`driverToKey, pool`driverToThread, pool`slots, pool`nextDriver, pool`quitLog
      ensures Valid()
      ensures pool.Acquired(pool.defaultHub, caps, me, env, r)
    {
      r := pool.GetDriverOnDefaultHub(caps, me, env);
    }

    method DismissDriver(d: Driver, me: ThreadId, env: Environment) returns (o: Outcome)
      requires Valid() && me in env.running
      modifies pool`driverToKey, pool`driverToThread, pool`slots, pool`quitLog
      ensures Valid()
      ensures pool.Dismissed(d, me, env, o)
    {
      o := pool.DismissDriver(d, me, env);
    }

    method DismissAll(env: Environment) returns (o: Outcome)
      requires Valid()
      modifies pool`driverToKey, pool`driverToThread, pool`quitLog
      ensures Valid()
      ensures o.Pass? <==> QuitsCleanly(env, old(pool.driverToKey).Keys)
      ensures o.Pass? ==> IsEmpty() && QuitEach(old(pool.quitLog), pool.quitLog, old(pool.driverToKey).Keys)
      ensures o.Fail? ==> pool.Interrupted(old(pool.driverToKey).Keys, env, o)
    {
      o := pool.DismissAll(env);
    }
  }
}
