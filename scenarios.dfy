/** Client scenarios of the thread-local pool, derived from its contracts alone:
    a thread that asks twice for the same capabilities gets the same driver;
    dismissing it leaves the pool empty; a driver the pool does not own cannot
    be dismissed. Each scenario starts from a new pool whose local chain begins
    with a custom provider that always creates. */
module Scenarios {
  import opened Common
  import opened ProviderChain
  import opened DriverCreation
  import opened ThreadLocalSinglePool

  /** An environment in which the custom local provider 0 creates a driver for
      every request, every driver stays alive and every `quit()` succeeds. */
  ghost predicate Cooperative(env: Environment)
  {
    && (forall caps :: env.localCustom(0, caps) == Created)
    && (forall d :: env.alive(DefaultChecker, d))
    && (forall d :: !env.quitFails(d))
  }

  /** With a custom provider at the head of the local chain that always creates,
      local creation succeeds. */
  lemma CustomFirstCreates(chain: seq<LocalProvider>, caps: Capabilities, env: Environment)
    requires Cooperative(env)
    ensures Creation([LocalCustom(0)] + chain, [], None, caps, env) == Pass
  {
    AddedLocalProviderFirst(LocalCustom(0), chain, [], caps, env);
  }

  /** A fresh pool whose local chain starts with the custom provider 0. */
  method CustomPool() returns (pool: ThreadLocalSingleWebDriverPool)
    ensures fresh(pool) && pool.Valid()
    ensures pool.State() == Book(map[], map[], map[], 0)
    ensures pool.localProviders == [LocalCustom(0)] + BuiltInLocalChain && pool.checker == DefaultChecker
  {
    pool := new ThreadLocalSingleWebDriverPool([], []);
    pool.AddLocalDriverProvider(LocalCustom(0));
  }

  /** The first getDriver of a thread on a fresh pool creates driver 0 and fills
      the thread's slot. */
  method FirstDriver(pool: ThreadLocalSingleWebDriverPool, caps: Capabilities, me: ThreadId, env: Environment)
    returns (first: Result<Driver>)
    requires pool.Valid() && pool.State() == Book(map[], map[], map[], 0)
    requires pool.localProviders == [LocalCustom(0)] + BuiltInLocalChain && pool.checker == DefaultChecker
    requires me in env.running && Cooperative(env)
    modifies pool
    ensures pool.Valid() && first == Ok(0) && pool.localProviders == old(pool.localProviders)
    ensures pool.State() == Book(map[0 := CreateKey(caps, None)], map[0 := me], map[me := 0], 1)
    ensures pool.checker == DefaultChecker && pool.defaultHub == old(pool.defaultHub)
  {
    CustomFirstCreates(BuiltInLocalChain, caps, env);
    assert pool.StaleDrivers(env.running) == {};
    assert Decide(SlotIn(pool.slots, me), pool.driverToKey, CreateKey(caps, None), Liveness(env, pool.checker)) == CreateFresh;
    ghost var b0 := pool.State();
    assert b0 == Book(pool.driverToKey - {}, pool.driverToThread - {}, pool.slots, pool.nextDriver);
    first := pool.GetDriver(None, caps, me, env);
    assert Made(b0, Pass, CreateKey(caps, None), me, pool.State(), first);
  }

  /** getDriver twice with the same capabilities hands out the same driver and
      creates nothing the second time. */
  method ReuseSameDriver(caps: Capabilities, me: ThreadId, env: Environment)
    returns (first: Result<Driver>, second: Result<Driver>, created: nat)
    requires me in env.running && Cooperative(env)
    ensures first.Ok? && second == first && created == 1
  {
    var pool := CustomPool();
    first := FirstDriver(pool, caps, me, env);
    ghost var b1 := pool.State();
    assert pool.StaleDrivers(env.running) == {};
    assert Decide(SlotIn(pool.slots, me), pool.driverToKey, CreateKey(caps, None), Liveness(env, pool.checker)) == Reuse(0);
    assert b1 == Book(pool.driverToKey - {}, pool.driverToThread - {}, pool.slots, pool.nextDriver);
    second := pool.GetDriver(None, caps, me, env);
    created := pool.nextDriver;
  }

  /** A driver handed out and then dismissed by its own thread leaves the pool
      empty. */
  method CreateThenDismiss(caps: Capabilities, me: ThreadId, env: Environment)
    returns (first: Result<Driver>, dismissed: Outcome, emptied: bool)
    requires me in env.running && Cooperative(env)
    ensures first.Ok? && dismissed == Pass && emptied
  {
    var pool := CustomPool();
    first := FirstDriver(pool, caps, me, env);
    ghost var b1 := pool.State();
    assert pool.StaleDrivers(env.running) == {};
    assert b1 == Book(pool.driverToKey - {}, pool.driverToThread - {}, pool.slots, pool.nextDriver);
    dismissed := pool.DismissDriver(0, me, env);
    assert Released(b1, 0, me, env.quitFails, pool.State(), dismissed);
    emptied := pool.IsEmpty();
  }

  /** A driver the pool never handed out is refused as not owned, and the pool
      keeps its own driver. Ids are handed out in order, so an id at or above
      the pool's next id stands for a driver created outside the pool; here it
      is the id just after the pool's only driver. */
  method ForeignDriverRefused(caps: Capabilities, me: ThreadId, env: Environment)
    returns (own: Result<Driver>, refused: Outcome, emptied: bool)
    requires me in env.running && Cooperative(env)
    ensures own.Ok? && refused == Fail(NotOwned(own.value + 1)) && !emptied
  {
    var pool := CustomPool();
    own := FirstDriver(pool, caps, me, env);
    var foreign := own.value + 1;
    ghost var b1 := pool.State();
    assert foreign >= b1.next;
    assert foreign !in b1.keys;
    assert pool.StaleDrivers(env.running) == {};
    assert b1 == Book(pool.driverToKey - {}, pool.driverToThread - {}, pool.slots, pool.nextDriver);
    refused := pool.DismissDriver(foreign, me, env);
    assert Released(b1, foreign, me, env.quitFails, pool.State(), refused);
    RefusedDismissalChangesNothing(b1, foreign, me, env.quitFails, pool.State(), refused);
    assert 0 in pool.driverToKey;
    emptied := pool.IsEmpty();
  }
}
