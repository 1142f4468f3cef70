/** ThreadLocalSingleWebDriverPool: at most one driver per thread, kept in the
    thread's own slot, reused while the key matches and the liveness checker
    says the driver is alive, and reaped once its thread has finished.

    The pool is a class whose fields are the source's fields: the two
    synchronized maps (driver to key, driver to thread), the thread-local slot
    as a map from thread to driver, and the fields of the abstract pool (the
    provider chains, the liveness checker, the default hub). A calling thread is
    an explicit parameter and the still-running threads come with the
    environment. Driver creation hands out fresh ids from `nextDriver`, and every
    `quit()` call is appended to the ghost `quitLog`. */
module ThreadLocalSinglePool {
  import opened Common
  import opened DriverCreation

  // ---------------------------------------------------------------- bookkeeping

  /** The pool's bookkeeping invariant. The two maps record the same drivers; a
      recorded driver sits in the slot of the thread it is recorded under; a slot
      holding a recorded driver belongs to that driver's thread; every driver in a
      slot was handed out before `next`. */
  ghost predicate Bookkeeping(keys: map<Driver, string>, threads: map<Driver, ThreadId>,
                              slots: map<ThreadId, Driver>, next: nat)
  {
    && keys.Keys == threads.Keys
    && (forall t :: t in slots ==> slots[t] < next)
    && (forall d :: d in threads ==> threads[d] in slots && slots[threads[d]] == d)
    && (forall t :: t in slots && slots[t] in threads ==> threads[slots[t]] == t)
  }

  /** A thread has at most one recorded driver. */
  lemma OneDriverPerThread(keys: map<Driver, string>, threads: map<Driver, ThreadId>,
                           slots: map<ThreadId, Driver>, next: nat, d1: Driver, d2: Driver)
    requires Bookkeeping(keys, threads, slots, next)
    requires d1 in threads && d2 in threads && threads[d1] == threads[d2]
    ensures d1 == d2
  {
  }

  /** The next id is not recorded and is in no slot. */
  lemma NextIsFresh(keys: map<Driver, string>, threads: map<Driver, ThreadId>,
                    slots: map<ThreadId, Driver>, next: nat)
    requires Bookkeeping(keys, threads, slots, next)
    ensures next !in keys && next !in threads
    ensures forall t :: t in slots ==> slots[t] != next
  {
  }

  /** Forgetting any set of drivers keeps the invariant. */
  lemma ForgetKeepsBookkeeping(keys: map<Driver, string>, threads: map<Driver, ThreadId>,
                               slots: map<ThreadId, Driver>, next: nat, gone: set<Driver>)
    requires Bookkeeping(keys, threads, slots, next)
    ensures Bookkeeping(keys - gone, threads - gone, slots, next)
  {
  }

  /** Forgetting a thread's driver together with its slot keeps the invariant. */
  lemma ReleaseKeepsBookkeeping(keys: map<Driver, string>, threads: map<Driver, ThreadId>,
                                slots: map<ThreadId, Driver>, next: nat, me: ThreadId)
    requires Bookkeeping(keys, threads, slots, next)
    requires me in slots
    ensures Bookkeeping(keys - {slots[me]}, threads - {slots[me]}, slots - {me}, next)
  {
  }

  /** Recording a fresh driver for a thread that has no recorded driver keeps the
      invariant. */
  lemma RecordKeepsBookkeeping(keys: map<Driver, string>, threads: map<Driver, ThreadId>,
                               slots: map<ThreadId, Driver>, next: nat, me: ThreadId, key: string)
    requires Bookkeeping(keys, threads, slots, next)
    requires me in slots ==> slots[me] !in threads
    ensures Bookkeeping(keys[next := key], threads[next := me], slots[me := next], next + 1)
  {
    NextIsFresh(keys, threads, slots, next);
    var threads', slots' := threads[next := me], slots[me := next];
    forall d | d in threads'
      ensures threads'[d] in slots' && slots'[threads'[d]] == d
    {
      if d != next {
        assert threads[d] != me;
      }
    }
  }

  // ---------------------------------------------------------------- quits

  /** From `log0` to `log1` the log grew by one `quit()` of each driver in `gone`
      and nothing else. */
  ghost predicate QuitEach(log0: seq<Driver>, log1: seq<Driver>, gone: set<Driver>)
  {
    |log0| <= |log1| && log1[..|log0|] == log0 && multiset(log1[|log0|..]) == multiset(gone)
  }

  lemma QuitNone(log: seq<Driver>)
    ensures QuitEach(log, log, {})
  {
    assert log[|log|..] == [];
  }

  /** One more quit of a driver not yet quit. */
  lemma QuitOneMore(log0: seq<Driver>, log1: seq<Driver>, gone: set<Driver>, d: Driver)
    requires QuitEach(log0, log1, gone)
    requires d !in gone
    ensures QuitEach(log0, log1 + [d], gone + {d})
  {
    assert (log1 + [d])[..|log0|] == log1[..|log0|];
    assert (log1 + [d])[|log0|..] == log1[|log0|..] + [d];
    assert multiset(gone + {d}) == multiset(gone) + multiset{d};
  }

  /** Two rounds of quits over disjoint sets of drivers. */
  lemma QuitInTurn(log0: seq<Driver>, log1: seq<Driver>, log2: seq<Driver>, a: set<Driver>, b: set<Driver>)
    requires QuitEach(log0, log1, a) && QuitEach(log1, log2, b)
    requires a !! b
    ensures QuitEach(log0, log2, a + b)
  {
    assert log2[..|log0|] == log2[..|log1|][..|log0|];
    assert log2[|log0|..] == log2[|log0|..|log1|] + log2[|log1|..];
    assert log2[|log0|..|log1|] == log1[|log0|..];
    assert multiset(a + b) == multiset(a) + multiset(b);
  }

  /** No driver in `ds` fails to quit. */
  ghost predicate QuitsCleanly(env: Environment, ds: set<Driver>)
  {
    forall d :: d in ds ==> !env.quitFails(d)
  }

  // ---------------------------------------------------------------- decision

  /** What getDriver does with the caller's slot. */
  datatype Step =
    | CreateFresh              // nothing usable in the slot: create
    | Replace(current: Driver) // dismiss the slot's driver, then create
    | Reuse(current: Driver)   // hand out the slot's driver again

  /** getDriver's decision table: an empty slot, or a slot whose driver has no key
      record, gets a new driver; a different key replaces the driver without
      asking the checker; the same key reuses the driver if the checker finds it
      alive and replaces it otherwise. */
  function Decide(slot: Option<Driver>, keys: map<Driver, string>, newKey: string, alive: Driver -> bool): (step: Step)
    ensures !step.CreateFresh? ==> slot == Some(step.current) && step.current in keys
    ensures step.Reuse? ==> keys[step.current] == newKey
  {
    if slot.None? || slot.value !in keys then CreateFresh
    else if keys[slot.value] != newKey then Replace(slot.value)
    else if !alive(slot.value) then Replace(slot.value)
    else Reuse(slot.value)
  }

  /** The slot's driver is reused exactly when it is recorded under the requested
      key and the checker finds it alive. */
  lemma ReuseExactlyWhenSameKeyAndAlive(slot: Option<Driver>, keys: map<Driver, string>, newKey: string,
                                        alive: Driver -> bool, d: Driver)
    ensures Decide(slot, keys, newKey, alive) == Reuse(d) <==>
              slot == Some(d) && d in keys && keys[d] == newKey && alive(d)
  {
  }

  /** A new driver is created without dismissing anything exactly when the slot is
      empty or its driver has no key record. */
  lemma CreateFreshExactlyWhenNothingRecorded(slot: Option<Driver>, keys: map<Driver, string>, newKey: string,
                                              alive: Driver -> bool)
    ensures Decide(slot, keys, newKey, alive) == CreateFresh <==> slot.None? || slot.value !in keys
  {
  }

  /** Only the slot's own recorded driver is ever replaced, and only when its key
      differs or the checker finds it dead. */
  lemma ReplaceOnlyTheSlotDriver(slot: Option<Driver>, keys: map<Driver, string>, newKey: string,
                                 alive: Driver -> bool, d: Driver)
    ensures Decide(slot, keys, newKey, alive) == Replace(d) <==>
              slot == Some(d) && d in keys && (keys[d] != newKey || !alive(d))
  {
  }

  /** The checker is consulted only when the key matches: otherwise any two
      checkers lead to the same step. */
  lemma CheckerOnlyOnSameKey(slot: Option<Driver>, keys: map<Driver, string>, newKey: string,
                             alive1: Driver -> bool, alive2: Driver -> bool)
    requires !(slot.Some? && slot.value in keys && keys[slot.value] == newKey)
    ensures Decide(slot, keys, newKey, alive1) == Decide(slot, keys, newKey, alive2)
  {
  }

  /** Forgetting records other than the slot driver's does not change the decision. */
  lemma DecideIgnoresOtherRecords(slot: Option<Driver>, keys: map<Driver, string>, gone: set<Driver>,
                                  newKey: string, alive: Driver -> bool)
    requires slot.Some? && slot.value in keys ==> slot.value !in gone
    ensures Decide(slot, keys - gone, newKey, alive) == Decide(slot, keys, newKey, alive)
  {
  }

  /** The pool's bookkeeping as a value: the two record maps, the slots and the
      id the next created driver gets. */
  datatype Book = Book(keys: map<Driver, string>, threads: map<Driver, ThreadId>,
                       slots: map<ThreadId, Driver>, next: nat)

  /** createNewDriver from book `b`, for the caller `me` and the requested `key`:
      when creation succeeds the new driver takes the next id, is recorded under
      the key and the caller and fills the caller's slot; when it fails, nothing
      changes. */
  ghost predicate Made(b: Book, creation: Outcome, key: string, me: ThreadId, b': Book, r: Result<Driver>)
  {
    if creation.Pass? then
      r == Ok(b.next) &&
      b' == Book(b.keys[b.next := key], b.threads[b.next := me], b.slots[me := b.next], b.next + 1)
    else
      r == Err(creation.error) && b' == b
  }

  /** A book without driver `d`'s records and without thread `me`'s slot. */
  function Release(b: Book, d: Driver, me: ThreadId): (b': Book)
    ensures d !in b'.keys && d !in b'.threads && me !in b'.slots && b'.next == b.next
    ensures forall e :: e in b.keys && e != d ==> e in b'.keys && b'.keys[e] == b.keys[e]
  {
    Book(b.keys - {d}, b.threads - {d}, b.slots - {me}, b.next)
  }

  /** dismissDriver(d) after its reap, called by thread `me`: a driver without a
      key record is refused as not owned, a driver other than the caller's slot
      driver is refused as belonging to another thread; otherwise the driver is
      quit and, unless `quit()` throws, its records and the caller's slot are
      released. */
  ghost predicate Released(b: Book, d: Driver, me: ThreadId, quitFails: Driver -> bool, b': Book, o: Outcome)
  {
    if d !in b.keys then o == Fail(NotOwned(d)) && b' == b
    else if me !in b.slots || b.slots[me] != d then o == Fail(NotCurrentThread(d)) && b' == b
    else if quitFails(d) then o == Fail(QuitRaised(d)) && b' == b
    else o == Pass && b' == Release(b, d, me)
  }

  /** The drivers dismissDriver(d) quits after its reap: `d`, once it passed both checks. */
  function ReleaseQuits(b: Book, d: Driver, me: ThreadId): (ds: set<Driver>)
    ensures ds == {} || ds == {d}
  {
    if d in b.keys && me in b.slots && b.slots[me] == d then {d} else {}
  }

  /** The drivers a step of getDriver quits. */
  function Quits(step: Step): (ds: set<Driver>)
    ensures ds == {} <==> !step.Replace?
  {
    if step.Replace? then {step.current} else {}
  }

  /** getDriver after its reap, from book `b`: reuse hands out the slot's driver
      and changes nothing; replace dismisses the slot's driver (unless its `quit()`
      throws, which changes nothing) and then creates; create-fresh creates. */
  ghost predicate Served(b: Book, step: Step, creation: Outcome, key: string, me: ThreadId,
                         quitFails: Driver -> bool, b': Book, r: Result<Driver>)
  {
    match step
    case Reuse(d) => r == Ok(d) && b' == b
    case CreateFresh => Made(b, creation, key, me, b', r)
    case Replace(d) =>
      if quitFails(d) then r == Err(QuitRaised(d)) && b' == b
      else Made(Release(b, d, me), creation, key, me, b', r)
  }

  /** Whatever path getDriver takes, a driver it hands out sits in the caller's
      slot, recorded under the requested key and the calling thread. */
  lemma ServedDriverBelongsToCaller(b: Book, alive: Driver -> bool, creation: Outcome, key: string,
                                    me: ThreadId, quitFails: Driver -> bool, b': Book, r: Result<Driver>)
    requires Bookkeeping(b.keys, b.threads, b.slots, b.next)
    requires Served(b, Decide(if me in b.slots then Some(b.slots[me]) else None, b.keys, key, alive),
                    creation, key, me, quitFails, b', r)
    requires r.Ok?
    ensures me in b'.slots && b'.slots[me] == r.value
    ensures r.value in b'.keys && b'.keys[r.value] == key
    ensures r.value in b'.threads && b'.threads[r.value] == me
  {
  }

  /** The driver in a thread's slot, if any. */
  function SlotIn(slots: map<ThreadId, Driver>, t: ThreadId): Option<Driver>
  {
    if t in slots then Some(slots[t]) else None
  }

  /** getDriver's reap does not change the decision for the caller's slot, so a
      serve after the reap is a serve from the reaped book by the decision on the
      original one, and the reap's quits come before the serve's. */
  lemma ReapThenServe(b0: Book, stale: set<Driver>, mid: Book, log0: seq<Driver>, midLog: seq<Driver>,
                      log1: seq<Driver>, key: string, me: ThreadId, alive: Driver -> bool, creation: Outcome,
                      quitFails: Driver -> bool, b1: Book, r: Result<Driver>)
    requires mid == Book(b0.keys - stale, b0.threads - stale, b0.slots, b0.next)
    requires me in b0.slots && b0.slots[me] in b0.threads ==> b0.slots[me] !in stale
    requires b0.keys.Keys == b0.threads.Keys
    requires QuitEach(log0, midLog, stale)
    requires Served(mid, Decide(SlotIn(mid.slots, me), mid.keys, key, alive), creation, key, me, quitFails, b1, r)
    requires QuitEach(midLog, log1, Quits(Decide(SlotIn(mid.slots, me), mid.keys, key, alive)))
    ensures Served(mid, Decide(SlotIn(b0.slots, me), b0.keys, key, alive), creation, key, me, quitFails, b1, r)
    ensures QuitEach(log0, log1, stale + Quits(Decide(SlotIn(b0.slots, me), b0.keys, key, alive)))
  {
    var step := Decide(SlotIn(b0.slots, me), b0.keys, key, alive);
    DecideIgnoresOtherRecords(SlotIn(b0.slots, me), b0.keys, stale, key, alive);
    assert Quits(step) == {} || Quits(step) == {b0.slots[me]};
    QuitInTurn(log0, midLog, log1, stale, Quits(step));
  }

  /** Every path of getDriver after its reap keeps the bookkeeping invariant and
      never reuses an id. */
  lemma ServedKeepsBookkeeping(b: Book, alive: Driver -> bool, creation: Outcome, key: string, me: ThreadId,
                               quitFails: Driver -> bool, b': Book, r: Result<Driver>)
    requires Bookkeeping(b.keys, b.threads, b.slots, b.next)
    requires Served(b, Decide(SlotIn(b.slots, me), b.keys, key, alive), creation, key, me, quitFails, b', r)
    ensures Bookkeeping(b'.keys, b'.threads, b'.slots, b'.next)
    ensures b.next <= b'.next
  {
    match Decide(SlotIn(b.slots, me), b.keys, key, alive)
    case Reuse(_) =>
    case CreateFresh =>
      if creation.Pass? {
        RecordKeepsBookkeeping(b.keys, b.threads, b.slots, b.next, me, key);
      }
    case Replace(d) =>
      if !quitFails(d) {
        ReleaseKeepsBookkeeping(b.keys, b.threads, b.slots, b.next, me);
        var released := Release(b, d, me);
        if creation.Pass? {
          RecordKeepsBookkeeping(released.keys, released.threads, released.slots, released.next, me, key);
        }
      }
  }

  /** Asking again for the same key, from the same thread, while the checker
      still finds the driver alive, hands out the same driver. */
  lemma ServedThenReused(b: Book, alive: Driver -> bool, creation: Outcome, key: string, me: ThreadId,
                         quitFails: Driver -> bool, b': Book, r: Result<Driver>)
    requires Bookkeeping(b.keys, b.threads, b.slots, b.next)
    requires Served(b, Decide(SlotIn(b.slots, me), b.keys, key, alive), creation, key, me, quitFails, b', r)
    requires r.Ok? && alive(r.value)
    ensures Decide(SlotIn(b'.slots, me), b'.keys, key, alive) == Reuse(r.value)
  {
    ServedDriverBelongsToCaller(b, alive, creation, key, me, quitFails, b', r);
  }

  /** A driver dismissed by its own thread is gone: its records and the thread's
      slot are released, so the thread's next getDriver creates a new driver. */
  lemma ReleasedThenCreateFresh(b: Book, d: Driver, me: ThreadId, quitFails: Driver -> bool, b': Book,
                                key: string, alive: Driver -> bool)
    requires Bookkeeping(b.keys, b.threads, b.slots, b.next)
    requires Released(b, d, me, quitFails, b', Pass)
    ensures Bookkeeping(b'.keys, b'.threads, b'.slots, b'.next)
    ensures d !in b'.keys && d !in b'.threads && me !in b'.slots
    ensures Decide(SlotIn(b'.slots, me), b'.keys, key, alive) == CreateFresh
  {
    ReleaseKeepsBookkeeping(b.keys, b.threads, b.slots, b.next, me);
  }

  /** A refused dismissal (not owned, another thread's driver, or a `quit()` that
      throws) changes nothing. */
  lemma RefusedDismissalChangesNothing(b: Book, d: Driver, me: ThreadId, quitFails: Driver -> bool, b': Book,
                                       o: Outcome)
    requires Released(b, d, me, quitFails, b', o)
    ensures o.Fail? <==> (d !in b.keys || SlotIn(b.slots, me) != Some(d) || quitFails(d))
    ensures o.Fail? ==> b' == b
    ensures o == Fail(NotOwned(d)) <==> d !in b.keys
  {
  }

  /** A driver whose `quit()` throws survives its own dismissal: the exception
      propagates before any record is removed, so the driver stays recorded in
      the caller's slot, and the caller's next request with the same key gets
      this driver back while the checker finds it alive. */
  lemma FailedQuitKeepsDriver(b: Book, d: Driver, me: ThreadId, quitFails: Driver -> bool, b': Book,
                              o: Outcome, key: string, alive: Driver -> bool)
    requires Released(b, d, me, quitFails, b', o)
    requires d in b.keys && b.keys[d] == key && SlotIn(b.slots, me) == Some(d)
    requires quitFails(d) && alive(d)
    ensures o == Fail(QuitRaised(d))
    ensures Decide(SlotIn(b'.slots, me), b'.keys, key, alive) == Reuse(d)
  {
  }

  // ---------------------------------------------------------------- the pool

  class ThreadLocalSingleWebDriverPool {
    var localProviders: seq<LocalProvider>
    var remoteProviders: seq<RemoteProvider>
    var checker: Checker
    var defaultHub: Option<string>
    var driverToKey: map<Driver, string>
    var driverToThread: map<Driver, ThreadId>
    /** tlDriver: the driver in each thread's slot */
    var slots: map<ThreadId, Driver>
    /** the id the next created driver gets */
    var nextDriver: nat
    /** every `quit()` call the pool has made, in order */
    ghost var quitLog: seq<Driver>

    ghost predicate Valid()
      reads this`driverToKey, this`driverToThread, this`slots, this`nextDriver
    {
      Bookkeeping(driverToKey, driverToThread, slots, nextDriver)
    }

    /** The bookkeeping fields as a value. */
    ghost function State(): Book
      reads this`driverToKey, this`driverToThread, this`slots, this`nextDriver
    {
      Book(driverToKey, driverToThread, slots, nextDriver)
    }

    /** The recorded drivers whose thread is no longer running. */
    function StaleDrivers(running: set<ThreadId>): set<Driver>
      reads this`driverToThread
    {
      set d | d in driverToThread && driverToThread[d] !in running
    }

    /** The records are `keys` and `threads`. */
    ghost predicate Records(keys: map<Driver, string>, threads: map<Driver, ThreadId>)
      reads this`driverToKey, this`driverToThread
    {
      driverToKey == keys && driverToThread == threads
    }

    /** A sweep over `targets` stopped at a driver whose `quit()` threw: the drivers
        quit cleanly before it are forgotten, it and the rest stay recorded. */
    twostate predicate Interrupted(targets: set<Driver>, env: Environment, o: Outcome)
      reads this
    {
      && o.Fail? && o.error.QuitRaised? && o.error.driver in targets && env.quitFails(o.error.driver)
      && var gone := old(driverToKey).Keys - driverToKey.Keys;
         && gone <= targets - {o.error.driver}
         && QuitsCleanly(env, gone)
         && Records(old(driverToKey) - gone, old(driverToThread) - gone)
         && QuitEach(old(quitLog), quitLog, gone + {o.error.driver})
    }

    /** A new pool: the built-in chains followed by the discovered providers, the
        default checker, no default hub and no drivers. */
    constructor (discoveredLocal: seq<LocalProvider>, discoveredRemote: seq<RemoteProvider>)
      ensures Valid()
      ensures localProviders == BuiltInLocalChain + discoveredLocal
      ensures remoteProviders == BuiltInRemoteChain + discoveredRemote
      ensures checker == DefaultChecker && defaultHub == None
      ensures State() == Book(map[], map[], map[], 0) && quitLog == []
    {
      localProviders := BuiltInLocalChain + discoveredLocal;
      remoteProviders := BuiltInRemoteChain + discoveredRemote;
      checker := DefaultChecker;
      defaultHub := None;
      driverToKey := map[];
      driverToThread := map[];
      slots := map[];
      nextDriver := 0;
      quitLog := [];
    }

    /** isEmpty: no driver is recorded. */
    function IsEmpty(): (empty: bool)
      reads this`driverToKey, this`driverToThread, this`slots, this`nextDriver
      requires Valid()
      ensures empty <==> driverToKey == map[]
      ensures empty <==> driverToThread == map[]
    {
      |driverToKey| == 0
    }

    method AddLocalDriverProvider(p: LocalProvider)
      modifies this`localProviders
      ensures localProviders == [p] + old(localProviders)
    {
      localProviders := [p] + localProviders;
    }

    method AddRemoteDriverProvider(p: RemoteProvider)
      modifies this`remoteProviders
      ensures remoteProviders == [p] + old(remoteProviders)
    {
      remoteProviders := [p] + remoteProviders;
    }

    method SetDriverAlivenessChecker(c: Checker)
      modifies this`checker
      ensures checker == c
    {
      checker := c;
    }

    method SetDefaultHub(hub: Option<string>)
      modifies this`defaultHub
      ensures defaultHub == hub
    {
      defaultHub := hub;
    }

    /** newDriver: creation through the chain the hub selects. */
    method NewDriver(hub: Option<string>, caps: Capabilities, env: Environment) returns (o: Outcome)
      ensures o == Creation(localProviders, remoteProviders, hub, caps, env)
    {
      match hub {
        case None =>
          o := CreateLocalDriver(localProviders, caps, env);
        case Some(h) =>
          o := CreateRemoteDriver(remoteProviders, h, caps, env);
      }
    }

    /** The loop that reaping and dismissAll share: quit each driver of a snapshot
        and forget its records, in no particular order; a `quit()` that throws ends
        the sweep with that driver still recorded. */
    method DismissEach(targets: set<Driver>, env: Environment) returns (o: Outcome)
      requires Valid()
      requires targets <= driverToKey.Keys
      modifies this`driverToKey, this`driverToThread, this`quitLog
      ensures Valid()
      ensures o.Pass? <==> QuitsCleanly(env, targets)
      ensures o.Pass? ==>
                Records(old(driverToKey) - targets, old(driverToThread) - targets) &&
                QuitEach(old(quitLog), quitLog, targets)
      ensures o.Fail? ==> Interrupted(targets, env, o)
    {
      var todo := targets;
      ghost var done: set<Driver> := {};
      QuitNone(quitLog);
      while todo != {}
        invariant todo + done == targets && todo !! done
        invariant Records(old(driverToKey) - done, old(driverToThread) - done)
        invariant QuitEach(old(quitLog), quitLog, done)
        invariant QuitsCleanly(env, done)
        decreases todo
      {
        var driver :| driver in todo;
        QuitOneMore(old(quitLog), quitLog, done, driver);
        quitLog := quitLog + [driver];
        if env.quitFails(driver) {
          assert old(driverToKey).Keys - driverToKey.Keys == done;
          ForgetKeepsBookkeeping(old(driverToKey), old(driverToThread), slots, nextDriver, done);
          return Fail(QuitRaised(driver));
        }
        driverToKey := driverToKey - {driver};
        driverToThread := driverToThread - {driver};
        todo := todo - {driver};
        done := done + {driver};
      }
      ForgetKeepsBookkeeping(old(driverToKey), old(driverToThread), slots, nextDriver, done);
      return Pass;
    }

    /** dismissDriversInFinishedThreads: quit and forget every recorded driver whose
        thread has finished; slots are left alone. */
    method DismissDriversInFinishedThreads(env: Environment) returns (o: Outcome)
      requires Valid()
      modifies this`driverToKey, this`driverToThread, this`quitLog
      ensures Valid()
      ensures o.Pass? <==> QuitsCleanly(env, old(StaleDrivers(env.running)))
      ensures o.Pass? ==>
                Records(old(driverToKey) - old(StaleDrivers(env.running)),
                        old(driverToThread) - old(StaleDrivers(env.running))) &&
                QuitEach(old(quitLog), quitLog, old(StaleDrivers(env.running)))
      ensures o.Pass? ==> StaleDrivers(env.running) == {}
      ensures o.Fail? ==> Interrupted(old(StaleDrivers(env.running)), env, o)
    {
      var stale := StaleDrivers(env.running);
      o := DismissEach(stale, env);
    }

    /** What dismissDriver(d) does when called by thread `me`: reap first; then
        refuse a driver without a key record, refuse a driver that is not in the
        caller's slot, and otherwise quit it and forget its records and the
        caller's slot. A `quit()` that throws leaves the records in place. */
    twostate predicate Dismissed(d: Driver, me: ThreadId, env: Environment, o: Outcome)
      reads this
    {
      var stale := old(StaleDrivers(env.running));
      if !QuitsCleanly(env, stale) then
        slots == old(slots) && Interrupted(stale, env, o)
      else
        var b := Book(old(driverToKey) - stale, old(driverToThread) - stale, old(slots), old(nextDriver));
        && Released(b, d, me, env.quitFails, State(), o)
        && QuitEach(old(quitLog), quitLog, stale + ReleaseQuits(b, d, me))
    }

    /** dismissDriver, called by thread `me`. */
    method DismissDriver(d: Driver, me: ThreadId, env: Environment) returns (o: Outcome)
      requires Valid() && me in env.running
      modifies this`driverToKey, this`driverToThread, this`slots, this`quitLog
      ensures Valid()
      ensures Dismissed(d, me, env, o)
    {
      ghost var stale := StaleDrivers(env.running);
      o := DismissDriversInFinishedThreads(env);
      if o.Fail? {
        return;
      }
      ghost var b := State();
      assert b == Book(old(driverToKey) - stale, old(driverToThread) - stale, old(slots), old(nextDriver));
      if d !in driverToKey {
        assert stale + ReleaseQuits(b, d, me) == stale;
        return Fail(NotOwned(d));
      }
      if me !in slots || d != slots[me] {
        assert stale + ReleaseQuits(b, d, me) == stale;
        return Fail(NotCurrentThread(d));
      }
      assert d !in stale && ReleaseQuits(b, d, me) == {d};
      QuitOneMore(old(quitLog), quitLog, stale, d);
      quitLog := quitLog + [d];
      if env.quitFails(d) {
        return Fail(QuitRaised(d));
      }
      ReleaseKeepsBookkeeping(driverToKey, driverToThread, slots, nextDriver, me);
      driverToKey, driverToThread, slots := driverToKey - {d}, driverToThread - {d}, slots - {me};
      assert State() == Release(b, d, me);
      return Pass;
    }

    /** dismissAll: quit and forget every recorded driver, of every thread, without
        reaping first; slots are left alone. */
    method DismissAll(env: Environment) returns (o: Outcome)
      requires Valid()
      modifies this`driverToKey, this`driverToThread, this`quitLog
      ensures Valid()
      ensures o.Pass? <==> QuitsCleanly(env, old(driverToKey).Keys)
      ensures o.Pass? ==> IsEmpty() && QuitEach(old(quitLog), quitLog, old(driverToKey).Keys)
      ensures o.Fail? ==> Interrupted(old(driverToKey).Keys, env, o)
    {
      o := DismissEach(driverToKey.Keys, env);
    }

    /** createNewDriver, called by thread `me`, whose slot holds no recorded driver. */
    method CreateNewDriver(caps: Capabilities, hub: Option<string>, me: ThreadId, env: Environment)
      returns (r: Result<Driver>)
      requires Valid()
      requires me in slots ==> slots[me] !in driverToKey
      modifies this`driverToKey, this`driverToThread, this`slots, this`nextDriver
      ensures Valid()
      ensures Made(old(State()), Creation(localProviders, remoteProviders, hub, caps, env), CreateKey(caps, hub), me,
                   State(), r)
    {
      var newKey := CreateKey(caps, hub);
      var o := NewDriver(hub, caps, env);
      if o.Fail? {
        return Err(o.error);
      }
      var driver := nextDriver;
      RecordKeepsBookkeeping(driverToKey, driverToThread, slots, nextDriver, me, newKey);
      nextDriver := nextDriver + 1;
      driverToKey := driverToKey[driver := newKey];
      driverToThread := driverToThread[driver := me];
      slots := slots[me := driver];
      return Ok(driver);
    }

    /** What getDriver(hub, caps) does when called by thread `me`: reap first, then
        follow the decision table on the caller's slot (Decide); a replaced driver
        is dismissed (quit once, records and slot forgotten) before the new one is
        created, and a failed creation leaves nothing recorded. */
    twostate predicate Acquired(hub: Option<string>, caps: Capabilities, me: ThreadId, env: Environment,
                                new r: Result<Driver>)
      reads this
    {
      var stale := old(StaleDrivers(env.running));
      if !QuitsCleanly(env, stale) then
        r.Err? && slots == old(slots) && nextDriver == old(nextDriver) && Interrupted(stale, env, Fail(r.error))
      else
        var key := CreateKey(caps, hub);
        var step := Decide(SlotIn(old(slots), me), old(driverToKey), key, Liveness(env, checker));
        && Served(Book(old(driverToKey) - stale, old(driverToThread) - stale, old(slots), old(nextDriver)),
                  step, Creation(localProviders, remoteProviders, hub, caps, env), key, me, env.quitFails, State(), r)
        && QuitEach(old(quitLog), quitLog, stale + Quits(step))
    }

    /** getDriver(hub, capabilities), called by thread `me`. */
    method GetDriver(hub: Option<string>, caps: Capabilities, me: ThreadId, env: Environment)
      returns (r: Result<Driver>)
      requires Valid() && me in env.running
      modifies this`driverToKey, this`driverToThread, this`slots, this`nextDriver, this`quitLog
      ensures Valid()
      ensures Acquired(hub, caps, me, env, r)
    {
      ghost var stale := StaleDrivers(env.running);
      var reaped := DismissDriversInFinishedThreads(env);
      if reaped.Fail? {
        r := Err(reaped.error);
        assert Fail(r.error) == reaped;
        return;
      }
      ghost var reapedLog := quitLog;
      ghost var reapedState := State();
      assert me in slots && slots[me] in old(driverToThread) ==> slots[me] !in stale;
      ghost var step := Decide(SlotIn(slots, me), driverToKey, CreateKey(caps, hub), Liveness(env, checker));
      r := Serve(hub, caps, me, env, reapedState, step);
      ReapThenServe(old(State()), stale, reapedState, old(quitLog), reapedLog, quitLog, CreateKey(caps, hub), me,
                    Liveness(env, checker), Creation(localProviders, remoteProviders, hub, caps, env), env.quitFails,
                    State(), r);
    }

    /** The rest of getDriver, after the reap. */
    method Serve(hub: Option<string>, caps: Capabilities, me: ThreadId, env: Environment, ghost b: Book, ghost step: Step)
      returns (r: Result<Driver>)
      requires Valid() && me in env.running
      requires StaleDrivers(env.running) == {}
      requires b == State() && step == Decide(SlotIn(slots, me), driverToKey, CreateKey(caps, hub), Liveness(env, checker))
      modifies this`driverToKey, this`driverToThread, this`slots, this`nextDriver, this`quitLog
      ensures Valid()
      ensures Served(b, step, Creation(localProviders, remoteProviders, hub, caps, env), CreateKey(caps, hub), me,
                     env.quitFails, State(), r)
      ensures QuitEach(old(quitLog), quitLog, Quits(step))
    {
      var newKey := CreateKey(caps, hub);
      if me !in slots {
        QuitNone(quitLog);
        r := CreateNewDriver(caps, hub, me, env);
      } else {
        var key := if slots[me] in driverToKey then Some(driverToKey[slots[me]]) else None;
        if key.None? {
          // the slot driver is no longer recorded
          QuitNone(quitLog);
          r := CreateNewDriver(caps, hub, me, env);
        } else if newKey != key.value {
          // the slot driver is recorded under another key
          r := Recreate(caps, hub, me, env);
        } else if !env.alive(checker, slots[me]) {
          r := Recreate(caps, hub, me, env);
        } else {
          QuitNone(quitLog);
          r := Ok(slots[me]);
        }
      }
    }

    /** dismissDriver(tlDriver.get()) followed by createNewDriver, right after a
        successful reap. */
    method Recreate(caps: Capabilities, hub: Option<string>, me: ThreadId, env: Environment)
      returns (r: Result<Driver>)
      requires Valid() && me in env.running
      requires me in slots && slots[me] in driverToKey
      requires StaleDrivers(env.running) == {}
      modifies this`driverToKey, this`driverToThread, this`slots, this`nextDriver, this`quitLog
      ensures Valid()
      ensures Served(old(State()), Replace(old(slots[me])), Creation(localProviders, remoteProviders, hub, caps, env),
                     CreateKey(caps, hub), me, env.quitFails, State(), r)
      ensures QuitEach(old(quitLog), quitLog, {old(slots[me])})
    {
      var dismissed := DismissDriver(slots[me], me, env);
      assert old(driverToKey) - {} == old(driverToKey) && old(driverToThread) - {} == old(driverToThread);
      if dismissed.Fail? {
        return Err(dismissed.error);
      }
      r := CreateNewDriver(caps, hub, me, env);
    }

    /** getDriver(capabilities): getDriver on the default hub. */
    method GetDriverOnDefaultHub(caps: Capabilities, me: ThreadId, env: Environment) returns (r: Result<Driver>)
      requires Valid() && me in env.running
      modifies this`driverToKey, this`driverToThread, this`slots, this`nextDriver, this`quitLog
      ensures Valid()
      ensures Acquired(defaultHub, caps, me, env, r)
    {
      r := GetDriver(defaultHub, caps, me, env);
    }
  }
}
