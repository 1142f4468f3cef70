# webdriver-factory: the driver pool, modelled in Dafny

webdriver-factory hands out Selenium WebDriver instances from pools. This
project models its core:

- the thread-local pool (`ThreadLocalSingleWebDriverPool`), which keeps at
  most one driver per thread and reuses it while the request key matches and
  the liveness checker finds it alive;
- the driver creation the pool relies on: the request key, the choice between
  the local and remote provider chains, and the first-match walk along a chain;
- the two local providers (`LocalDriverProvider.Default` and
  `DefaultLocalDriverProvider`);
- the static `WebDriverFactory` facade with its guarded `setMode`.

Drivers and threads are natural-number ids. One `Environment` value per call
stands for everything outside the pool:

- what each provider answers (null, a driver, or an exception);
- which class names resolve;
- which threads are still running;
- what a liveness checker says about a driver;
- whether `quit()` throws.

Creating a driver hands out the next fresh id. Every `quit()` call is appended
to a ghost log, so "quit exactly once, nothing else changes" can be stated.

Files:

| file | module | what it holds |
|---|---|---|
| common.dfy | `Common` | ids, capabilities, failures, provider answers, the environment |
| provider_chain.dfy | `ProviderChain` | the first-non-null walk along a chain and its lemmas |
| local_driver_provider.dfy | `LocalDriverProvider` | `LocalDriverProvider.Default` |
| default_local_driver_provider.dfy | `DefaultLocalDriverProvider` | the two-table provider |
| driver_creation.dfy | `DriverCreation` | the built-in chains, `createKey`, `newDriver`, `createLocalDriver`, `createRemoteDriver` |
| thread_local_pool.dfy | `ThreadLocalSinglePool` | the pool class, its bookkeeping invariant, its decision table and their lemmas |
| web_driver_factory.dfy | `Factory` | the `WebDriverFactory` facade and the mode switch |
| scenarios.dfy | `Scenarios` | client scenarios from the pool's tests, derived from the contracts |

## How the pool is modelled

The pool is a class with the source's fields:

- `driverToKey` and `driverToThread` are maps;
- the thread-local slot is a map from thread to driver;
- the provider chains are sequences;
- it also holds the checker and the default hub.

`AbstractWebDriverPool` and `WebDriverFactoryInternal`, an older revision of
it, are folded into this one class. Both build the same nine local presets, in
the same order, and the same key, chain choice and chain walk. The presets are
the `LocalDriverProvider.Default` ones of `WebDriverFactoryInternal`;
`defaultHub` and `getDriver(capabilities)` also come from that class.

A provider supplied by the user may answer anything. The constructions the
source itself performs are narrower, and `OnlyUnresolvedNamesDecline` states what
they can answer:
- a creator function never returns null;
- a constructor call on a resolved class returns a driver or throws;
- with no class, the constructor call throws;
- a class name that does not resolve makes ReflectionBasedInstanceCreator
  return null.

The lemmas about what the providers never decline take this predicate as a
precondition.

The bookkeeping invariant (`Bookkeeping`) says four things:

- the two maps record the same drivers;
- a recorded driver sits in the slot of the thread it is recorded under;
- a slot holding a recorded driver belongs to that driver's thread;
- no slot holds an id that has not been handed out yet.

Every method keeps the invariant.

The postconditions of `getDriver` and `dismissDriver` describe each call in
two parts:

- the reap of drivers whose thread has finished;
- what follows it, stated on a value snapshot of the bookkeeping (`Book`) by
  `Served` and `Released`.

The decision `getDriver` makes about the caller's slot is the function
`Decide`. The lemmas about `Decide` and `Served` state the documented
behaviour:

- reuse exactly when the key matches and the driver is alive;
- replace on a different key without asking the checker;
- create without quitting when the slot is empty or its driver has no record.

The source calls `quit()` before removing any record, and the model does the
same. A `quit()` that throws leaves that driver recorded and ends the
operation with the error. `FailedQuitKeepsDriver` states the consequence:
the same thread asking again with the same key gets that driver back.

## Model

| member | source | states |
|---|---|---|
| ProviderChain.FirstNonDeclined | src/main/java/ru/stqa/selenium/factory/AbstractWebDriverPool.java:82-88 | the walk stops only at a provider that did not return null, and reports that provider's answer |
| ProviderChain.EarlierProvidersDeclined | src/main/java/ru/stqa/selenium/factory/AbstractWebDriverPool.java:82-88 | every provider before the deciding one returned null, and the walk is exhausted exactly when every provider returned null |
| ProviderChain.FirstNonDeclinedAt | src/main/java/ru/stqa/selenium/factory/AbstractWebDriverPool.java:83-87 | conversely, the first provider that does not return null decides the walk |
| ProviderChain.LaterProvidersNotConsulted | src/main/java/ru/stqa/selenium/factory/AbstractWebDriverPool.java:83-87 | providers after the deciding one are not consulted: chains that agree up to it give the same result |
| ProviderChain.PrependedAnswerFirst | src/main/java/ru/stqa/selenium/factory/AbstractWebDriverPool.java:64-66 | a provider at the head of a chain decides if it answers; if it declines, the rest decides in its old order |
| LocalDriverProvider.CanCreateDriverInstanceFor | src/main/java/ru/stqa/selenium/factory/LocalDriverProvider.java:81-84 | the provider's browser name equals the requested one (no contract of its own; see the lemmas below) |
| LocalDriverProvider.GetDriverClass | src/main/java/ru/stqa/selenium/factory/LocalDriverProvider.java:63-79 | the given class, else the class its name resolves to, else no class (no contract of its own; see GivenClassNeedsNoLookup and ClassNameLookup) |
| LocalDriverProvider.CreateDriver | src/main/java/ru/stqa/selenium/factory/LocalDriverProvider.java:86-93 | null for another browser, else the outcome of calling a constructor of the driver class (no contract of its own; see the lemmas below) |
| LocalDriverProvider.DeclinesOtherBrowsers | src/main/java/ru/stqa/selenium/factory/LocalDriverProvider.java:86-93 | a request for another browser name is declined (null), whatever the environment |
| LocalDriverProvider.MatchingBrowserConstructs | src/main/java/ru/stqa/selenium/factory/LocalDriverProvider.java:86-89 | a request for the provider's browser name attempts construction with the requested capabilities |
| LocalDriverProvider.DeclinesOnlyOtherBrowsers | src/main/java/ru/stqa/selenium/factory/LocalDriverProvider.java:39-43 | when only an unresolved class name makes a construction return null, createDriver returns null exactly when the browser names differ; a matching request whose class did not resolve throws |
| LocalDriverProvider.DecisionByBrowserNameOnly | src/main/java/ru/stqa/selenium/factory/LocalDriverProvider.java:81-84 | canCreateDriverInstanceFor depends only on the requested browser name |
| LocalDriverProvider.GivenClassNeedsNoLookup | src/main/java/ru/stqa/selenium/factory/LocalDriverProvider.java:63-66 | an explicitly given class is used without any lookup by name |
| LocalDriverProvider.ClassNameLookup | src/main/java/ru/stqa/selenium/factory/LocalDriverProvider.java:67-78 | an unresolvable class name yields no class rather than an error; a resolvable one yields that class |
| DefaultLocalDriverProvider.Route | src/main/java/ru/stqa/selenium/factory/DefaultLocalDriverProvider.java:80-89 | there is a construction exactly when the browser is in one of the two tables, and it is a creator or an external class name |
| DefaultLocalDriverProvider.CreateDriver | src/main/java/ru/stqa/selenium/factory/DefaultLocalDriverProvider.java:79-92 | the outcome of the routed construction, or a creation error for an unknown browser (no contract of its own; see the lemmas below) |
| DefaultLocalDriverProvider.DispatchByBrowserNameOnly | src/main/java/ru/stqa/selenium/factory/DefaultLocalDriverProvider.java:79-81 | two requests with the same browser name are routed and built the same way |
| DefaultLocalDriverProvider.CreatorFirst | src/main/java/ru/stqa/selenium/factory/DefaultLocalDriverProvider.java:81-84 | a browser with a creator uses it, and the external-class table is not consulted |
| DefaultLocalDriverProvider.ExternalClassSecond | src/main/java/ru/stqa/selenium/factory/DefaultLocalDriverProvider.java:86-89 | a browser without a creator but with an external class is built from that class name |
| DefaultLocalDriverProvider.UnknownBrowserRaises | src/main/java/ru/stqa/selenium/factory/DefaultLocalDriverProvider.java:91 | a browser in neither table raises a creation error, never a decline |
| DefaultLocalDriverProvider.DeclinesOnlyUnresolvedExternalClass | src/main/java/ru/stqa/selenium/factory/DefaultLocalDriverProvider.java:79-92 | when only an unresolved class name makes a construction return null, the provider returns null exactly for a browser routed to an external class that does not resolve; a browser with a creator is never declined |
| DefaultLocalDriverProvider.StandardRoutes | src/main/java/ru/stqa/selenium/factory/DefaultLocalDriverProvider.java:41-53 | the two standard tables are disjoint, and chrome, opera, htmlunit and an unlisted browser route as the tables say |
| DriverCreation.CreateKey | src/main/java/ru/stqa/selenium/factory/AbstractWebDriverPool.java:72-74 | the printed capabilities, a colon and the printed hub (no contract of its own; see the key lemmas below) |
| DriverCreation.KeySeparatesCapabilities | src/main/java/ru/stqa/selenium/factory/AbstractWebDriverPool.java:72-74 | for one hub, two keys are equal exactly when the capabilities print the same |
| DriverCreation.KeySeparatesHubs | src/main/java/ru/stqa/selenium/factory/WebDriverFactoryInternal.java:86-88 | for one capabilities object, two keys are equal exactly when the hubs print the same |
| DriverCreation.NullHubSharesLocalKey | src/main/java/ru/stqa/selenium/factory/AbstractWebDriverPool.java:73 | a null hub prints as "null", so a local request and a request to a hub named "null" share a key |
| DriverCreation.ColonIsAmbiguous | src/main/java/ru/stqa/selenium/factory/AbstractWebDriverPool.java:73 | for every split, moving a colon from the end of the printed capabilities to the start of the hub gives the same key |
| DriverCreation.Creation | src/main/java/ru/stqa/selenium/factory/AbstractWebDriverPool.java:76-100 | the outcome of newDriver: success only if some provider of the chosen chain created a driver; a failure is either the chain's creation error or the exception some provider of that chain threw |
| DriverCreation.CreationChoosesChain | src/main/java/ru/stqa/selenium/factory/AbstractWebDriverPool.java:76-80 | without a hub only the local chain matters; with one only the remote chain |
| DriverCreation.CreationSucceedsIff | src/main/java/ru/stqa/selenium/factory/AbstractWebDriverPool.java:82-90 | local creation succeeds exactly when some provider returns a driver and every earlier one returns null |
| DriverCreation.RemoteCreationSucceedsIff | src/main/java/ru/stqa/selenium/factory/AbstractWebDriverPool.java:92-100 | remote creation succeeds exactly when some provider returns a driver for the hub and every earlier one returns null |
| DriverCreation.AllDeclineFails | src/main/java/ru/stqa/selenium/factory/WebDriverFactoryInternal.java:96-114 | when every provider of the chosen chain declines, creation fails with the local or remote creation error |
| DriverCreation.AddedLocalProviderFirst | src/main/java/ru/stqa/selenium/factory/AbstractWebDriverPool.java:64-66 | an added local provider takes priority; when it declines, the old chain decides as before |
| DriverCreation.AddedRemoteProviderFirst | src/main/java/ru/stqa/selenium/factory/AbstractWebDriverPool.java:68-70 | the same for an added remote provider |
| DriverCreation.TablesHideLaterProviders | src/main/java/ru/stqa/selenium/factory/DefaultLocalDriverProvider.java:79-92 | a DefaultLocalDriverProvider in a chain raises on an unknown browser and hides every provider after it |
| DriverCreation.TabledCreatorStopsChain | src/main/java/ru/stqa/selenium/factory/DefaultLocalDriverProvider.java:81-84 | when only an unresolved class name makes a construction return null, a DefaultLocalDriverProvider with a creator for the browser stops the walk at its own index with the creator's outcome |
| DriverCreation.MatchingDefaultStopsChain | src/main/java/ru/stqa/selenium/factory/LocalDriverProvider.java:86-89 | when only an unresolved class name makes a construction return null, a LocalDriverProvider.Default for the requested browser stops the walk at its own index |
| DriverCreation.BuiltInChainServesFirefoxSecond | src/main/java/ru/stqa/selenium/factory/WebDriverFactoryInternal.java:39-42 | in the built-in chain a firefox request passes the chrome preset and is decided by the firefox preset |
| DriverCreation.BuiltInChainDeclinesUnknownBrowser | src/main/java/ru/stqa/selenium/factory/WebDriverFactoryInternal.java:37-60 | the nine built-in local providers all decline a browser they do not list, so the chain fails with a creation error |
| DriverCreation.CreateLocalDriver | src/main/java/ru/stqa/selenium/factory/AbstractWebDriverPool.java:82-90 | the loop returns the outcome of the local chain's first-match walk |
| DriverCreation.CreateRemoteDriver | src/main/java/ru/stqa/selenium/factory/AbstractWebDriverPool.java:92-100 | the loop returns the outcome of the remote chain's first-match walk, passing the hub |
| ThreadLocalSinglePool.OneDriverPerThread | src/main/java/ru/stqa/selenium/factory/ThreadLocalSingleWebDriverPool.java:27-30 | under the invariant, a thread has at most one recorded driver |
| ThreadLocalSinglePool.NextIsFresh | src/main/java/ru/stqa/selenium/factory/ThreadLocalSingleWebDriverPool.java:108-114 | the next id is neither recorded nor in any slot |
| ThreadLocalSinglePool.ForgetKeepsBookkeeping | src/main/java/ru/stqa/selenium/factory/ThreadLocalSingleWebDriverPool.java:87-91 | removing any set of drivers from both maps keeps the invariant |
| ThreadLocalSinglePool.ReleaseKeepsBookkeeping | src/main/java/ru/stqa/selenium/factory/ThreadLocalSingleWebDriverPool.java:77-79 | removing the slot driver from both maps together with the slot keeps the invariant |
| ThreadLocalSinglePool.RecordKeepsBookkeeping | src/main/java/ru/stqa/selenium/factory/ThreadLocalSingleWebDriverPool.java:111-113 | recording a fresh driver in both maps and the caller's slot keeps the invariant |
| ThreadLocalSinglePool.Decide | src/main/java/ru/stqa/selenium/factory/ThreadLocalSingleWebDriverPool.java:40-63 | getDriver's branch table; a reuse or a replacement only ever names the caller's own recorded slot driver, and a reuse only one recorded under the requested key |
| ThreadLocalSinglePool.ReuseExactlyWhenSameKeyAndAlive | src/main/java/ru/stqa/selenium/factory/ThreadLocalSingleWebDriverPool.java:50-64 | the slot driver is reused exactly when it is recorded under the requested key and the checker finds it alive |
| ThreadLocalSinglePool.CreateFreshExactlyWhenNothingRecorded | src/main/java/ru/stqa/selenium/factory/ThreadLocalSingleWebDriverPool.java:40-47 | a driver is created without dismissing anything exactly when the slot is empty or its driver has no key record |
| ThreadLocalSinglePool.ReplaceOnlyTheSlotDriver | src/main/java/ru/stqa/selenium/factory/ThreadLocalSingleWebDriverPool.java:50-60 | only the slot's own recorded driver is replaced, exactly when its key differs or the checker finds it dead |
| ThreadLocalSinglePool.CheckerOnlyOnSameKey | src/main/java/ru/stqa/selenium/factory/ThreadLocalSingleWebDriverPool.java:50-57 | the checker is consulted only when the key matches |
| ThreadLocalSinglePool.DecideIgnoresOtherRecords | src/main/java/ru/stqa/selenium/factory/ThreadLocalSingleWebDriverPool.java:38-44 | reaping drivers other than the slot's does not change the decision |
| ThreadLocalSinglePool.Release | src/main/java/ru/stqa/selenium/factory/ThreadLocalSingleWebDriverPool.java:77-79 | after a release the driver has neither record, the thread has no slot, and every other driver keeps its key |
| ThreadLocalSinglePool.ServedDriverBelongsToCaller | src/main/java/ru/stqa/selenium/factory/ThreadLocalSingleWebDriverPool.java:36-65 | a driver getDriver hands out sits in the caller's slot, recorded under the requested key and the calling thread |
| ThreadLocalSinglePool.ReapThenServe | src/main/java/ru/stqa/selenium/factory/ThreadLocalSingleWebDriverPool.java:38-39 | the reap does not change the decision about the caller's slot, and its quits come before the serve's |
| ThreadLocalSinglePool.ServedKeepsBookkeeping | src/main/java/ru/stqa/selenium/factory/ThreadLocalSingleWebDriverPool.java:36-65 | every path of getDriver keeps the invariant and never reuses an id |
| ThreadLocalSinglePool.ServedThenReused | src/main/java/ru/stqa/selenium/factory/ThreadLocalSingleWebDriverPool.java:50-64 | asking again for the same key while the driver is alive reuses the same driver |
| ThreadLocalSinglePool.ReleasedThenCreateFresh | src/main/java/ru/stqa/selenium/factory/ThreadLocalSingleWebDriverPool.java:67-80 | a driver dismissed by its own thread is gone, and the thread's next getDriver creates a new one |
| ThreadLocalSinglePool.RefusedDismissalChangesNothing | src/main/java/ru/stqa/selenium/factory/ThreadLocalSingleWebDriverPool.java:69-75 | dismissDriver fails exactly when the driver is not owned, is not the caller's, or its quit throws; a failure changes nothing, and not-owned is reported exactly for unrecorded drivers |
| ThreadLocalSinglePool.FailedQuitKeepsDriver | src/main/java/ru/stqa/selenium/factory/ThreadLocalSingleWebDriverPool.java:76-79 | a dismissal whose quit throws fails with that error and removes nothing, so the caller's next request with the same key reuses the same driver while it is alive |
| ThreadLocalSinglePool.ThreadLocalSingleWebDriverPool.constructor | src/main/java/ru/stqa/selenium/factory/WebDriverFactoryInternal.java:34-68 | a new pool has the built-in chains followed by the discovered providers, the default checker, no default hub, no drivers and no quits |
| ThreadLocalSinglePool.ThreadLocalSingleWebDriverPool.IsEmpty | src/main/java/ru/stqa/selenium/factory/ThreadLocalSingleWebDriverPool.java:103-106 | empty exactly when the key map is empty, which is exactly when the thread map is empty |
| ThreadLocalSinglePool.ThreadLocalSingleWebDriverPool.AddLocalDriverProvider | src/main/java/ru/stqa/selenium/factory/AbstractWebDriverPool.java:64-66 | the provider is prepended to the local chain, and nothing else changes |
| ThreadLocalSinglePool.ThreadLocalSingleWebDriverPool.AddRemoteDriverProvider | src/main/java/ru/stqa/selenium/factory/AbstractWebDriverPool.java:68-70 | the provider is prepended to the remote chain, and nothing else changes |
| ThreadLocalSinglePool.ThreadLocalSingleWebDriverPool.SetDriverAlivenessChecker | src/main/java/ru/stqa/selenium/factory/AbstractWebDriverPool.java:102-104 | the checker is replaced, and nothing else changes |
| ThreadLocalSinglePool.ThreadLocalSingleWebDriverPool.SetDefaultHub | src/main/java/ru/stqa/selenium/factory/WebDriverFactoryInternal.java:78-80 | the default hub is replaced, and nothing else changes |
| ThreadLocalSinglePool.ThreadLocalSingleWebDriverPool.NewDriver | src/main/java/ru/stqa/selenium/factory/AbstractWebDriverPool.java:76-80 | the outcome is that of the local chain without a hub and of the remote chain with one |
| ThreadLocalSinglePool.ThreadLocalSingleWebDriverPool.DismissEach | src/main/java/ru/stqa/selenium/factory/ThreadLocalSingleWebDriverPool.java:87-91 | the sweep succeeds exactly when no target's quit throws; then each target is quit once and forgotten; otherwise the sweep stops at the failing driver, with it and the unvisited ones still recorded and every forgotten driver quit cleanly |
| ThreadLocalSinglePool.ThreadLocalSingleWebDriverPool.DismissDriversInFinishedThreads | src/main/java/ru/stqa/selenium/factory/ThreadLocalSingleWebDriverPool.java:82-92 | exactly the drivers of finished threads are quit once and forgotten; slots are untouched and no stale driver remains |
| ThreadLocalSinglePool.ThreadLocalSingleWebDriverPool.DismissDriver | src/main/java/ru/stqa/selenium/factory/ThreadLocalSingleWebDriverPool.java:67-80 | after the reap, an unowned driver or another thread's driver is refused with no change; otherwise it is quit once, and unless quit throws its records and the caller's slot are removed |
| ThreadLocalSinglePool.ThreadLocalSingleWebDriverPool.DismissAll | src/main/java/ru/stqa/selenium/factory/ThreadLocalSingleWebDriverPool.java:94-101 | without reaping, every recorded driver of every thread is quit once and the pool ends empty, unless a quit throws |
| ThreadLocalSinglePool.ThreadLocalSingleWebDriverPool.CreateNewDriver | src/main/java/ru/stqa/selenium/factory/ThreadLocalSingleWebDriverPool.java:108-114 | a successful creation records the fresh driver under the key and the caller and fills the caller's slot; a failed one records nothing |
| ThreadLocalSinglePool.ThreadLocalSingleWebDriverPool.GetDriver | src/main/java/ru/stqa/selenium/factory/ThreadLocalSingleWebDriverPool.java:36-65 | after the reap, the decision table is followed: reuse changes nothing; replace quits the slot driver once and then creates; create-fresh quits nothing; a failed creation records nothing |
| ThreadLocalSinglePool.ThreadLocalSingleWebDriverPool.Serve | src/main/java/ru/stqa/selenium/factory/ThreadLocalSingleWebDriverPool.java:39-64 | the branches after the reap, matched to the decision table |
| ThreadLocalSinglePool.ThreadLocalSingleWebDriverPool.Recreate | src/main/java/ru/stqa/selenium/factory/ThreadLocalSingleWebDriverPool.java:52-53 | the slot driver is dismissed, quit exactly once, and then a new driver is created |
| ThreadLocalSinglePool.ThreadLocalSingleWebDriverPool.GetDriverOnDefaultHub | src/main/java/ru/stqa/selenium/factory/WebDriverFactoryInternal.java:82-84 | getDriver(capabilities) is getDriver on the default hub |
| Factory.PoolKindFor | src/main/java/ru/stqa/selenium/factory/WebDriverFactory.java:42-53 | every supported mode selects a pool kind; any other mode fails with the unsupported-mode error |
| Factory.ModeFor | src/main/java/ru/stqa/selenium/factory/WebDriverFactory.java:43-48 | each pool kind is selected by a supported mode |
| Factory.PoolKindRoundTrip | src/main/java/ru/stqa/selenium/factory/WebDriverFactory.java:42-53 | the mode switch is a bijection between supported modes and pool kinds |
| Factory.WebDriverFactory.constructor | src/main/java/ru/stqa/selenium/factory/WebDriverFactory.java:28 | the initial pool is the default pool, a thread-local pool |
| Factory.WebDriverFactory.IsEmpty | src/main/java/ru/stqa/selenium/factory/WebDriverFactory.java:87-90 | isEmpty is the current pool's isEmpty |
| Factory.WebDriverFactory.SetMode | src/main/java/ru/stqa/selenium/factory/WebDriverFactory.java:30-36 | refused with no change while the pool holds a driver, or for an unsupported mode; otherwise a fresh pool of the selected kind replaces the current one, with the built-in and discovered chains, the default checker, no hub, no records, no slots, next id 0 and no quits |
| Factory.WebDriverFactory.SetDriverAlivenessChecker | src/main/java/ru/stqa/selenium/factory/WebDriverFactory.java:38-40 | delegates to the current pool |
| Factory.WebDriverFactory.AddLocalDriverProvider | src/main/java/ru/stqa/selenium/factory/WebDriverFactory.java:55-57 | delegates to the current pool |
| Factory.WebDriverFactory.AddRemoteDriverProvider | src/main/java/ru/stqa/selenium/factory/WebDriverFactory.java:59-61 | delegates to the current pool |
| Factory.WebDriverFactory.SetDefaultHub | src/main/java/ru/stqa/selenium/factory/WebDriverFactory.java:63-65 | delegates to the current pool |
| Factory.WebDriverFactory.GetDriver | src/main/java/ru/stqa/selenium/factory/WebDriverFactory.java:67-70 | delegates to the current pool's getDriver(hub, capabilities) |
| Factory.WebDriverFactory.GetDriverOnDefaultHub | src/main/java/ru/stqa/selenium/factory/WebDriverFactory.java:72-75 | delegates to the current pool's getDriver(capabilities) |
| Factory.WebDriverFactory.DismissDriver | src/main/java/ru/stqa/selenium/factory/WebDriverFactory.java:77-80 | delegates to the current pool |
| Factory.WebDriverFactory.DismissAll | src/main/java/ru/stqa/selenium/factory/WebDriverFactory.java:82-85 | delegates to the current pool |
| Scenarios.CustomFirstCreates | src/test/java/ru/stqa/selenium/factory/ThreadLocalSingleWebDriverPoolTest.java:36-44 | a custom provider at the head of the local chain that always creates makes local creation succeed |
| Scenarios.CustomPool | src/test/java/ru/stqa/selenium/factory/ThreadLocalSingleWebDriverPoolTest.java:36-44 | the test fixture: a new, empty pool with the custom provider first |
| Scenarios.FirstDriver | src/test/java/ru/stqa/selenium/factory/ThreadLocalSingleWebDriverPoolTest.java:50-54 | the first request on a fresh pool gets driver 0, recorded for the caller |
| Scenarios.ReuseSameDriver | src/test/java/ru/stqa/selenium/factory/ThreadLocalSingleWebDriverPoolTest.java:72-80 | a second request with the same capabilities returns the same driver and creates nothing |
| Scenarios.CreateThenDismiss | src/test/java/ru/stqa/selenium/factory/ThreadLocalSingleWebDriverPoolTest.java:50-59 | dismissing the only driver from its own thread passes and leaves the pool empty |
| Scenarios.ForeignDriverRefused | src/test/java/ru/stqa/selenium/factory/ThreadLocalSingleWebDriverPoolTest.java:109-118 | dismissing a driver the pool never handed out fails as not owned, and the pool keeps its driver |

## Left out

- Reflection is not modelled: `Class.forName`, `callConstructor` and
  ReflectionBasedInstanceCreator. A construction is an answer of the
  environment. What such answers can be (never null from a creator or a
  resolved class; a throw when LocalDriverProvider.Default has no class, which
  stands for its NullPointerException; null for an unresolved class name) is
  `OnlyUnresolvedNamesDecline`. Lemmas that need it take it as a precondition.
  The other lemmas hold for any environment.
- `AbstractWebDriverPool` builds its nine presets as
  ReflectionBasedLocalDriverProvider, which is not part of this model. They
  are represented by the `LocalDriverProvider.Default` presets of
  `WebDriverFactoryInternal`, with the same browsers, class names and order.
- The concrete Selenium drivers, their option classes and the creator lambdas
  of DefaultLocalDriverProvider are not modelled. A creator is named by its
  browser.
- ServiceLoader discovery is not modelled. The discovered providers are
  parameters of the pool constructor and of `SetMode`.
- Real threads are not modelled: `ThreadLocal`, the synchronized maps,
  `Thread.isAlive` and the JVM shutdown hook that calls `dismissAll`.
  - The calling thread is a parameter.
  - The running threads come with the environment.
  - Each call is one sequential step; interleavings are not modelled.
- The default liveness checker is not modelled. A checker is a token, and what
  it says is part of the environment.
- WebDriverPool's URL and browser-name overloads are not modelled. This
  includes `getDriver(URL, String)`, which drops its hub argument. Only the
  `String` hub of the pool classes is modelled, as `Option<string>`.
- SingleWebDriverPool and LooseWebDriverPool are not part of this model.
  - `Factory.WebDriverFactory.SetMode` installs a fresh thread-local pool
    object for every mode.
  - The `kind` field records which kind was selected.
  - Driver behaviour after switching to the single or loose mode is therefore
    not captured.
- The providers' own copies of their capabilities (`new DesiredCapabilities(...)`)
  are implicit, because Dafny datatypes are values.
- `WebDriverFactoryInternal` raises `Error` where `AbstractWebDriverPool`
  raises `DriverCreationError`. Both become the same failure values,
  `NoLocalProvider` and `NoRemoteProvider`.
- `ThreadLocalSinglePool.ThreadLocalSingleWebDriverPool.DismissEach` visits
  the snapshot in an unspecified order. HashMap iteration order is not
  modelled, so after a throwing `quit()` the model states only that the
  forgotten drivers are a subset of the targets, each quit once.
- The test `testShouldBeAbleToUseFactoryIfDriverCannotQuit`
  (src/test/java/ru/stqa/selenium/factory/ThreadLocalSingleWebDriverPoolTest.java:227-241) expects a
  different driver after a dismissal whose `quit()` throws. The code removes
  the records only after `quit()` returns
  (ThreadLocalSingleWebDriverPool.java:76-79), so it hands the same driver
  back. The model follows the code, not this test. The test also uses a
  `setLocalDriverProvider` method that the pool classes here do not have.
- A driver a provider returns is always new, and the ids never repeat. A
  provider that returns an already-recorded driver object is not modelled.
- Exceptions become `Result`/`Outcome` values. A Java exception thrown by
  `driver.quit()` is `QuitRaised`, and it propagates out of the operation
  that made the call, as in the source.
