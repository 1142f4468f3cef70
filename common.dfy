/** Values shared by every part of the driver pool: driver and thread identities,
    capabilities, the errors the pool raises, and the environment an operation
    runs in (everything outside the pool: providers' answers, class loading,
    thread liveness, the liveness probe and whether quitting a driver fails). */
module Common {

  /** A WebDriver instance, identified by the order in which it was created. */
  type Driver = nat

  /** A Java thread. */
  type ThreadId = nat

  /** A WebDriver implementation class, identified by its fully qualified name. */
  type DriverClass = string

  datatype Option<T> = None | Some(value: T)

  /** A capabilities object: the browser name it asks for and its printed form
      (`toString()`), the only two things the pool and the providers read. */
  datatype Capabilities = Capabilities(browserName: string, text: string)

  /** The failures an operation can report instead of a driver. */
  datatype Failure =
    /** No local provider accepted the capabilities (`DriverCreationError`). */
    | NoLocalProvider(caps: Capabilities)
    /** No remote provider accepted the capabilities (`DriverCreationError`). */
    | NoRemoteProvider(caps: Capabilities)
    /** A provider, or the driver construction it started, threw. */
    | ProviderRaised(reason: string)
    /** "The driver is not owned by the factory". */
    | NotOwned(driver: Driver)
    /** "The driver does not belong to the current thread". */
    | NotCurrentThread(driver: Driver)
    /** `driver.quit()` threw. */
    | QuitRaised(driver: Driver)
    /** "Mode can't be changed because there are active WebDriver instances". */
    | ActiveDrivers
    /** "Unsupported browser factory mode". */
    | UnsupportedMode(mode: string)

  datatype Result<T> = Ok(value: T) | Err(error: Failure)

  datatype Outcome = Pass | Fail(error: Failure)

  /** What a provider does with a request: returns null (declines), returns a
      newly created driver, or throws. */
  datatype Answer = Declined | Created | Raised(error: Failure)

  /** A driver construction started by a local provider. */
  datatype Construction =
    /** One of the creator functions of DefaultLocalDriverProvider, by browser name. */
    | ViaCreator(browserName: string)
    /** Reflective creation from a class name (ReflectionBasedInstanceCreator). */
    | ViaClassName(className: string)
    /** LocalDriverProvider.Default calling a constructor of the class it resolved
        (None when the class could not be resolved). */
    | ViaClass(driverClass: Option<DriverClass>)

  /** A remote provider: the built-in one or one added later. */
  datatype RemoteProvider = BuiltInRemote | RemoteCustom(id: nat)

  /** A DriverAlivenessChecker: the default one or one installed later. */
  datatype Checker = DefaultChecker | CustomChecker(id: nat)

  /** The world outside the pool during one operation. */
  datatype Environment = Environment(
    /** the threads for which `Thread.isAlive()` holds */
    running: set<ThreadId>,
    /** the class names `Class.forName` resolves to a WebDriver class */
    loadable: set<string>,
    /** the outcome of a driver construction */
    construct: (Construction, Capabilities) -> Answer,
    /** the answer of a local provider supplied by the user, by its id */
    localCustom: (nat, Capabilities) -> Answer,
    /** the answer of a remote provider to a hub and capabilities */
    remote: (RemoteProvider, string, Capabilities) -> Answer,
    /** what a liveness checker says about a driver */
    alive: (Checker, Driver) -> bool,
    /** whether `quit()` throws on a driver */
    quitFails: Driver -> bool)

  /** Only a class name that does not resolve makes a construction answer null; a
      construction with no class throws. This is what the built-in constructions
      can answer, as opposed to a provider supplied by the user, which may answer
      anything:
      - a creator function calls `new XDriver(...)`, which never yields null;
      - LocalDriverProvider.Default calls a constructor of a resolved class, which
        yields an instance or throws, and with no class it throws (a null
        dereference);
      - ReflectionBasedInstanceCreator returns null for a class name that does not
        resolve and otherwise yields an instance or throws. */
  ghost predicate OnlyUnresolvedNamesDecline(env: Environment)
  {
    && (forall b: string, caps: Capabilities :: env.construct(ViaCreator(b), caps) != Declined)
    && (forall c: DriverClass, caps: Capabilities :: env.construct(ViaClass(Some(c)), caps) != Declined)
    && (forall caps: Capabilities :: env.construct(ViaClass(None), caps).Raised?)
    && (forall n: string, caps: Capabilities ::
          env.construct(ViaClassName(n), caps) == Declined <==> n !in env.loadable)
  }

  /** The liveness predicate a checker stands for in an environment. */
  function Liveness(env: Environment, checker: Checker): Driver -> bool
  {
    (d: Driver) => env.alive(checker, d)
  }
}
