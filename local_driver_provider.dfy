/** LocalDriverProvider.Default: a local provider bound to one browser name and
    one driver class. It declines (returns null) every request for another
    browser, and otherwise calls a constructor of its class. Class loading and
    the constructor call are outside the model: the environment says which class
    names resolve and what a construction yields. */
module LocalDriverProvider {
  import opened Common

  /** How the driver class was given to the provider's constructor. */
  datatype ClassSource =
    | GivenClass(driverClass: DriverClass)        // Default(Capabilities, Class)
    | GivenClassName(driverClassName: string)     // Default(Capabilities, String)

  /** The provider's state, set once by its constructor: its own copy of the
      capabilities it serves and the class it instantiates. */
  datatype Default = Default(capabilities: Capabilities, source: ClassSource)

  /** The requested browser name is the provider's browser name. */
  predicate CanCreateDriverInstanceFor(p: Default, caps: Capabilities)
  {
    p.capabilities.browserName == caps.browserName
  }

  /** The driver class: the class given to the constructor as it is, or the class
      its name resolves to, or None when the name does not resolve (class not
      found, or built for a newer Java). */
  function GetDriverClass(p: Default, loadable: set<string>): Option<DriverClass>
  {
    match p.source
    case GivenClass(c) => Some(c)
    case GivenClassName(name) => if name in loadable then Some(name) else None
  }

  /** A request: declined for another browser, otherwise the outcome of calling
      a constructor of the driver class. */
  function CreateDriver(p: Default, caps: Capabilities, env: Environment): Answer
  {
    if CanCreateDriverInstanceFor(p, caps) then env.construct(ViaClass(GetDriverClass(p, env.loadable)), caps)
    else Declined
  }

  /** A request for another browser is declined, whatever the environment. */
  lemma DeclinesOtherBrowsers(p: Default, caps: Capabilities, env: Environment)
    requires caps.browserName != p.capabilities.browserName
    ensures !CanCreateDriverInstanceFor(p, caps)
    ensures CreateDriver(p, caps, env) == Declined
  {
  }

  /** A request for the provider's browser attempts construction with the
      requested capabilities instead of declining. */
  lemma MatchingBrowserConstructs(p: Default, caps: Capabilities, env: Environment)
    requires caps.browserName == p.capabilities.browserName
    ensures CanCreateDriverInstanceFor(p, caps)
    ensures CreateDriver(p, caps, env) == env.construct(ViaClass(GetDriverClass(p, env.loadable)), caps)
  {
  }

  /** When only an unresolved class name makes a construction return null, a
      request is declined exactly when its browser name differs: a matching
      request yields a driver or throws, and it throws when the class could not
      be resolved. */
  lemma DeclinesOnlyOtherBrowsers(p: Default, caps: Capabilities, env: Environment)
    requires OnlyUnresolvedNamesDecline(env)
    ensures CreateDriver(p, caps, env) == Declined <==> !CanCreateDriverInstanceFor(p, caps)
    ensures CanCreateDriverInstanceFor(p, caps) && GetDriverClass(p, env.loadable).None? ==>
              CreateDriver(p, caps, env).Raised?
  {
  }

  /** Only the browser name of a request decides whether it is declined. */
  lemma DecisionByBrowserNameOnly(p: Default, c1: Capabilities, c2: Capabilities)
    requires c1.browserName == c2.browserName
    ensures CanCreateDriverInstanceFor(p, c1) == CanCreateDriverInstanceFor(p, c2)
  {
  }

  /** A class given explicitly is used without any lookup by name. */
  lemma GivenClassNeedsNoLookup(p: Default, loadable1: set<string>, loadable2: set<string>)
    requires p.source.GivenClass?
    ensures GetDriverClass(p, loadable1) == GetDriverClass(p, loadable2) == Some(p.source.driverClass)
  {
  }

  /** A class name that does not resolve yields no class, not an error; one that
      resolves yields that class. */
  lemma ClassNameLookup(p: Default, loadable: set<string>)
    requires p.source.GivenClassName?
    ensures p.source.driverClassName !in loadable ==> GetDriverClass(p, loadable) == None
    ensures p.source.driverClassName in loadable ==> GetDriverClass(p, loadable) == Some(p.source.driverClassName)
  {
  }
}
