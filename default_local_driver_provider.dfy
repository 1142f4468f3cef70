/** DefaultLocalDriverProvider: one provider for every standard browser. Two
    immutable tables, keyed by browser name, pick how to build the driver: a
    creator function for the browsers Selenium ships, a driver class name for the
    external ones. A browser in neither table is an error, not a decline. */
module DefaultLocalDriverProvider {
  import opened Common

  /** The provider's two lookup tables. */
  datatype Tables = Tables(creators: set<string>, externalDriverClasses: map<string, string>)

  /** The tables as the provider builds them, with Selenium's BrowserType names:
      CHROME, FIREFOX, IE, EDGE, SAFARI and OPERA_BLINK have creators; OPERA and
      HTMLUNIT have external driver classes. */
  const Standard: Tables := Tables(
    {"chrome", "firefox", "internet explorer", "MicrosoftEdge", "safari", "operablink"},
    map["opera" := "com.opera.core.systems.OperaDriver",
        "htmlunit" := "org.openqa.selenium.htmlunit.HtmlUnitDriver"])

  /** The construction chosen for a browser name, or None when neither table has it. */
  function Route(t: Tables, browserName: string): (r: Option<Construction>)
    ensures r.None? <==> browserName !in t.creators && browserName !in t.externalDriverClasses
    ensures r.Some? ==> r.value.ViaCreator? || r.value.ViaClassName?
  {
    if browserName in t.creators then Some(ViaCreator(browserName))
    else if browserName in t.externalDriverClasses then Some(ViaClassName(t.externalDriverClasses[browserName]))
    else None
  }

  /** createDriver(Capabilities): the outcome of the chosen construction, or a
      DriverCreationError when there is none. */
  function CreateDriver(t: Tables, caps: Capabilities, env: Environment): Answer
  {
    match Route(t, caps.browserName)
    case Some(c) => env.construct(c, caps)
    case None => Raised(NoLocalProvider(caps))
  }

  /** Two requests for the same browser name are built the same way. */
  lemma DispatchByBrowserNameOnly(t: Tables, c1: Capabilities, c2: Capabilities, env: Environment)
    requires c1.browserName == c2.browserName
    ensures Route(t, c1.browserName) == Route(t, c2.browserName)
    ensures Route(t, c1.browserName).Some? ==>
              CreateDriver(t, c1, env) == env.construct(Route(t, c1.browserName).value, c1) &&
              CreateDriver(t, c2, env) == env.construct(Route(t, c1.browserName).value, c2)
    ensures Route(t, c1.browserName).None? ==>
              CreateDriver(t, c1, env) == Raised(NoLocalProvider(c1)) &&
              CreateDriver(t, c2, env) == Raised(NoLocalProvider(c2))
  {
  }

  /** A browser with a creator uses it; the external table is not consulted, so
      any provider with the same creators behaves the same. */
  lemma CreatorFirst(t: Tables, other: Tables, caps: Capabilities, env: Environment)
    requires caps.browserName in t.creators
    requires other.creators == t.creators
    ensures CreateDriver(t, caps, env) == CreateDriver(other, caps, env) == env.construct(ViaCreator(caps.browserName), caps)
  {
  }

  /** A browser without a creator but with an external class is built from that class name. */
  lemma ExternalClassSecond(t: Tables, caps: Capabilities, env: Environment)
    requires caps.browserName !in t.creators
    requires caps.browserName in t.externalDriverClasses
    ensures CreateDriver(t, caps, env) == env.construct(ViaClassName(t.externalDriverClasses[caps.browserName]), caps)
  {
  }

  /** A browser in neither table raises a creation error: the provider never
      declines on its own, so providers after it in a chain are never asked. */
  lemma UnknownBrowserRaises(t: Tables, caps: Capabilities, env: Environment)
    requires caps.browserName !in t.creators && caps.browserName !in t.externalDriverClasses
    ensures CreateDriver(t, caps, env) == Raised(NoLocalProvider(caps))
    ensures CreateDriver(t, caps, env) != Declined
  {
  }

  /** When only an unresolved class name makes a construction return null, the
      provider returns null only for a browser routed to an external class whose
      name does not resolve; every other request yields a driver or throws. */
  lemma DeclinesOnlyUnresolvedExternalClass(t: Tables, caps: Capabilities, env: Environment)
    requires OnlyUnresolvedNamesDecline(env)
    ensures CreateDriver(t, caps, env) == Declined <==>
              && caps.browserName !in t.creators
              && caps.browserName in t.externalDriverClasses
              && t.externalDriverClasses[caps.browserName] !in env.loadable
    ensures caps.browserName in t.creators ==> CreateDriver(t, caps, env) != Declined
  {
  }

  /** The standard tables are disjoint, and each browser routes where the tables say. */
  lemma StandardRoutes()
    ensures Standard.creators !! Standard.externalDriverClasses.Keys
    ensures Route(Standard, "chrome") == Some(ViaCreator("chrome"))
    ensures Route(Standard, "opera") == Some(ViaClassName("com.opera.core.systems.OperaDriver"))
    ensures Route(Standard, "htmlunit") == Some(ViaClassName("org.openqa.selenium.htmlunit.HtmlUnitDriver"))
    ensures Route(Standard, "phantomjs") == None
  {
  }
}
