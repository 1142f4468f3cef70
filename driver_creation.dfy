/** The parts of the abstract pool (AbstractWebDriverPool, and its older form
    WebDriverFactoryInternal) that compute rather than keep state: the key a
    driver is recorded under, the two provider chains and the choice between
    them. The pool class itself is in ThreadLocalSinglePool. */
module DriverCreation {
  import opened Common
  import opened ProviderChain
  import LocalDriverProvider
  import DefaultLocalDriverProvider

  /** A local provider in a chain. */
  datatype LocalProvider =
    | Reflective(byClass: LocalDriverProvider.Default)
    | Tabled(tables: DefaultLocalDriverProvider.Tables)
    | LocalCustom(id: nat)          // supplied by the user or discovered by ServiceLoader

  /** `provider.createDriver(capabilities)` of a local provider. */
  function LocalAnswer(p: LocalProvider, caps: Capabilities, env: Environment): Answer
  {
    match p
    case Reflective(d) => LocalDriverProvider.CreateDriver(d, caps, env)
    case Tabled(t) => DefaultLocalDriverProvider.CreateDriver(t, caps, env)
    case LocalCustom(id) => env.localCustom(id, caps)
  }

  /** The answers of a local chain, in chain order. */
  function LocalAnswers(chain: seq<LocalProvider>, caps: Capabilities, env: Environment): (r: seq<Answer>)
    ensures |r| == |chain|
    ensures forall i :: 0 <= i < |chain| ==> r[i] == LocalAnswer(chain[i], caps, env)
  {
    seq(|chain|, i requires 0 <= i < |chain| => LocalAnswer(chain[i], caps, env))
  }

  /** The answers of a remote chain to a hub, in chain order. */
  function RemoteAnswers(chain: seq<RemoteProvider>, hub: string, caps: Capabilities, env: Environment): (r: seq<Answer>)
    ensures |r| == |chain|
    ensures forall i :: 0 <= i < |chain| ==> r[i] == env.remote(chain[i], hub, caps)
  {
    seq(|chain|, i requires 0 <= i < |chain| => env.remote(chain[i], hub, caps))
  }

  /** Capabilities as `DesiredCapabilities.<browser>()` presets them; only the
      browser name is read by the providers that hold them. */
  function Preset(browserName: string): Capabilities
  {
    Capabilities(browserName, "Capabilities [{browserName=" + browserName + "}]")
  }

  /** The local providers every new pool starts with, in this order, before the
      ones ServiceLoader discovers. */
  const BuiltInLocalChain: seq<LocalProvider> := [
    Reflective(LocalDriverProvider.Default(Preset("chrome"), LocalDriverProvider.GivenClassName("org.openqa.selenium.chrome.ChromeDriver"))),
    Reflective(LocalDriverProvider.Default(Preset("firefox"), LocalDriverProvider.GivenClassName("org.openqa.selenium.firefox.FirefoxDriver"))),
    Reflective(LocalDriverProvider.Default(Preset("internet explorer"), LocalDriverProvider.GivenClassName("org.openqa.selenium.ie.InternetExplorerDriver"))),
    Reflective(LocalDriverProvider.Default(Preset("MicrosoftEdge"), LocalDriverProvider.GivenClassName("org.openqa.selenium.edge.EdgeDriver"))),
    Reflective(LocalDriverProvider.Default(Preset("operablink"), LocalDriverProvider.GivenClassName("org.openqa.selenium.opera.OperaDriver"))),
    Reflective(LocalDriverProvider.Default(Preset("opera"), LocalDriverProvider.GivenClassName("com.opera.core.systems.OperaDriver"))),
    Reflective(LocalDriverProvider.Default(Preset("safari"), LocalDriverProvider.GivenClassName("org.openqa.selenium.safari.SafariDriver"))),
    Reflective(LocalDriverProvider.Default(Preset("phantomjs"), LocalDriverProvider.GivenClassName("org.openqa.selenium.phantomjs.PhantomJSDriver"))),
    Reflective(LocalDriverProvider.Default(Preset("htmlunit"), LocalDriverProvider.GivenClassName("org.openqa.selenium.htmlunit.HtmlUnitDriver")))
  ]

  /** The remote providers every new pool starts with, before the discovered ones. */
  const BuiltInRemoteChain: seq<RemoteProvider> := [BuiltInRemote]

  // ---------------------------------------------------------------- keys

  /** The hub as Java's string concatenation prints it: a null hub is "null". */
  function HubText(hub: Option<string>): string
  {
    match hub
    case None => "null"
    case Some(h) => h
  }

  /** createKey: the capabilities' printed form, a colon and the hub. */
  function CreateKey(caps: Capabilities, hub: Option<string>): string
  {
    caps.text + ":" + HubText(hub)
  }

  /** Cancelling a common suffix. */
  lemma SameSuffixSamePrefix(a: string, b: string, s: string)
    requires a + s == b + s
    ensures a == b
  {
    assert |a| == |b|;
    assert a == (a + s)[..|a|];
    assert b == (b + s)[..|b|];
  }

  /** For one hub, two requests share a key exactly when their capabilities
      print the same: keys tell capabilities apart. */
  lemma KeySeparatesCapabilities(c1: Capabilities, c2: Capabilities, hub: Option<string>)
    ensures CreateKey(c1, hub) == CreateKey(c2, hub) <==> c1.text == c2.text
  {
    if CreateKey(c1, hub) == CreateKey(c2, hub) {
      var suffix := ":" + HubText(hub);
      assert CreateKey(c1, hub) == c1.text + suffix;
      assert CreateKey(c2, hub) == c2.text + suffix;
      SameSuffixSamePrefix(c1.text, c2.text, ":" + HubText(hub));
    }
  }

  /** For one capabilities object, two requests share a key exactly when their
      hubs print the same. */
  lemma KeySeparatesHubs(caps: Capabilities, h1: Option<string>, h2: Option<string>)
    ensures CreateKey(caps, h1) == CreateKey(caps, h2) <==> HubText(h1) == HubText(h2)
  {
    var p := caps.text + ":";
    assert CreateKey(caps, h1) == p + HubText(h1);
    assert CreateKey(caps, h2) == p + HubText(h2);
    if CreateKey(caps, h1) == CreateKey(caps, h2) {
      assert HubText(h1) == (p + HubText(h1))[|p|..];
      assert HubText(h2) == (p + HubText(h2))[|p|..];
    }
  }

  /** A local request and a remote request to a hub literally named "null" share
      a key, so either can reuse the driver of the other. */
  lemma NullHubSharesLocalKey(caps: Capabilities)
    ensures CreateKey(caps, None) == CreateKey(caps, Some("null"))
  {
  }

  /** The colon does not delimit: a colon moved between the capabilities' printed
      form and the hub gives the same key. */
  lemma ColonIsAmbiguous(browserName: string, a: string, b: string, c: string)
    ensures CreateKey(Capabilities(browserName, a + ":" + b), Some(c)) ==
            CreateKey(Capabilities(browserName, a), Some(b + ":" + c))
  {
    assert (a + ":" + b) + ":" + c == a + ":" + (b + ":" + c);
  }

  // ---------------------------------------------------------------- creation

  /** newDriver: the local chain without a hub, the remote chain with one; a chain
      whose providers all decline fails with a creation error. */
  function Creation(local: seq<LocalProvider>, remote: seq<RemoteProvider>, hub: Option<string>,
                    caps: Capabilities, env: Environment): (o: Outcome)
    ensures hub.None? && o.Pass? ==>
              exists i :: 0 <= i < |local| && LocalAnswers(local, caps, env)[i] == Created
    ensures hub.None? && o.Fail? ==>
              o.error == NoLocalProvider(caps) ||
              exists i :: 0 <= i < |local| && LocalAnswers(local, caps, env)[i] == Raised(o.error)
    ensures hub.Some? && o.Pass? ==>
              exists i :: 0 <= i < |remote| && RemoteAnswers(remote, hub.value, caps, env)[i] == Created
    ensures hub.Some? && o.Fail? ==>
              o.error == NoRemoteProvider(caps) ||
              exists i :: 0 <= i < |remote| && RemoteAnswers(remote, hub.value, caps, env)[i] == Raised(o.error)
  {
    match hub
    case None => Settle(FirstNonDeclined(LocalAnswers(local, caps, env)), NoLocalProvider(caps))
    case Some(h) => Settle(FirstNonDeclined(RemoteAnswers(remote, h, caps, env)), NoRemoteProvider(caps))
  }

  /** Without a hub only the local chain is consulted; with one only the remote chain. */
  lemma CreationChoosesChain(local: seq<LocalProvider>, local': seq<LocalProvider>,
                             remote: seq<RemoteProvider>, remote': seq<RemoteProvider>,
                             hub: Option<string>, caps: Capabilities, env: Environment)
    ensures hub.None? ==> Creation(local, remote, hub, caps, env) == Creation(local, remote', hub, caps, env)
    ensures hub.Some? ==> Creation(local, remote, hub, caps, env) == Creation(local', remote, hub, caps, env)
  {
  }

  /** A creation succeeds exactly when some provider of the chosen chain returns a
      driver and every provider before it returns null. */
  lemma {:induction false} CreationSucceedsIff(local: seq<LocalProvider>, hub: Option<string>,
                                               caps: Capabilities, env: Environment)
    requires hub.None?
    ensures Creation(local, [], hub, caps, env).Pass? <==>
              exists i :: 0 <= i < |local| && LocalAnswer(local[i], caps, env) == Created &&
                          forall j :: 0 <= j < i ==> LocalAnswer(local[j], caps, env) == Declined
  {
    var answers := LocalAnswers(local, caps, env);
    EarlierProvidersDeclined(answers);
    if exists i :: 0 <= i < |local| && LocalAnswer(local[i], caps, env) == Created &&
                   forall j :: 0 <= j < i ==> LocalAnswer(local[j], caps, env) == Declined {
      var i :| 0 <= i < |local| && LocalAnswer(local[i], caps, env) == Created &&
               forall j :: 0 <= j < i ==> LocalAnswer(local[j], caps, env) == Declined;
      FirstNonDeclinedAt(answers, i);
    }
  }

  /** The same for the remote chain, asked with the hub. */
  lemma {:induction false} RemoteCreationSucceedsIff(remote: seq<RemoteProvider>, hub: string,
                                                     caps: Capabilities, env: Environment)
    ensures Creation([], remote, Some(hub), caps, env).Pass? <==>
              exists i :: 0 <= i < |remote| && env.remote(remote[i], hub, caps) == Created &&
                          forall j :: 0 <= j < i ==> env.remote(remote[j], hub, caps) == Declined
  {
    var answers := RemoteAnswers(remote, hub, caps, env);
    EarlierProvidersDeclined(answers);
    if exists i :: 0 <= i < |remote| && env.remote(remote[i], hub, caps) == Created &&
                   forall j :: 0 <= j < i ==> env.remote(remote[j], hub, caps) == Declined {
      var i :| 0 <= i < |remote| && env.remote(remote[i], hub, caps) == Created &&
               forall j :: 0 <= j < i ==> env.remote(remote[j], hub, caps) == Declined;
      FirstNonDeclinedAt(answers, i);
    }
  }

  /** When every local provider declines, the creation fails with a creation error
      naming the capabilities; the same holds for the remote chain. */
  lemma AllDeclineFails(local: seq<LocalProvider>, remote: seq<RemoteProvider>, hub: Option<string>,
                        caps: Capabilities, env: Environment)
    requires hub.None? ==> forall i :: 0 <= i < |local| ==> LocalAnswer(local[i], caps, env) == Declined
    requires hub.Some? ==> forall i :: 0 <= i < |remote| ==> env.remote(remote[i], hub.value, caps) == Declined
    ensures hub.None? ==> Creation(local, remote, hub, caps, env) == Fail(NoLocalProvider(caps))
    ensures hub.Some? ==> Creation(local, remote, hub, caps, env) == Fail(NoRemoteProvider(caps))
  {
    match hub
    case None => EarlierProvidersDeclined(LocalAnswers(local, caps, env));
    case Some(h) => EarlierProvidersDeclined(RemoteAnswers(remote, h, caps, env));
  }

  /** addLocalDriverProvider puts the provider at the head of the chain: when it
      answers, its answer decides; when it declines, the old chain decides as
      before. */
  lemma AddedLocalProviderFirst(p: LocalProvider, local: seq<LocalProvider>, remote: seq<RemoteProvider>,
                                caps: Capabilities, env: Environment)
    ensures LocalAnswer(p, caps, env) == Created ==> Creation([p] + local, remote, None, caps, env) == Pass
    ensures LocalAnswer(p, caps, env).Raised? ==>
              Creation([p] + local, remote, None, caps, env) == Fail(LocalAnswer(p, caps, env).error)
    ensures LocalAnswer(p, caps, env) == Declined ==>
              Creation([p] + local, remote, None, caps, env) == Creation(local, remote, None, caps, env)
  {
    var head, rest := LocalAnswer(p, caps, env), LocalAnswers(local, caps, env);
    var all := LocalAnswers([p] + local, caps, env);
    forall i | 1 <= i < |all|
      ensures all[i] == rest[i - 1]
    {
      assert ([p] + local)[i] == local[i - 1];
    }
    assert all == [head] + rest;
    PrependedAnswerFirst(head, rest);
  }

  /** addRemoteDriverProvider: the same for the remote chain. */
  lemma AddedRemoteProviderFirst(p: RemoteProvider, local: seq<LocalProvider>, remote: seq<RemoteProvider>,
                                 hub: string, caps: Capabilities, env: Environment)
    ensures env.remote(p, hub, caps) == Created ==> Creation(local, [p] + remote, Some(hub), caps, env) == Pass
    ensures env.remote(p, hub, caps).Raised? ==>
              Creation(local, [p] + remote, Some(hub), caps, env) == Fail(env.remote(p, hub, caps).error)
    ensures env.remote(p, hub, caps) == Declined ==>
              Creation(local, [p] + remote, Some(hub), caps, env) == Creation(local, remote, Some(hub), caps, env)
  {
    var head, rest := env.remote(p, hub, caps), RemoteAnswers(remote, hub, caps, env);
    var all := RemoteAnswers([p] + remote, hub, caps, env);
    forall i | 1 <= i < |all|
      ensures all[i] == rest[i - 1]
    {
      assert ([p] + remote)[i] == remote[i - 1];
    }
    assert all == [head] + rest;
    PrependedAnswerFirst(head, rest);
  }

  /** A DefaultLocalDriverProvider in a chain hides every provider after it from a
      request for a browser its tables do not have. */
  lemma TablesHideLaterProviders(local: seq<LocalProvider>, i: nat, caps: Capabilities, env: Environment)
    requires i < |local| && local[i].Tabled?
    requires caps.browserName !in local[i].tables.creators
    requires caps.browserName !in local[i].tables.externalDriverClasses
    requires forall j :: 0 <= j < i ==> LocalAnswer(local[j], caps, env) == Declined
    ensures FirstNonDeclined(LocalAnswers(local, caps, env)) == Threw(i, NoLocalProvider(caps))
    ensures Creation(local, [], None, caps, env) == Fail(NoLocalProvider(caps))
  {
    DefaultLocalDriverProvider.UnknownBrowserRaises(local[i].tables, caps, env);
    FirstNonDeclinedAt(LocalAnswers(local, caps, env), i);
  }

  /** When only an unresolved class name makes a construction return null, a
      DefaultLocalDriverProvider with a creator for the requested browser never
      returns null, so the walk stops at it, with the creator's outcome. */
  lemma TabledCreatorStopsChain(local: seq<LocalProvider>, remote: seq<RemoteProvider>, i: nat,
                                caps: Capabilities, env: Environment)
    requires OnlyUnresolvedNamesDecline(env)
    requires i < |local| && local[i].Tabled? && caps.browserName in local[i].tables.creators
    requires forall j :: 0 <= j < i ==> LocalAnswer(local[j], caps, env) == Declined
    ensures FirstNonDeclined(LocalAnswers(local, caps, env)) == StopWith(i, env.construct(ViaCreator(caps.browserName), caps))
    ensures Creation(local, remote, None, caps, env) ==
              Settle(StopWith(i, env.construct(ViaCreator(caps.browserName), caps)), NoLocalProvider(caps))
  {
    DefaultLocalDriverProvider.DeclinesOnlyUnresolvedExternalClass(local[i].tables, caps, env);
    FirstNonDeclinedAt(LocalAnswers(local, caps, env), i);
  }

  /** Likewise, a LocalDriverProvider.Default for the requested browser never
      returns null: the walk stops at it, whether its class resolves or not. */
  lemma MatchingDefaultStopsChain(local: seq<LocalProvider>, remote: seq<RemoteProvider>, i: nat,
                                  caps: Capabilities, env: Environment)
    requires OnlyUnresolvedNamesDecline(env)
    requires i < |local| && local[i].Reflective?
    requires LocalDriverProvider.CanCreateDriverInstanceFor(local[i].byClass, caps)
    requires forall j :: 0 <= j < i ==> LocalAnswer(local[j], caps, env) == Declined
    ensures FirstNonDeclined(LocalAnswers(local, caps, env)).Stopped()
    ensures FirstNonDeclined(LocalAnswers(local, caps, env)).index == i
  {
    LocalDriverProvider.DeclinesOnlyOtherBrowsers(local[i].byClass, caps, env);
    FirstNonDeclinedAt(LocalAnswers(local, caps, env), i);
  }

  /** In the built-in chain a firefox request passes the chrome preset and is
      decided by the firefox preset, whether or not its class resolves. */
  lemma BuiltInChainServesFirefoxSecond(caps: Capabilities, env: Environment)
    requires OnlyUnresolvedNamesDecline(env)
    requires caps.browserName == "firefox"
    ensures FirstNonDeclined(LocalAnswers(BuiltInLocalChain, caps, env)).Stopped()
    ensures FirstNonDeclined(LocalAnswers(BuiltInLocalChain, caps, env)).index == 1
  {
    LocalDriverProvider.DeclinesOtherBrowsers(BuiltInLocalChain[0].byClass, caps, env);
    MatchingDefaultStopsChain(BuiltInLocalChain, BuiltInRemoteChain, 1, caps, env);
  }

  /** No built-in local provider serves a browser name they do not list, so with
      no class-path or custom provider such a request fails. */
  lemma {:induction false} BuiltInChainDeclinesUnknownBrowser(caps: Capabilities, env: Environment)
    requires caps.browserName !in {"chrome", "firefox", "internet explorer", "MicrosoftEdge", "operablink",
                                   "opera", "safari", "phantomjs", "htmlunit"}
    ensures Creation(BuiltInLocalChain, BuiltInRemoteChain, None, caps, env) == Fail(NoLocalProvider(caps))
  {
    forall i | 0 <= i < |BuiltInLocalChain|
      ensures LocalAnswer(BuiltInLocalChain[i], caps, env) == Declined
    {
      LocalDriverProvider.DeclinesOtherBrowsers(BuiltInLocalChain[i].byClass, caps, env);
    }
    AllDeclineFails(BuiltInLocalChain, BuiltInRemoteChain, None, caps, env);
  }

  /** createLocalDriver: asks the local providers in order and returns at the first
      one that does not return null. */
  method CreateLocalDriver(chain: seq<LocalProvider>, caps: Capabilities, env: Environment) returns (r: Outcome)
    ensures r == Creation(chain, [], None, caps, env)
  {
    ghost var answers := LocalAnswers(chain, caps, env);
    for i := 0 to |chain|
      invariant forall j :: 0 <= j < i ==> answers[j] == Declined
    {
      var answer := LocalAnswer(chain[i], caps, env);
      if answer != Declined {
        FirstNonDeclinedAt(answers, i);
        return if answer == Created then Pass else Fail(answer.error);
      }
    }
    EarlierProvidersDeclined(answers);
    return Fail(NoLocalProvider(caps));
  }

  /** createRemoteDriver: the same over the remote providers, passing the hub. */
  method CreateRemoteDriver(chain: seq<RemoteProvider>, hub: string, caps: Capabilities, env: Environment)
    returns (r: Outcome)
    ensures r == Creation([], chain, Some(hub), caps, env)
  {
    ghost var answers := RemoteAnswers(chain, hub, caps, env);
    for i := 0 to |chain|
      invariant forall j :: 0 <= j < i ==> answers[j] == Declined
    {
      var answer := env.remote(chain[i], hub, caps);
      if answer != Declined {
        FirstNonDeclinedAt(answers, i);
        return if answer == Created then Pass else Fail(answer.error);
      }
    }
    EarlierProvidersDeclined(answers);
    return Fail(NoRemoteProvider(caps));
  }
}
