/**
 * Model of the Undertow web server assembly: configuration contributors applied in turn to
 * an Undertow builder. One adds the HTTP or HTTPS listener, one sets the thread counts, and
 * one gathers the context-mapped handlers into a path table, wraps it in an optional
 * security handler and then in an optional SSL handler, and installs the result. The
 * server is built and started only after every contributor has run.
 *
 * Dependency-container lookups become inputs: sequences of handlers, endpoint providers and
 * endpoints, functions that make the endpoint handlers, and a map of named security factories.
 */
module WebServer {

  datatype Option<T> = None | Some(value: T)

  // ---------------------------------------------------------------------------
  // Handlers

  /** `ContextMappedHandler.Parameters`: the mount path and whether only that exact path maps. */
  datatype Parameters = Parameters(path: string, exactPathOnly: bool)

  /** A context-mapped handler, by identity, with its mapping parameters. */
  datatype MappedHandler = MappedHandler(id: nat, mappingParameters: Parameters)

  /** An operation or query endpoint, by identity. */
  datatype Endpoint = Endpoint(id: nat)

  datatype EndpointProvider = EndpointProvider(operationEndpoints: seq<Endpoint>, queryEndpoints: seq<Endpoint>)

  /** What the container supplies to the handler contributor, in the container's order. */
  datatype HandlerSources = HandlerSources(
    mappedHandlers: seq<MappedHandler>,           // handlers defined directly
    providers: seq<EndpointProvider>,
    queryEndpoints: seq<Endpoint>,                // query endpoints defined directly
    operationEndpoints: seq<Endpoint>,            // operation endpoints defined directly
    operationHandler: Endpoint -> MappedHandler,  // the handler made for an operation endpoint
    queryHandler: Endpoint -> MappedHandler)      // the handler made for a query endpoint

  datatype SecurityHandlerFactory = SecurityHandlerFactory(name: string)

  datatype SslContext = SslContext(id: nat)

  /** An SSL configurator; `sslContext` is None when its key or trust material cannot be loaded. */
  datatype SslConfigurator = SslConfigurator(sslContext: Option<SslContext>)

  /** The handler chain installed on the server. */
  datatype HttpHandler =
    | PathTable(exactPaths: seq<(string, MappedHandler)>, prefixPaths: seq<(string, MappedHandler)>)
    | Secured(factory: SecurityHandlerFactory, inner: HttpHandler)  // factory.createSecurityHandler(inner)
    | SslWrapped(configurator: SslConfigurator, inner: HttpHandler)  // configurator.createSSLHandler(inner)

  // ---------------------------------------------------------------------------
  // Gathering handlers

  function MapEndpoints(es: seq<Endpoint>, make: Endpoint -> MappedHandler): (r: seq<MappedHandler>)
    ensures |r| == |es| && forall i :: 0 <= i < |es| ==> r[i] == make(es[i])
  {
    if es == [] then [] else [make(es[0])] + MapEndpoints(es[1..], make)
  }

  function ProviderSize(p: EndpointProvider): nat
  {
    |p.operationEndpoints| + |p.queryEndpoints|
  }

  function TotalSize(ps: seq<EndpointProvider>): nat
  {
    if ps == [] then 0 else ProviderSize(ps[0]) + TotalSize(ps[1..])
  }

  /** Each provider's operation-endpoint handlers followed by its query-endpoint handlers. */
  function ProviderHandlers(ps: seq<EndpointProvider>, opHandler: Endpoint -> MappedHandler,
                            queryHandler: Endpoint -> MappedHandler): (r: seq<MappedHandler>)
    ensures |r| == TotalSize(ps)
  {
    if ps == [] then []
    else MapEndpoints(ps[0].operationEndpoints, opHandler) + MapEndpoints(ps[0].queryEndpoints, queryHandler)
         + ProviderHandlers(ps[1..], opHandler, queryHandler)
  }

  /** The gathered handler list: direct handlers, provider handlers, direct query endpoints,
      direct operation endpoints. */
  function Gather(src: HandlerSources): (r: seq<MappedHandler>)
    ensures |r| == |src.mappedHandlers| + TotalSize(src.providers) + |src.queryEndpoints| + |src.operationEndpoints|
  {
    src.mappedHandlers
    + ProviderHandlers(src.providers, src.operationHandler, src.queryHandler)
    + MapEndpoints(src.queryEndpoints, src.queryHandler)
    + MapEndpoints(src.operationEndpoints, src.operationHandler)
  }

  /** Provider k's handlers sit after those of the providers before it: first its operation
      endpoints' handlers, then its query endpoints'. */
  lemma {:induction false} ProviderHandlersAt(ps: seq<EndpointProvider>, opHandler: Endpoint -> MappedHandler,
                                               queryHandler: Endpoint -> MappedHandler, k: nat, j: nat)
    requires k < |ps| && j < ProviderSize(ps[k])
    ensures TotalSize(ps[..k]) + j < TotalSize(ps)
    ensures var ops := ps[k].operationEndpoints;
            ProviderHandlers(ps, opHandler, queryHandler)[TotalSize(ps[..k]) + j]
            == if j < |ops| then opHandler(ops[j]) else queryHandler(ps[k].queryEndpoints[j - |ops|])
  {
    if k == 0 {
      assert ps[..0] == [];
    } else {
      ProviderHandlersAt(ps[1..], opHandler, queryHandler, k - 1, j);
      assert ps[..k][0] == ps[0];
      assert ps[..k][1..] == ps[1..][..k - 1];
    }
  }

  lemma Segments<T>(a: seq<T>, b: seq<T>, c: seq<T>, d: seq<T>)
    ensures var r, i, j, k := a + b + c + d, |a|, |a| + |b|, |a| + |b| + |c|;
            r[..i] == a && r[i..j] == b && r[j..k] == c && r[k..] == d
  {
    var r, i, j, k := a + b + c + d, |a|, |a| + |b|, |a| + |b| + |c|;
    assert r[..k] == a + b + c;
    assert (a + b + c)[..j] == a + b;
  }

  /** Where each source's handlers land in the gathered list: the direct handlers, the
      provider handlers, the direct query endpoints' handlers and the direct operation
      endpoints' handlers, one segment after the other. */
  lemma GatherLayout(src: HandlerSources)
    ensures var r, d, t, q := Gather(src), |src.mappedHandlers|, TotalSize(src.providers), |src.queryEndpoints|;
            && r[..d] == src.mappedHandlers
            && r[d..d + t] == ProviderHandlers(src.providers, src.operationHandler, src.queryHandler)
            && r[d + t..d + t + q] == MapEndpoints(src.queryEndpoints, src.queryHandler)
            && r[d + t + q..] == MapEndpoints(src.operationEndpoints, src.operationHandler)
  {
    Segments(src.mappedHandlers, ProviderHandlers(src.providers, src.operationHandler, src.queryHandler),
             MapEndpoints(src.queryEndpoints, src.queryHandler),
             MapEndpoints(src.operationEndpoints, src.operationHandler));
  }

  // ---------------------------------------------------------------------------
  // Path registration

  /** The registration one handler makes in the table selected by `exactTable`. */
  function Entry(h: MappedHandler, exactTable: bool): seq<(string, MappedHandler)>
  {
    if h.mappingParameters.exactPathOnly == exactTable then [(h.mappingParameters.path, h)] else []
  }

  /** The registrations made in the exact (`exactTable`) or the prefix table, in list order;
      each under the handler's own path, from handlers whose flag selects that table. */
  function Registrations(hs: seq<MappedHandler>, exactTable: bool): (r: seq<(string, MappedHandler)>)
    ensures forall i :: 0 <= i < |r| ==>
      r[i].1.mappingParameters.exactPathOnly == exactTable && r[i].0 == r[i].1.mappingParameters.path
  {
    if hs == [] then [] else Registrations(hs[..|hs| - 1], exactTable) + Entry(hs[|hs| - 1], exactTable)
  }

  function HandlersOf(regs: seq<(string, MappedHandler)>): seq<MappedHandler>
  {
    if regs == [] then [] else HandlersOf(regs[..|regs| - 1]) + [regs[|regs| - 1].1]
  }

  lemma {:induction false} HandlersOfAppend(a: seq<(string, MappedHandler)>, b: seq<(string, MappedHandler)>)
    ensures HandlersOf(a + b) == HandlersOf(a) + HandlersOf(b)
  {
    if b != [] {
      assert (a + b)[..|a + b| - 1] == a + b[..|b| - 1];
      HandlersOfAppend(a, b[..|b| - 1]);
    } else {
      assert a + b == a;
    }
  }

  /** Registration respects list order: the registrations of a concatenation are those of
      the first part followed by those of the second. */
  lemma {:induction false} RegistrationsAppend(a: seq<MappedHandler>, b: seq<MappedHandler>, exactTable: bool)
    ensures Registrations(a + b, exactTable) == Registrations(a, exactTable) + Registrations(b, exactTable)
  {
    if b == [] {
      assert a + b == a;
    } else {
      assert (a + b)[..|a + b| - 1] == a + b[..|b| - 1];
      RegistrationsAppend(a, b[..|b| - 1], exactTable);
    }
  }

  /** Registering one more handler adds it to the handlers of exactly the table its flag selects. */
  lemma {:induction false} HandlersOfStep(hs: seq<MappedHandler>, exactTable: bool)
    requires hs != []
    ensures var h := hs[|hs| - 1];
            HandlersOf(Registrations(hs, exactTable))
            == HandlersOf(Registrations(hs[..|hs| - 1], exactTable))
               + (if h.mappingParameters.exactPathOnly == exactTable then [h] else [])
  {
    var init, h := hs[..|hs| - 1], hs[|hs| - 1];
    var regs := Registrations(init, exactTable);
    if h.mappingParameters.exactPathOnly == exactTable {
      var grown := regs + [(h.mappingParameters.path, h)];
      assert grown[..|grown| - 1] == regs;
    } else {
      assert regs + [] == regs;
      assert HandlersOf(regs) + [] == HandlersOf(regs);
    }
  }

  /** Every handler is registered exactly once: across the two tables the registered
      handlers are the gathered ones, counted with multiplicity. */
  lemma {:induction false} RegisteredExactlyOnce(hs: seq<MappedHandler>)
    ensures multiset(HandlersOf(Registrations(hs, true))) + multiset(HandlersOf(Registrations(hs, false)))
            == multiset(hs)
  {
    if hs != [] {
      var init, h := hs[..|hs| - 1], hs[|hs| - 1];
      assert hs == init + [h];
      RegisteredExactlyOnce(init);
      HandlersOfStep(hs, true);
      HandlersOfStep(hs, false);
      var exact, prefix := HandlersOf(Registrations(init, true)), HandlersOf(Registrations(init, false));
      if h.mappingParameters.exactPathOnly {
        assert multiset(exact + [h]) == multiset(exact) + multiset{h};
        assert multiset(prefix + []) == multiset(prefix);
      } else {
        assert multiset(exact + []) == multiset(exact);
        assert multiset(prefix + [h]) == multiset(prefix) + multiset{h};
      }
    }
  }

  // ---------------------------------------------------------------------------
  // Wrapping

  /** Name of the security configuration that means "no security handler". The actual value
      lives in the microkernel, which is not part of this model. */
  const SecurityConfigurationNone: string := "none"

  datatype FactoryChoice = Unsecured | UseFactory(factory: SecurityHandlerFactory) | Undefined(name: string)

  /** The security factory is looked up by name unless the name is the "none" configuration;
      a lookup of a name the container does not define fails. */
  function SelectFactory(name: string, factories: map<string, SecurityHandlerFactory>): (r: FactoryChoice)
    ensures r.Unsecured? <==> name == SecurityConfigurationNone
    ensures r.UseFactory? <==> name != SecurityConfigurationNone && name in factories
    ensures r.UseFactory? ==> r.factory == factories[name]
    ensures r.Undefined? ==> r.name == name && name !in factories
  {
    if name == SecurityConfigurationNone then Unsecured
    else if name in factories then UseFactory(factories[name])
    else Undefined(name)
  }

  datatype Layer = Transport | Security | Router

  /** The stages a request passes through, outermost first. */
  function Layers(h: HttpHandler): seq<Layer>
  {
    match h
    case PathTable(_, _) => [Router]
    case Secured(_, inner) => [Security] + Layers(inner)
    case SslWrapped(_, inner) => [Transport] + Layers(inner)
  }

  function Innermost(h: HttpHandler): HttpHandler
  {
    match h
    case PathTable(_, _) => h
    case Secured(_, inner) => Innermost(inner)
    case SslWrapped(_, inner) => Innermost(inner)
  }

  /** The root handler: the SSL handler outermost when the server is secure, the security
      handler directly around the path table when a factory is used, the path table innermost. */
  function RootHandler(pathTable: HttpHandler, factory: Option<SecurityHandlerFactory>,
                       ssl: SslConfigurator, isSecure: bool): (r: HttpHandler)
    requires pathTable.PathTable?
    ensures Layers(r) == (if isSecure then [Transport] else []) + (if factory.Some? then [Security] else []) + [Router]
    ensures Innermost(r) == pathTable
    ensures factory.Some? ==> Secured(factory.value, pathTable) == (if isSecure then r.inner else r)
    ensures factory.None? && !isSecure ==> r == pathTable
    ensures isSecure ==> r.SslWrapped? && r.configurator == ssl
  {
    var secured := if factory.Some? then Secured(factory.value, pathTable) else pathTable;
    assert Layers(secured) == (if factory.Some? then [Security] else []) + [Router];
    assert Innermost(secured) == pathTable;
    if isSecure then SslWrapped(ssl, secured) else secured
  }

  // ---------------------------------------------------------------------------
  // The builder state and the contributors

  datatype Listener =
    | HttpListener(port: int, host: string)
    | HttpsListener(port: int, host: string, sslContext: SslContext)

  /** What has been configured on the builder; None stands for Undertow's own default. */
  datatype BuilderState = BuilderState(listeners: seq<Listener>, handler: Option<HttpHandler>,
                                       ioThreads: Option<int>, workerThreads: Option<int>)

  const InitialState: BuilderState := BuilderState([], None, None, None)

  datatype BindAddress = BindAddress(hostname: string, port: int)

  datatype WebServerSettings = WebServerSettings(bindAddress: BindAddress, isSecure: bool,
                                                 ioThreads: int, workerThreads: int)

  datatype SecuritySettings = SecuritySettings(securityHandlerName: string)

  datatype Contributor =
    | ListenerContributor(settings: WebServerSettings, sslConfigurator: SslConfigurator)
    | HandlerContributor(webServerSettings: WebServerSettings, securitySettings: SecuritySettings,
                         handlerSslConfigurator: SslConfigurator, sources: HandlerSources,
                         securityFactories: map<string, SecurityHandlerFactory>)
    | SettingsContributor(threadSettings: WebServerSettings)

  datatype StartupError = TransportInitFailed | SecurityFactoryNotDefined(name: string)

  datatype Outcome = Configured(state: BuilderState) | Failed(error: StartupError)

  /** The listener a listener contributor adds, None when the SSL context cannot be created. */
  function ListenerFor(settings: WebServerSettings, ssl: SslConfigurator): (r: Option<Listener>)
    ensures r.None? <==> settings.isSecure && ssl.sslContext.None?
    ensures r.Some? ==> r.value.port == settings.bindAddress.port && r.value.host == settings.bindAddress.hostname
    ensures r.Some? ==> (r.value.HttpsListener? <==> settings.isSecure)
    ensures r.Some? && settings.isSecure ==> r.value.sslContext == ssl.sslContext.value
  {
    var address := settings.bindAddress;
    if !settings.isSecure then Some(HttpListener(address.port, address.hostname))
    else if ssl.sslContext.Some? then Some(HttpsListener(address.port, address.hostname, ssl.sslContext.value))
    else None
  }

  /** The path table after registering `hs`: between its two tables every gathered handler
      is registered, as often as it was gathered. */
  function PathTableFor(hs: seq<MappedHandler>): (r: HttpHandler)
    ensures r.PathTable?
    ensures multiset(HandlersOf(r.exactPaths)) + multiset(HandlersOf(r.prefixPaths)) == multiset(hs)
  {
    RegisteredExactlyOnce(hs);
    PathTable(Registrations(hs, true), Registrations(hs, false))
  }

  function FactoryOf(choice: FactoryChoice): Option<SecurityHandlerFactory>
  {
    if choice.UseFactory? then Some(choice.factory) else None
  }

  /** What one contributor does to the builder state. */
  function Contribute(c: Contributor, s: BuilderState): Outcome
  {
    match c
    case ListenerContributor(settings, ssl) =>
      (match ListenerFor(settings, ssl)
       case Some(l) => Configured(s.(listeners := s.listeners + [l]))
       case None => Failed(TransportInitFailed))
    case HandlerContributor(web, security, ssl, sources, factories) =>
      (match SelectFactory(security.securityHandlerName, factories)
       case Undefined(name) => Failed(SecurityFactoryNotDefined(name))
       case choice =>
         Configured(s.(handler := Some(RootHandler(PathTableFor(Gather(sources)), FactoryOf(choice), ssl, web.isSecure)))))
    case SettingsContributor(settings) =>
      Configured(s.(ioThreads := Some(settings.ioThreads), workerThreads := Some(settings.workerThreads)))
  }

  /** The contributors applied in order, stopping at the first that fails. */
  function ApplyAll(cs: seq<Contributor>, s: BuilderState): Outcome
  {
    if cs == [] then Configured(s)
    else match ApplyAll(cs[..|cs| - 1], s)
         case Configured(t) => Contribute(cs[|cs| - 1], t)
         case Failed(e) => Failed(e)
  }

  /** A failure ends the configuration: later contributors change nothing. */
  lemma {:induction false} FailureIsFinal(cs: seq<Contributor>, s: BuilderState, i: nat)
    requires i <= |cs| && ApplyAll(cs[..i], s).Failed?
    ensures ApplyAll(cs, s) == ApplyAll(cs[..i], s)
  {
    if i < |cs| {
      assert cs[..|cs| - 1][..i] == cs[..i];
      FailureIsFinal(cs[..|cs| - 1], s, i);
    } else {
      assert cs[..i] == cs;
    }
  }

  /** The listeners the listener contributors of `cs` add, in order. */
  function ListenersOf(cs: seq<Contributor>): seq<Listener>
  {
    if cs == [] then []
    else ListenersOf(cs[..|cs| - 1])
         + (var c := cs[|cs| - 1];
            if c.ListenerContributor? && ListenerFor(c.settings, c.sslConfigurator).Some?
            then [ListenerFor(c.settings, c.sslConfigurator).value] else [])
  }

  /** After a successful configuration the listeners are the initial ones followed by one per
      listener contributor, in contributor order. */
  lemma {:induction false} ListenersAdded(cs: seq<Contributor>, s: BuilderState)
    requires ApplyAll(cs, s).Configured?
    ensures ApplyAll(cs, s).state.listeners == s.listeners + ListenersOf(cs)
  {
    if cs != [] {
      ListenersAdded(cs[..|cs| - 1], s);
    }
  }

  /** The settings of the last thread-settings contributor, if any. */
  function LastSettings(cs: seq<Contributor>): Option<WebServerSettings>
  {
    if cs == [] then None
    else if cs[|cs| - 1].SettingsContributor? then Some(cs[|cs| - 1].threadSettings)
    else LastSettings(cs[..|cs| - 1])
  }

  /** The thread counts are those of the last settings contributor; with none, the initial ones. */
  lemma {:induction false} LastSettingsWin(cs: seq<Contributor>, s: BuilderState)
    requires ApplyAll(cs, s).Configured?
    ensures var t := ApplyAll(cs, s).state;
            match LastSettings(cs)
            case Some(w) => t.ioThreads == Some(w.ioThreads) && t.workerThreads == Some(w.workerThreads)
            case None => t.ioThreads == s.ioThreads && t.workerThreads == s.workerThreads
  {
    if cs != [] {
      LastSettingsWin(cs[..|cs| - 1], s);
    }
  }

  /** Two contributors of different kinds touch different parts of the builder, so the order
      in which the container lists them does not change a successful configuration. */
  lemma ContributorsCommute(a: Contributor, b: Contributor, s: BuilderState)
    requires a.ListenerContributor? != b.ListenerContributor? || a.HandlerContributor? != b.HandlerContributor?
    ensures ApplyAll([a, b], s).Configured? <==> ApplyAll([b, a], s).Configured?
    ensures ApplyAll([a, b], s).Configured? ==> ApplyAll([a, b], s) == ApplyAll([b, a], s)
  {
    assert [a, b][..1] == [a] && [b, a][..1] == [b];
    assert [a][..0] == [] && [b][..0] == [];
  }

  // ---------------------------------------------------------------------------
  // The mutable objects

  /** Undertow's path handler, as the log of its exact-path and prefix-path registrations. */
  class PathHandler {
    var exactPaths: seq<(string, MappedHandler)>
    var prefixPaths: seq<(string, MappedHandler)>

    constructor ()
      ensures exactPaths == [] && prefixPaths == []
    {
      exactPaths, prefixPaths := [], [];
    }

    method AddExactPath(path: string, handler: MappedHandler)
      modifies this
      ensures exactPaths == old(exactPaths) + [(path, handler)] && prefixPaths == old(prefixPaths)
    {
      exactPaths := exactPaths + [(path, handler)];
    }

    method AddPrefixPath(path: string, handler: MappedHandler)
      modifies this
      ensures prefixPaths == old(prefixPaths) + [(path, handler)] && exactPaths == old(exactPaths)
    {
      prefixPaths := prefixPaths + [(path, handler)];
    }

    function Table(): HttpHandler
      reads this
    {
      PathTable(exactPaths, prefixPaths)
    }
  }

  class Server {
    const config: BuilderState
    var started: bool

    constructor (config: BuilderState)
      ensures this.config == config && !started
    {
      this.config := config;
      started := false;
    }

    method Start()
      modifies this
      ensures started
    {
      started := true;
    }

    method Stop()
      modifies this
      ensures !started
    {
      started := false;
    }
  }

  /** `Undertow.Builder`. */
  class Builder {
    var listeners: seq<Listener>
    var handler: Option<HttpHandler>
    var ioThreads: Option<int>
    var workerThreads: Option<int>

    constructor ()
      ensures State() == InitialState
    {
      listeners, handler, ioThreads, workerThreads := [], None, None, None;
    }

    function State(): BuilderState
      reads this
    {
      BuilderState(listeners, handler, ioThreads, workerThreads)
    }

    method AddHttpListener(port: int, host: string)
      modifies this
      ensures State() == old(State()).(listeners := old(listeners) + [HttpListener(port, host)])
    {
      listeners := listeners + [HttpListener(port, host)];
    }

    method AddHttpsListener(port: int, host: string, sslContext: SslContext)
      modifies this
      ensures State() == old(State()).(listeners := old(listeners) + [HttpsListener(port, host, sslContext)])
    {
      listeners := listeners + [HttpsListener(port, host, sslContext)];
    }

    method SetHandler(h: HttpHandler)
      modifies this
      ensures State() == old(State()).(handler := Some(h))
    {
      handler := Some(h);
    }

    method SetIoThreads(n: int)
      modifies this
      ensures State() == old(State()).(ioThreads := Some(n))
    {
      ioThreads := Some(n);
    }

    method SetWorkerThreads(n: int)
      modifies this
      ensures State() == old(State()).(workerThreads := Some(n))
    {
      workerThreads := Some(n);
    }

    method Build() returns (server: Server)
      ensures fresh(server) && server.config == State() && !server.started
    {
      server := new Server(State());
    }
  }

  /** `UndertowListenerContributor.contribute`: one listener at the bind address, HTTPS with the
      configurator's SSL context when the server is secure, plain HTTP otherwise. */
  method ContributeListener(settings: WebServerSettings, ssl: SslConfigurator, builder: Builder)
    returns (error: Option<StartupError>)
    modifies builder
    ensures error.None? <==> ListenerFor(settings, ssl).Some?
    ensures error.None? ==> builder.State() == old(builder.State()).(listeners := old(builder.listeners) + [ListenerFor(settings, ssl).value])
    ensures error.Some? ==> error.value == TransportInitFailed && builder.State() == old(builder.State())
  {
    var address := settings.bindAddress;
    if settings.isSecure {
      match ssl.sslContext
      case None =>
        return Some(TransportInitFailed);
      case Some(context) =>
        builder.AddHttpsListener(address.port, address.hostname, context);
    } else {
      builder.AddHttpListener(address.port, address.hostname);
    }
    return None;
  }

  /** `UndertowHandlerContributor.contribute`: choose the security factory, gather the handlers,
      register each as an exact or prefix path, wrap, and install the root handler. */
  method ContributeHandlers(web: WebServerSettings, security: SecuritySettings, ssl: SslConfigurator,
                            sources: HandlerSources, factories: map<string, SecurityHandlerFactory>,
                            builder: Builder)
    returns (error: Option<StartupError>)
    modifies builder
    ensures var choice := SelectFactory(security.securityHandlerName, factories);
            && (error.Some? <==> choice.Undefined?)
            && (error.Some? ==> error.value == SecurityFactoryNotDefined(security.securityHandlerName)
                                && builder.State() == old(builder.State()))
            && (error.None? ==> builder.State() == old(builder.State()).(handler :=
                  Some(RootHandler(PathTableFor(Gather(sources)), FactoryOf(choice), ssl, web.isSecure))))
  {
    var factoryName := security.securityHandlerName;
    var factory: Option<SecurityHandlerFactory> := None;
    if factoryName != SecurityConfigurationNone {
      if factoryName !in factories {
        return Some(SecurityFactoryNotDefined(factoryName));
      }
      factory := Some(factories[factoryName]);
    }

    var mappedHandlers := Gather(sources);
    var pathHandler := RegisterAll(mappedHandlers);
    assert factory == FactoryOf(SelectFactory(factoryName, factories));

    var rootHandler := pathHandler.Table();
    assert rootHandler == PathTableFor(mappedHandlers);
    if factory.Some? {
      rootHandler := Secured(factory.value, rootHandler);
    }
    if web.isSecure {
      rootHandler := SslWrapped(ssl, rootHandler);
    }
    assert rootHandler == RootHandler(PathTableFor(mappedHandlers), factory, ssl, web.isSecure);
    builder.SetHandler(rootHandler);
    return None;
  }

  /** The registration loop of `UndertowHandlerContributor.contribute`: a new path handler with
      each gathered handler added, in order, as an exact path or a path prefix by its flag. */
  method RegisterAll(mappedHandlers: seq<MappedHandler>) returns (pathHandler: PathHandler)
    ensures fresh(pathHandler)
    ensures pathHandler.exactPaths == Registrations(mappedHandlers, true)
    ensures pathHandler.prefixPaths == Registrations(mappedHandlers, false)
  {
    pathHandler := new PathHandler();
    for i := 0 to |mappedHandlers|
      invariant fresh(pathHandler)
      invariant pathHandler.exactPaths == Registrations(mappedHandlers[..i], true)
      invariant pathHandler.prefixPaths == Registrations(mappedHandlers[..i], false)
    {
      var handler := mappedHandlers[i];
      assert mappedHandlers[..i + 1][..i] == mappedHandlers[..i];
      if handler.mappingParameters.exactPathOnly {
        pathHandler.AddExactPath(handler.mappingParameters.path, handler);
      } else {
        pathHandler.AddPrefixPath(handler.mappingParameters.path, handler);
      }
    }
    assert mappedHandlers[..|mappedHandlers|] == mappedHandlers;
  }

  /** `UndertowSettingsContributor.contribute`: the configured io and worker thread counts and
      nothing else. */
  method ContributeSettings(settings: WebServerSettings, builder: Builder)
    modifies builder
    ensures builder.State() == old(builder.State()).(ioThreads := Some(settings.ioThreads),
                                                    workerThreads := Some(settings.workerThreads))
  {
    builder.SetIoThreads(settings.ioThreads);
    builder.SetWorkerThreads(settings.workerThreads);
  }

  /** One contributor applied to the builder, as `Contribute` describes. */
  method ContributeTo(c: Contributor, builder: Builder) returns (error: Option<StartupError>)
    modifies builder
    ensures Contribute(c, old(builder.State())) == if error.None? then Configured(builder.State()) else Failed(error.value)
  {
    match c
    case ListenerContributor(settings, ssl) =>
      error := ContributeListener(settings, ssl, builder);
    case HandlerContributor(web, security, ssl, sources, factories) =>
      error := ContributeHandlers(web, security, ssl, sources, factories, builder);
    case SettingsContributor(settings) =>
      ContributeSettings(settings, builder);
      error := None;
  }

  /** The container's lifecycle control, which is told when the server has started. */
  class LifecycleControl {
    var serverStartedSignalled: bool
    ghost var signalledFor: Server?   // the server the signal was given for

    constructor ()
      ensures !serverStartedSignalled && signalledFor == null
    {
      serverStartedSignalled := false;
      signalledFor := null;
    }

    /** `serverStarted`: may only be signalled for a server that has already been started. */
    method ServerStarted(ghost s: Server)
      requires s.started
      modifies this
      ensures serverStartedSignalled && signalledFor == s
    {
      serverStartedSignalled := true;
      signalledFor := s;
    }
  }

  /** `WebServer`: builds the server from every contributor, then starts it. */
  class WebServer {
    var server: Server?   // unset until initialization succeeds
    const control: LifecycleControl

    constructor (control: LifecycleControl)
      ensures server == null && this.control == control
    {
      server := null;
      this.control := control;
    }

    /**
     * `onInitialize`: every contributor is applied in order to one builder; only then is the
     * server built, from the fully configured state, and started, and only after that is the
     * lifecycle control told. A failing contributor stops initialization and nothing starts.
     */
    method OnInitialize(contributors: seq<Contributor>) returns (error: Option<StartupError>)
      modifies this, control
      ensures error.Some? <==> ApplyAll(contributors, InitialState).Failed?
      ensures error.Some? ==> error.value == ApplyAll(contributors, InitialState).error
                              && server == old(server)
                              && control.serverStartedSignalled == old(control.serverStartedSignalled)
                              && control.signalledFor == old(control.signalledFor)
      ensures error.None? ==> server != null && fresh(server) && server.started
                              && server.config == ApplyAll(contributors, InitialState).state
                              && control.serverStartedSignalled && control.signalledFor == server
    {
      var builder := new Builder();
      var i := 0;
      while i < |contributors|
        invariant 0 <= i <= |contributors|
        invariant ApplyAll(contributors[..i], InitialState) == Configured(builder.State())
        invariant server == old(server) && control.serverStartedSignalled == old(control.serverStartedSignalled)
        invariant control.signalledFor == old(control.signalledFor)
      {
        assert contributors[..i + 1][..i] == contributors[..i];
        error := ContributeTo(contributors[i], builder);
        if error.Some? {
          FailureIsFinal(contributors, InitialState, i + 1);
          return error;
        }
        i := i + 1;
      }
      assert contributors[..i] == contributors;
      var s := builder.Build();
      s.Start();
      server := s;
      control.ServerStarted(s);
      return None;
    }

    /** `onShutdown`: stops the server; fails, as the unset property does, before initialization. */
    method OnShutdown() returns (ok: bool)
      modifies server
      ensures ok <==> server != null
      ensures ok ==> !server.started
    {
      if server == null {
        return false;
      }
      server.Stop();
      return true;
    }
  }
}
