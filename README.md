# Cordaptor configuration resolver and Undertow server assembly, in Dafny

This project models two parts of the Cordaptor gateway and proves properties about them.

**`config.dfy`, module `Config`.** This models `CordappConfigWithFallback`. It answers every
configuration lookup from the CorDapp configuration (the *primary*) at `pathPrefix + path`.
When the primary lacks that key, it asks a *fallback* configuration for the original,
unprefixed `path`. The primary is a flat map from full dotted keys to values, and "exists"
means "is a key of the map". The fallback is a recursive `Config`: either `Source` or another
resolver. `Source` is a plain flat-map configuration standing in for the microkernel's own
`Config`, whose source is not part of this model. Its subtree at `p` is the map of keys below
`p.`. Every accessor is a pure function, so the resolver never changes the primary or the
fallback.

The accessors are proved against an independent reference, `Flatten(c)`. This is the merged
map a configuration presents: the fallback's view, overridden by the primary's entries below
the prefix. `PathExists` and every typed getter agree with a plain lookup in that map. The
branch-by-branch behaviour of the source is stated as lemmas:
- the primary wins, and the fallback is not consulted;
- otherwise the fallback answers for the unprefixed path;
- subtrees compose with lookups;
- a subtree root absent from the primary delegates all-or-nothing.

`getSubtree` is the one accessor modelled twice. `GetSubtreeAsWritten` follows the source
exactly. `GetSubtree` is the corrected version used by the subtree-view theorem
`SubtreeView` (see Findings). The parse helpers for durations and byte sizes are `TODO()` in
the source. Here they are function parameters that the model leaves open.

**`web_server.dfy`, module `WebServer`.** This models `WebServer.kt`. `HandlerSources` holds
what the dependency container supplies: handlers, endpoint providers, endpoints, handler
factories and named security factories. `Gather` collects the context-mapped handlers in the
source's order. `ContributeHandlers` registers each handler on a `PathHandler` object in a
loop, into the exact table or the prefix table according to its flag. It then wraps the path
table in an optional security handler and an optional SSL handler, and installs the result on
a `Builder` object. The listener and settings contributors also mutate the builder.
`WebServer.OnInitialize` applies every contributor in a loop. Only after that does it build
and start the `Server` and signal the `LifecycleControl`. Each method's `ensures` ties the
builder's new state to the pure reference functions `Contribute` and `ApplyAll`. Lemmas prove what
those functions guarantee:
- each handler is registered exactly once, in order;
- the wrapping is layered Transport ⊃ Security ⊃ Router;
- there is one listener per listener contributor, and the last thread settings win;
- a failure is final;
- contributors of different kinds commute.

## Model

| member | source | states |
|---|---|---|
| `Config.TopLevel` | corda-service/src/main/kotlin/tech/b180/cordaptor/cordapp/Config.kt:12-16 | with the default empty prefix the resolver presents the fallback's whole view overridden by the primary, read unprefixed |
| `Config.PathExists` | corda-service/src/main/kotlin/tech/b180/cordaptor/cordapp/Config.kt:29-35 | a path exists iff it is a key of the merged view (primary below the prefix, over the fallback's view) |
| `Config.Get` | corda-service/src/main/kotlin/tech/b180/cordaptor/cordapp/Config.kt:47-101 | the shared getter shape equals a plain lookup of the merged view: the winning value read by the getter's reader, or the missing-path error |
| `Config.GetString` | corda-service/src/main/kotlin/tech/b180/cordaptor/cordapp/Config.kt:47-53 | succeeds iff the merged view holds a string at the path, and then returns it; missing path gives the missing error |
| `Config.GetDuration` | corda-service/src/main/kotlin/tech/b180/cordaptor/cordapp/Config.kt:55-61 | the open duration parser applied to the winning string; a non-string value is a type error; missing path gives the missing error |
| `Config.GetInt` | corda-service/src/main/kotlin/tech/b180/cordaptor/cordapp/Config.kt:63-69 | succeeds iff the winning value is a number in the 32-bit range, and then returns it |
| `Config.GetLong` | corda-service/src/main/kotlin/tech/b180/cordaptor/cordapp/Config.kt:71-77 | succeeds iff the winning value is a number in the 64-bit range, and then returns it |
| `Config.GetDouble` | corda-service/src/main/kotlin/tech/b180/cordaptor/cordapp/Config.kt:79-85 | succeeds iff the winning value is numeric, and returns it as a real |
| `Config.GetBytesSize` | corda-service/src/main/kotlin/tech/b180/cordaptor/cordapp/Config.kt:87-93 | the open byte-size parser, typed as a 64-bit `Long`, applied to the winning string; non-string is a type error; missing path gives the missing error |
| `Config.GetBoolean` | corda-service/src/main/kotlin/tech/b180/cordaptor/cordapp/Config.kt:95-101 | succeeds iff the winning value is a boolean, and then returns it |
| `Config.GetSubtreeAsWritten` | corda-service/src/main/kotlin/tech/b180/cordaptor/cordapp/Config.kt:37-45 | the source's getSubtree: where the primary has `pathPrefix + path` the result keeps the same primary with prefix `pathPrefix + path + "."`; otherwise it is exactly the fallback's subtree for the bare path; over a plain source it is the source's subtree |
| `Config.GetSubtree` | corda-service/src/main/kotlin/tech/b180/cordaptor/cordapp/Config.kt:37-45 | corrected getSubtree: same primary and extended prefix where the primary has the root; otherwise exactly the fallback's subtree for the unprefixed path |
| `Config.SubtreeView` | corda-service/src/main/kotlin/tech/b180/cordaptor/cordapp/Config.kt:37-44 | when every level has the subtree root or no primary key below it, the subtree presents exactly the part of the merged view below `path.` |
| `Config.PrimaryWins` | corda-service/src/main/kotlin/tech/b180/cordaptor/cordapp/Config.kt:29-101 | with `pathPrefix + path` in the primary the path exists, getters read exactly that key, and swapping the fallback changes nothing |
| `Config.FallbackAnswersUnprefixed` | corda-service/src/main/kotlin/tech/b180/cordaptor/cordapp/Config.kt:29-101 | without `pathPrefix + path` in the primary, pathExists and every getter equal the fallback's answer for the unprefixed path |
| `Config.ExistsIffNotMissing` | corda-service/src/main/kotlin/tech/b180/cordaptor/cordapp/Config.kt:29-53 | a path exists iff a string lookup there does not fail as missing |
| `Config.SubtreeReadsJoinedKey` | corda-service/src/main/kotlin/tech/b180/cordaptor/cordapp/Config.kt:37-53 | at the top level, when the primary has `s` and `s.q`, reading `q` in the subtree `s` reads the primary at `s.q` (both getSubtree versions) |
| `Config.SubtreeWithoutRootIgnoresPrimary` | corda-service/src/main/kotlin/tech/b180/cordaptor/cordapp/Config.kt:41-44 | a primary holding `a.b.c` but not `a.b` wins for `a.b.c` yet has no say inside the subtree `a.b` (all-or-nothing delegation) |
| `Config.AsWrittenAgreesAtTopLevel` | corda-service/src/main/kotlin/tech/b180/cordaptor/cordapp/Config.kt:37-44 | at the top level over a plain source the source's getSubtree equals the corrected one |
| `Config.SubtreeFallbackAtAnyPrefix` | corda-service/src/main/kotlin/tech/b180/cordaptor/cordapp/Config.kt:38-40 | at any prefix, over a plain fallback whose primary has the root, the corrected subtree keeps the fallback below `path.` and the source's below `pathPrefix + path + "."` |
| `Config.TwoLevelDescent` | corda-service/src/main/kotlin/tech/b180/cordaptor/cordapp/Config.kt:37-44 | two levels down, the corrected descent reads the fallback below `a.b.`, the source's below the doubled `a.a.b.` |
| `Config.NestedSubtreeMisreadsFallback` | corda-service/src/main/kotlin/tech/b180/cordaptor/cordapp/Config.kt:40 | concrete input where the source's nested subtree loses the fallback's `a.b.x` that the merged view and the corrected descent show |
| `WebServer.MapEndpoints` | rest-endpoint/src/main/kotlin/tech/b180/cordaptor/rest/WebServer.kt:178-187 | one handler per endpoint, position by position, made by the container's handler factory |
| `WebServer.ProviderHandlers` | rest-endpoint/src/main/kotlin/tech/b180/cordaptor/rest/WebServer.kt:177-184 | the provider handlers number the providers' endpoints in total |
| `WebServer.ProviderHandlersAt` | rest-endpoint/src/main/kotlin/tech/b180/cordaptor/rest/WebServer.kt:177-184 | provider k's handlers follow those of earlier providers: its operation-endpoint handlers, then its query-endpoint handlers |
| `WebServer.Gather` | rest-endpoint/src/main/kotlin/tech/b180/cordaptor/rest/WebServer.kt:173-187 | the gathered list is as long as the four sources together |
| `WebServer.GatherLayout` | rest-endpoint/src/main/kotlin/tech/b180/cordaptor/rest/WebServer.kt:173-187 | the gathered list is, segment after segment: the direct handlers, the provider handlers, the handlers of the direct query endpoints, then those of the direct operation endpoints |
| `WebServer.Registrations` | rest-endpoint/src/main/kotlin/tech/b180/cordaptor/rest/WebServer.kt:191-200 | every entry of the exact (prefix) table comes from a handler whose flag is set (clear), under that handler's own path |
| `WebServer.RegistrationsAppend` | rest-endpoint/src/main/kotlin/tech/b180/cordaptor/rest/WebServer.kt:191-200 | registrations follow list order: those of a concatenation are the first part's followed by the second's |
| `WebServer.HandlersOfStep` | rest-endpoint/src/main/kotlin/tech/b180/cordaptor/rest/WebServer.kt:191-200 | one more handler is added to exactly the table its flag selects and the other table is unchanged |
| `WebServer.RegisteredExactlyOnce` | rest-endpoint/src/main/kotlin/tech/b180/cordaptor/rest/WebServer.kt:191-200 | across both tables the registered handlers are exactly the gathered ones, each as often as it was gathered |
| `WebServer.SelectFactory` | rest-endpoint/src/main/kotlin/tech/b180/cordaptor/rest/WebServer.kt:163-170 | a factory is used iff the name differs from the none configuration and is defined; an undefined name is an error |
| `WebServer.RootHandler` | rest-endpoint/src/main/kotlin/tech/b180/cordaptor/rest/WebServer.kt:202-214 | layers are Transport (iff secure), then Security (iff a factory), then Router; the path table is innermost; the security handler wraps it directly; otherwise it is the bare table; when secure the outermost layer is made by the contributor's own SSL configurator |
| `WebServer.ListenerFor` | rest-endpoint/src/main/kotlin/tech/b180/cordaptor/rest/WebServer.kt:137-144 | the listener is at the bind address's port and host and is HTTPS with the configurator's context iff secure; no context when secure is a failure |
| `WebServer.PathTableFor` | rest-endpoint/src/main/kotlin/tech/b180/cordaptor/rest/WebServer.kt:189-200 | a path-table handler whose exact and prefix tables together register every handler of the list, each as often as it occurs |
| `WebServer.FailureIsFinal` | rest-endpoint/src/main/kotlin/tech/b180/cordaptor/rest/WebServer.kt:248-252 | once a contributor fails, configuration ends with that failure |
| `WebServer.ListenersAdded` | rest-endpoint/src/main/kotlin/tech/b180/cordaptor/rest/WebServer.kt:137-144 | after successful configuration the listeners are the initial ones plus one per listener contributor, in order |
| `WebServer.LastSettingsWin` | rest-endpoint/src/main/kotlin/tech/b180/cordaptor/rest/WebServer.kt:226-229 | the io and worker thread counts are those of the last settings contributor, or unchanged when there is none |
| `WebServer.ContributorsCommute` | rest-endpoint/src/main/kotlin/tech/b180/cordaptor/rest/WebServer.kt:248-252 | two contributors of different kinds give the same successful configuration in either order |
| `WebServer.PathHandler.constructor` | rest-endpoint/src/main/kotlin/tech/b180/cordaptor/rest/WebServer.kt:189 | a new path handler has no registrations |
| `WebServer.PathHandler.AddExactPath` | rest-endpoint/src/main/kotlin/tech/b180/cordaptor/rest/WebServer.kt:195 | appends one exact-path registration and leaves the prefix table alone |
| `WebServer.PathHandler.AddPrefixPath` | rest-endpoint/src/main/kotlin/tech/b180/cordaptor/rest/WebServer.kt:198 | appends one prefix-path registration and leaves the exact table alone |
| `WebServer.Builder.constructor` | rest-endpoint/src/main/kotlin/tech/b180/cordaptor/rest/WebServer.kt:246 | a new builder has nothing configured |
| `WebServer.Builder.AddHttpListener` | rest-endpoint/src/main/kotlin/tech/b180/cordaptor/rest/WebServer.kt:142 | appends one HTTP listener, nothing else changes |
| `WebServer.Builder.AddHttpsListener` | rest-endpoint/src/main/kotlin/tech/b180/cordaptor/rest/WebServer.kt:140 | appends one HTTPS listener with the SSL context, nothing else changes |
| `WebServer.Builder.SetHandler` | rest-endpoint/src/main/kotlin/tech/b180/cordaptor/rest/WebServer.kt:214 | sets the root handler, nothing else changes |
| `WebServer.Builder.SetIoThreads` | rest-endpoint/src/main/kotlin/tech/b180/cordaptor/rest/WebServer.kt:227 | sets the io thread count, nothing else changes |
| `WebServer.Builder.SetWorkerThreads` | rest-endpoint/src/main/kotlin/tech/b180/cordaptor/rest/WebServer.kt:228 | sets the worker thread count, nothing else changes |
| `WebServer.Builder.Build` | rest-endpoint/src/main/kotlin/tech/b180/cordaptor/rest/WebServer.kt:254 | a fresh, not yet started server carrying the builder's configuration |
| `WebServer.Server.constructor` | rest-endpoint/src/main/kotlin/tech/b180/cordaptor/rest/WebServer.kt:254 | a server with the given configuration, not started |
| `WebServer.Server.Start` | rest-endpoint/src/main/kotlin/tech/b180/cordaptor/rest/WebServer.kt:255 | the server is started |
| `WebServer.Server.Stop` | rest-endpoint/src/main/kotlin/tech/b180/cordaptor/rest/WebServer.kt:262 | the server is stopped |
| `WebServer.ContributeListener` | rest-endpoint/src/main/kotlin/tech/b180/cordaptor/rest/WebServer.kt:137-144 | adds exactly the listener `ListenerFor` gives; when the SSL context cannot be made it fails and changes nothing |
| `WebServer.ContributeHandlers` | rest-endpoint/src/main/kotlin/tech/b180/cordaptor/rest/WebServer.kt:161-215 | installs the root handler built from the registrations of the gathered list, the chosen factory and the secure flag, changing nothing else; an undefined factory name fails and changes nothing |
| `WebServer.RegisterAll` | rest-endpoint/src/main/kotlin/tech/b180/cordaptor/rest/WebServer.kt:189-200 | a new path handler whose exact and prefix tables hold exactly the registrations of the handler list, in order |
| `WebServer.ContributeSettings` | rest-endpoint/src/main/kotlin/tech/b180/cordaptor/rest/WebServer.kt:226-229 | sets the io and worker thread counts to the configured values and changes nothing else |
| `WebServer.ContributeTo` | rest-endpoint/src/main/kotlin/tech/b180/cordaptor/rest/WebServer.kt:37 | applying a contributor to the builder does what `Contribute` describes, including its failure |
| `WebServer.LifecycleControl.constructor` | rest-endpoint/src/main/kotlin/tech/b180/cordaptor/rest/WebServer.kt:243 | the control starts unsignalled |
| `WebServer.LifecycleControl.ServerStarted` | rest-endpoint/src/main/kotlin/tech/b180/cordaptor/rest/WebServer.kt:258 | records the server-started signal and the server it was given for; it may only be given for a server that has already been started |
| `WebServer.WebServer.constructor` | rest-endpoint/src/main/kotlin/tech/b180/cordaptor/rest/WebServer.kt:236-243 | no server before initialization |
| `WebServer.WebServer.OnInitialize` | rest-endpoint/src/main/kotlin/tech/b180/cordaptor/rest/WebServer.kt:245-259 | succeeds iff every contributor applies; then a fresh server built from the fully configured state is started, and the control is signalled for that server only after it was started; on failure, the first error, no server and no signal |
| `WebServer.WebServer.OnShutdown` | rest-endpoint/src/main/kotlin/tech/b180/cordaptor/rest/WebServer.kt:261-263 | stops the server; fails when there is no server yet |

## Findings

| source | as written | input that shows it | evidently intended | confidence | as-written member | corrected member |
|---|---|---|---|---|---|---|
| corda-service/src/main/kotlin/tech/b180/cordaptor/cordapp/Config.kt:40 | when the primary has the subtree root, the fallback is descended by `prefixedPath`, even though a nested resolver's fallback is already the subtree at the old prefix | primary `{a: object, a.b: object}` and fallback `{a.b.x: "f"}`: `getSubtree("a").getSubtree("b").getString("x")` is a missing-path error, though the merged view has `"f"` at `a.b.x` | descend the fallback by the unprefixed `path`, as the else branch on line 43 does; then the subtree presents the part of the merged view below the path (`Config.SubtreeView`) | medium, not executed | `Config.NestedSubtreeMisreadsFallback` | `Config.GetSubtree` |

At the top level (empty prefix) the two versions coincide over a plain source
(`Config.AsWrittenAgreesAtTopLevel`). The difference appears only from the second nesting
level down.

## Left out

- The microkernel `Config` used as fallback is not part of this model. `Config.Source` stands in for it. It is a flat map whose subtree at `p` is the map of keys below `p.`, and it reads durations and byte sizes with the same open parsers.
- The conversions of the underlying configuration library are not modelled, for example reading a number through `getString`. A value of the wrong kind gives `WrongType`. An out-of-range number read as an int or a long also gives `WrongType`.
- `parseDuration` and `parseBytesSize` are `TODO()` in the source, so every call throws. They are function parameters here, left unconstrained.
- Config.GetDouble: it returns a mathematical real. There is no floating-point rounding.
- `DefaultSSLConfigurator` is not modelled: key store and trust store loading, the key and trust manager factories, `SSLContext.getInstance` and secret handling are foreign cryptographic calls and file I/O. `SslConfigurator` is a value. Its SSL context is either present or missing, and missing stands for any failure to create it. `createSSLHandler` is the constructor `SslWrapped`.
- Undertow's path matching is not modelled: which registered entry serves a request, and the replacement of an earlier entry registered under the same path. The path handler is the ordered log of its registrations.
- The container lookups (`get`, `getAll`, `named`, `parametersOf`) are not modelled; they are inputs here. A failing handler factory lookup is not modelled. A missing named security factory is modelled as `SecurityFactoryNotDefined`.
- The value of `SECURITY_CONFIGURATION_NONE` is defined in the microkernel, which is not part of this model. `SecurityConfigurationNone` is a stand-in value, and no proof depends on which value it is.
- The default thread counts are Undertow's, shown as an unset option. They are not modelled.
- Logging, the real network start and stop, thread pools and concurrency are not modelled. `Server.Start`/`Stop` only record a flag.
- rest-endpoint/src/main/kotlin/tech/b180/cordaptor/rest/JettyServer.kt is not modelled: it hands handlers to Jetty's routing and starts Jetty.
- rest-endpoint/src/main/kotlin/tech/b180/cordaptor/rest/ApiDefinitionHandler.kt is not modelled: its handler body is `TODO()`.
- corda-common/src/main/kotlin/tech/b180/cordaptor/corda/CordaNodeCatalog.kt holds data declarations only.
- rest-endpoint/src/test/kotlin/tech/b180/cordaptor/rest/CordaTypesTest.kt concerns JSON serializers, which are not part of this model.
