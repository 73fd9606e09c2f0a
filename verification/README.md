# Verification of the game server ingress controller

The controller watches Agones game servers. For each one whose annotations ask for it, it makes a
headless Service and either an Ingress or a Gateway API HTTPRoute, and then writes
`octops.io/ingress-ready=true` on the game server. This project models that in Dafny and proves what it
promises. `dafny verify dfyconfig.toml` checks everything.

There are two halves.

**The builders.** Every option of the three object builders is given twice: as a function on values, and
as a method that mutates an object under construction, loop by loop, proved to compute that function
(`IngressBuilder`, `RouteBuilder`, `ServiceBuilder`, `CustomAnnotations`). `IngressPipeline` proves when
the Ingress pipeline succeeds, what it yields and which of its orders matter. `Routing` gives Ingress and
HTTPRoute one meaning, which requests reach which Service port, and proves the two backends equivalent
exactly when they are, and different game servers isolated from each other.
`Promises` says when each object is built and what is in it, and what a pass leaves behind, in words of the
annotations, ports and state alone, without the functions that the builders and the handler read them with.

**The protocol.** `Protocol` is a state machine: one API server, any number of controller processes with
informer caches that lag behind it, any number of passes of the handler in flight, outside parties that
write game servers and create objects, and calls that are refused, lost, or whose reply is lost.
`Step` is total and every action is one atomic call, so a run is any list of actions and each theorem
about `Run` is about every interleaving. What the reconcilers build is a parameter of the protocol;
`ControllerBuilders` supplies the builders above. `Invariant` proves what every step keeps. `Safety`,
`PassLogs`, `Convergence`, `Contention` and `Measure` prove what follows over whole runs, `Readiness`,
`Panics` and `Creations` prove exactly when three promises fail, and `EndToEnd` says what it all means for
the controller's own builders and routes.

`Cluster` and `Handler` tie the code to the protocol. `Handler` has the reconcilers and the event handler
as classes, in the shape of the Go code; `Cluster.World` is what they call, and between any two calls it
lets everybody else act. The contracts say that each execution of the handler is a run of the protocol in
which the pass ends as the code does, with the events the code recorded.

What the model takes from outside:

- Go's text/template is a pair of unknown functions: does a text parse, and what does executing it leave
  (possibly nothing, possibly a part). Iteration over Go maps is in an arbitrary order.
- The number of steps of the conflict backoff is a parameter (`retries`; 5 in `retry.DefaultRetry`).
- An absent annotation map and an empty one are one value. Writing the ready key into the absent map of a
  re-read copy panics in Go (pkg/reconcilers/gameserver_reconciler.go:55); the model ends the pass with the
  outcome `Panicked`, so nothing is assumed about that copy, and `Panics` says exactly when it happens.
- An event may carry any past version of a game server, be delivered to any process at any time, and be
  delivered more than once; a cache may lag by any amount. The theorems that say that some continuation
  exists rest on that.
- An update that carries the current version but changes nothing succeeds without making a version, as the
  API server has it.
- `Config.gatewayEnabled` is the set of processes that were started with the Gateway API backend.
- `HostMatch` is how a router compares hosts. `BackendsAgree` takes one comparison for each backend, which
  must agree on the hosts at hand. `IngressHost` and `GatewayHost` are the real ones: a wildcard stands for
  one label in an Ingress and for any number in an HTTPRoute, so with a wildcard host the backends differ
  (`Routing.WildcardsAgreeExactly`, `Routing.WildcardSampleDiffers`). Isolation and overlap are stated for
  any comparisons and for these; the exact results about white space compare hosts by equality.
- Paths match element by element, as in the Kubernetes networking.k8s.io/v1 Ingress documentation, section
  "Path types" (`Prefix`), and the Gateway API v1 specification of HTTPRoute, `PathMatchType` `PathPrefix`.
- `WellNamed` is what Kubernetes already demands of the name of a Service: no dot, slash or white space.

Where the code and its words disagree, the model follows the code:

- Lists are documented as comma separated (README.md:282-284). The Ingress trims the whole host
  `name.entry`, the HTTPRoute trims the entry. In domain mode the two backends therefore differ on a list
  such as `a, b`: a request for `gs.b` is routed by the HTTPRoute only. `Routing.BackendsAgreeExactly` gives
  the exact condition over all requests a client can make, `Routing.SpacedBackendsDiffer` and
  `Routing.SpacedSampleDiffers` the concrete case. In domain mode the host of a TLS block is not trimmed at
  all (`Routing.TLSMatchesRules`, with `Routing.TLSSampleDiffers` as the concrete case).
- The issuer annotation is documented as required when TLS terminates and cert-manager provisions
  (README.md:377). The code adds the issuer option only when an issuer is named, so it never fails for
  want of one (`IngressPipeline.IssuerIsOptional`).
- The event `Created` is also recorded when the object was already there
  (pkg/reconcilers/ingress_reconciler.go:72-81): `Creations.CreatedByAnother` is such a run,
  `Creations.CreateCallExactly` says when a call makes the object and when it records the event, and
  `Creations.RecordsExactly` lifts that to runs. What holds is that the object exists
  (`PassLogs.TruthfulEvents`).
- The ready key does not name a backend. If the backend annotation never changes and nobody outside
  introduces a true value, every ready version has its Service and its own route
  (`Readiness.ReadyMeansRouted`). If it changes while a pass is on its way, the pass can mark a version
  whose route does not exist: `Readiness.SwitchedBackendMisleads` and `EndToEnd.SampleMisleads` are such
  runs, and `Readiness.MisleadsExactly` says from which states there are any.
- The handler reads a copy of the game server from a cache that may be behind the event. A version without
  annotations in that cache panics the pass: `Panics.PanicsExactly`, `Panics.CanPanicExactly` and the run
  `EndToEnd.SamplePanics`.
- The comment that the order of options matters (pkg/reconcilers/ingress_options.go:247) is right, and
  `IngressPipeline.Confluence` and `IngressPipeline.ClassNameFirstIsWrong` say how far.

## Model

| member | source | states |
|---|---|---|
| Safety.ReadyImpliesRouted | pkg/handlers/gameserver_handler.go:89-118 | In every interleaving, whenever a pass writes the ready key the server already holds the Service and the kind of route its event asks for, and holds them in every later state |
| Safety.WriterIsRouted | pkg/handlers/gameserver_handler.go:94-118 | In any sound state, the update about to be accepted belongs to a pass whose Service and route are there, and makes the current version ready |
| Safety.NoLostUpdates | pkg/reconcilers/gameserver_reconciler.go:48-63 | However stale the caches, every controller version is its predecessor with the ready key set, so all other fields equal the last outside write |
| Safety.LastExternalAgrees | pkg/reconcilers/gameserver_reconciler.go:54-57 | The same for any sound server, by induction over the history: besides the ready key nothing differs from the last outside write |
| Safety.FirstWriterWins | pkg/reconcilers/ingress_reconciler.go:72-82 | Services, Ingresses and HTTPRoutes are never changed or removed by any continuation of a run, and histories only grow |
| Safety.AtMostOneCreate | pkg/reconcilers/service_reconciler.go:62-72 | No run creates the Service, the Ingress or the HTTPRoute of a key twice |
| Safety.BackendExclusive | pkg/handlers/gameserver_handler.go:94-113 | With an unchanging backend annotation and nobody else making routes, no run holds both kinds of route for a key |
| Safety.StepPassKeepsRoutesOurs | pkg/handlers/gameserver_handler.go:95-109 | Whatever route a pass adds under a key, the controller is recorded as its maker |
| Safety.DisabledGatewayDoesNothing | pkg/handlers/gameserver_handler.go:96-103 | With the gateway disabled, a game server that asks for it gets no Ingress, no HTTPRoute and no controller write in any run |
| Safety.UnparseableStays | pkg/reconcilers/gameserver_reconciler.go:32-36 | If outside parties only write ready values that do not parse, the controller never writes that game server in any run |
| Invariant.StepGetServiceKeeps | pkg/reconcilers/service_reconciler.go:34-60 | A pass that goes on from the Service cache has its Service on the server, or one it can build |
| Invariant.StepCreateServiceKeeps | pkg/reconcilers/service_reconciler.go:62-73 | After the create call, AlreadyExists and lost replies included, what is stored is sound and a pass that goes on has its Service |
| Invariant.StepGetRouteKeeps | pkg/handlers/gameserver_handler.go:94-113 | A pass that goes on from the route cache has the route of its backend, or one it can build and, for the gateway, an enabled process |
| Invariant.StepCreateRouteKeeps | pkg/reconcilers/gateway_reconciler.go:65-82 | After the create call what is stored was built from its writer's event for that event's backend, and a pass that goes on has its route |
| Invariant.StepDecideKeeps | pkg/reconcilers/gameserver_reconciler.go:32-43 | A pass enters the update loop only with its route in place and a ready value that asks for the write |
| Invariant.StepReadKeeps | pkg/reconcilers/gameserver_reconciler.go:49-55 | The copy that is read back is a past version of the game server |
| Invariant.StepUpdateKeeps | pkg/reconcilers/gameserver_reconciler.go:54-63 | An accepted update appends a sound version; a refused one changes nothing; the pass stays sound |
| Invariant.StepKeeps | pkg/handlers/gameserver_handler.go:68-129 | Every action of anyone keeps the invariant of server, caches and passes, and the server only grows |
| Invariant.RunKeeps | pkg/handlers/gameserver_handler.go:68-129 | So does every run |
| Invariant.PassesAfterStep | pkg/handlers/gameserver_handler.go:41-59 | After a step a pass is what it was, or was just delivered with a version of its game server, or took the step itself |
| PassLogs.TruthfulEvents | pkg/reconcilers/gateway_reconciler.go:46-82 | In every run a pass's events for a kind are nothing, or Creating, the gateway's zero to two warnings, and one of Created and Failed (which is still to come only at the create call); what was reported Created is on the server |
| PassLogs.StartRouteLogs | pkg/reconcilers/gateway_reconciler.go:47-54 | The start of a route records Creating and exactly the warnings for the TLS annotations present, for its own kind only |
| PassLogs.StepKeepsEvents | pkg/reconcilers/ingress_reconciler.go:47-82 | Every step of a pass keeps its logs in that form |
| PassLogs.StepKeepsCreated | pkg/reconcilers/ingress_reconciler.go:72-81 | Created is recorded only when the server holds the object, also when somebody else made it |
| Creations.CreateCallExactly | pkg/reconcilers/service_reconciler.go:62-72 | A create call changes the server if and only if it arrives and the key is free; it records Created if and only if it does not fail, and Failed otherwise |
| Creations.RecordsExactly | pkg/reconcilers/gateway_reconciler.go:71-81 | In every run a pass has recorded Created for a kind if and only if one of its create calls for it did not fail |
| Creations.CreatedByAnother | pkg/reconcilers/service_reconciler.go:62-72 | A run from the empty cluster: the pass records Creating and Created while the Service is another's |
| EndToEnd.SampleCreatedByAnother | pkg/reconcilers/service_reconciler.go:62-72 | Such a run for a concrete game server and the controller's own builders |
| PassLogs.LogsListEvents | pkg/record/recorder.go:35-57 | A reason in the log of a kind was recorded as an event of that kind |
| PassLogs.StepKeepsAttempts | pkg/reconcilers/gameserver_reconciler.go:48-63 | Attempts plus remaining steps is the retry bound, and only conflicts are retried |
| PassLogs.RetryExactly | pkg/reconcilers/gameserver_reconciler.go:45-67 | A pass makes at most `retries` update calls, all but the last conflicts; it succeeds if and only if one call carried the current version and got its reply, returns the conflict if and only if all `retries` were conflicts, and panics only after fewer, all conflicts |
| PassLogs.SuccessIsWritten | pkg/reconcilers/gameserver_reconciler.go:45-72 | In every run a pass that set out to write the ready key and succeeded either carried a version that was marked already, or the version after the one it carried is its own, the same marked ready |
| PassLogs.AttemptIsTruthful | pkg/reconcilers/gameserver_reconciler.go:57-60 | What an attempt records is what happened: the server changes if and only if the copy is current, not marked yet, and the call arrives, and then appends exactly that copy marked ready |
| Convergence.StepLowersRank | pkg/reconcilers/gameserver_reconciler.go:48-63 | Every call of an unfinished pass lowers a bound on the calls it still makes |
| Convergence.PassesEnd | pkg/handlers/gameserver_handler.go:68-129 | In every run a pass given as many calls as its rank (at most 2 retries + 7) is finished |
| Convergence.ServicePhase | pkg/handlers/gameserver_handler.go:89-92 | Alone, on any cache, a pass gets to the route with its Service on the server |
| Convergence.RoutePhase | pkg/handlers/gameserver_handler.go:94-113 | From there to the ready decision with the route of its backend, without touching the other kind |
| Convergence.ReadyPhase | pkg/handlers/gameserver_handler.go:115-118 | From there to its end: exactly the current version marked ready is appended if the event's value is absent, empty or false, nothing if true, an error and nothing if it does not parse |
| Convergence.DriveIsRun | pkg/handlers/gameserver_handler.go:68-129 | Running a pass alone to its end is a run of the protocol, of at most its rank |
| Convergence.Converges | pkg/handlers/gameserver_handler.go:68-129 | One undisturbed pass with the current version in its cache, however far behind the other caches are, and buildable objects ends with Service, selected route and settled ready key, also for unparseable values |
| Contention.ConvergesAmongOthers | pkg/manager/manager.go:35-46 | A pass whose own calls do not fail, given as many as its rank, leaves its game server settled in every run without outside writes to it, whatever overlapping passes, caches and faults do, and whoever makes it so |
| Contention.RunKeepsBound | pkg/reconcilers/gameserver_reconciler.go:48-63 | Such a run keeps the invariant behind that: only the controller writes, the copy is not older than the event, and a finished pass leaves the game server settled |
| Contention.UpdateKeepsUnderway | pkg/reconcilers/gameserver_reconciler.go:57-63 | After an update, success and the last conflict alike mean that the current version is marked and routed |
| Contention.UpToDateIsBound | pkg/handlers/gameserver_handler.go:89-118 | A pass for the current version with that version in its cache is in the scope of it |
| Convergence.OnlyMarked | pkg/reconcilers/gameserver_reconciler.go:54-57 | In a run without outside writes to a game server every new version is its predecessor marked ready |
| Convergence.Recovers | pkg/handlers/gameserver_handler.go:68-129 | From every sound state whose current version is eligible and parses, and whose Service and route a process has seen or can build, some continuation without outsiders settles the game server |
| EndToEnd.WellAnnotatedRecovers | pkg/handlers/gameserver_handler.go:68-129 | The same with the controller's builders and the condition stated on the annotations |
| EndToEnd.WellAnnotatedConverges | pkg/handlers/gameserver_handler.go:68-129 | With the controller's builders, such a pass converges whenever the annotations allow both objects to be built |
| ControllerBuilders.BuildsExactly | pkg/reconcilers/gateway_reconciler.go:58-69 | The Service and the route of a game server can both be built if and only if its annotations satisfy one listed condition |
| Convergence.StaysConverged | pkg/handlers/gameserver_handler.go:68-129 | After one such pass for the current version, and any run without outside writes to that game server, a new pass on synced caches never changes the server in any continuation |
| Convergence.RunKeepsSettled | pkg/reconcilers/gameserver_reconciler.go:54-57 | A settled game server stays settled under any other passes and faults: controller writes keep its backend and its readiness |
| Readiness.ReadyMeansRouted | pkg/handlers/gameserver_handler.go:89-118 | In every run with an unchanging backend annotation and no true ready value introduced from outside, every ready version has its Service and the route of its own backend |
| Readiness.MisleadsExactly | pkg/handlers/gameserver_handler.go:95-118 | From any sound state, some continuation without outside writes to the game server leaves it ready without its Service or route if and only if it is so already, or its current version is not ready, has annotations and no route, and a version of it that can be handled asked for the other backend and for the ready key |
| Readiness.MisledByStaleBackend | pkg/reconcilers/gameserver_reconciler.go:54-57 | The passes alone make the ready key mislead only through such a version |
| Readiness.StaleBackendMisleads | pkg/handlers/gameserver_handler.go:95-118 | Handling such a version, undisturbed, does |
| Readiness.SwitchedBackendMisleads | pkg/handlers/gameserver_handler.go:95-118 | A run from the empty cluster: the backend changes while a pass is on its way, and the current version ends ready, asking for the gateway, with no HTTPRoute |
| EndToEnd.SampleMisleads | pkg/handlers/gameserver_handler.go:95-118 | Such a run for a concrete game server and the controller's own builders |
| Panics.StepPassPanicsExactly | pkg/reconcilers/gameserver_reconciler.go:49-55 | A call panics a pass if and only if it is its read, does not fail, and the cached copy has no annotations |
| Panics.PanicsExactly | pkg/reconcilers/gameserver_reconciler.go:54-55 | In every run a pass has panicked if and only if at some moment it made such a read |
| Panics.PanicNeedsBare | pkg/reconcilers/gameserver_reconciler.go:54-55 | In every run a pass panics only if some version of its game server has no annotations |
| Panics.CanPanicExactly | pkg/reconcilers/gameserver_reconciler.go:48-55 | From any sound state some continuation without outside writes to the game server panics a new pass if and only if there is a version without annotations that a process may still read and an eligible version whose ready key that process would write |
| Panics.LateAnnotationsPanic | pkg/reconcilers/gameserver_reconciler.go:54-55 | A run from the empty cluster: annotations come after creation, the cache is behind the event, and the pass panics |
| EndToEnd.SamplePanics | pkg/reconcilers/gameserver_reconciler.go:54-55 | Such a run for a concrete game server and the controller's own builders |
| Convergence.QuietStep | pkg/reconcilers/ingress_reconciler.go:33-45 | A pass whose Service and route are cached and whose event asks for no ready write stays so under every action, and its calls leave the server alone |
| Convergence.QuietRun | pkg/reconcilers/service_reconciler.go:34-46 | Over any run none of its calls changes the server |
| Convergence.SettledIsQuiet | pkg/reconcilers/gameserver_reconciler.go:38-40 | A pass delivered for the current version of a settled game server to a synced process is such a pass |
| Measure.MissingStep | pkg/handlers/gameserver_handler.go:89-118 | A step that leaves the ready key to the controller lowers the number of missing things (Service, route, readiness) by one if it is an effective write, told from the call and the server alone, and leaves it alone otherwise |
| Measure.UpdateMakesReady | pkg/reconcilers/gameserver_reconciler.go:54-57 | After an update call the game server is unready if and only if it was and the call was not accepted for it |
| Measure.MissingRun | pkg/handlers/gameserver_handler.go:89-118 | Over any run in which nobody outside changes the ready key, with any caches and faults, what is missing at the end plus the effective writes of the passes plus those of outsiders is what was missing at the start, at most three |
| EndToEnd.StoredIsBuilt | pkg/reconcilers/ingress_reconciler.go:66-82 | In any run what the controller stored was built from an eligible version of that game server, for that version's backend |
| EndToEnd.WiringAgrees | pkg/reconcilers/service_reconciler.go:75-111 | A request a stored route accepts goes to the stored Service, whoever made the two, at the first status port of the route's event, and to a port the Service has if and only if the two events agree on it |
| EndToEnd.IsolationInEveryRun | pkg/reconcilers/ingress_options.go:191-208 | In any run, routes stored for two differently named game servers of one mode never accept the same request, with hosts compared by equality, and as they really are in path mode or when neither name is `*` |
| Routing.BackendsAgree | pkg/reconcilers/gateway_options.go:58-102 | The Ingress and the HTTPRoute of a game server send the same requests to the same place, under any two host comparisons that agree on its hosts, in path mode always and in domain mode when every entry has `TrimRight == TrimSpace` |
| Routing.WildcardsAgreeExactly | pkg/reconcilers/gateway_options.go:67-82 | In those same cases, under the real comparisons of the two backends, they do if and only if no host is a wildcard |
| Routing.WildcardSampleDiffers | pkg/reconcilers/gateway_options.go:67-70 | A concrete game server in path mode under `*.a.io` whose two objects are built and differ |
| Routing.BackendsAgreeExactly | pkg/reconcilers/gateway_options.go:80-83 | Over all requests whose host has no white space they agree, in domain mode, if and only if every entry that trims to a host name has an entry that the right trim alone brings to it |
| Routing.HostsAgreeAt | pkg/reconcilers/ingress_options.go:204-208 | The same entry by entry: the i-th hosts agree if and only if that holds of the i-th entry |
| Routing.UncoveredEntryDiffers | pkg/reconcilers/gateway_options.go:80-82 | For an entry without one, the request for the trimmed host is accepted by the HTTPRoute and not by the Ingress |
| Routing.SpacedBackendsDiffer | pkg/reconcilers/ingress_options.go:204-206 | With the list `a, b` in domain mode a request for `name.b` is accepted by the HTTPRoute and not by the Ingress, whatever the rest of the game server |
| Routing.SpacedSampleDiffers | pkg/reconcilers/gateway_options.go:80-82 | A concrete game server with that list whose two objects are built and differ on a request without white space |
| Routing.SampleBuilds | pkg/reconcilers/ingress_reconciler.go:47-70 | Both objects are built for a concrete game server with any non-empty host list |
| Routing.DomainsOfBuilt | pkg/reconcilers/ingress_options.go:204-207 | In domain mode `name.d` is a host exactly if some entry trims to d, on the right (Ingress) or on both sides (HTTPRoute) |
| Routing.SendsExactly | pkg/reconcilers/ingress_options.go:254-276 | A built route of either kind accepts exactly its hosts and the game server's path, and sends to the game server's Service at `statusPorts[0].port`, or port 0 without status ports |
| Routing.HostsOfBuilt | pkg/reconcilers/ingress_options.go:204-207 | The host for each entry, in order: trimmed in path mode; in domain mode the name, a dot, and the entry trimmed on the right (Ingress) or on both sides (HTTPRoute) |
| Routing.HostListConserved | pkg/reconcilers/gateway_options.go:67-82 | One rule, TLS block and hostname per entry, commas plus one; entries hold no comma and join to the annotation |
| Routing.MatchNamesGameServer | pkg/reconcilers/ingress_options.go:192-206 | An accepted request carries the name: first path element in path mode under any comparison of hosts, first label of its host in domain mode |
| Routing.Isolation | pkg/reconcilers/ingress_options.go:191-208 | Routes of differently named game servers in one mode never accept the same request, for any backends and host lists; in path mode under any comparisons of hosts, in domain mode under such as accept only equal hosts |
| Routing.IsolationAsMatched | pkg/reconcilers/ingress_options.go:191-208 | The same under the real comparisons, wildcards included, in domain mode for names other than `*` |
| Routing.OverlapExactly | pkg/reconcilers/gateway_options.go:89-102 | For any modes and any comparisons of hosts, two routes accept a common request if and only if they share a host and, when both are in path mode, have the same name |
| Routing.OverlapByEquality | pkg/reconcilers/gateway_options.go:80-82 | With equal hosts, sharing means a common host, which in domain mode means the same name |
| Routing.TLSMatchesRules | pkg/reconcilers/ingress_options.go:98-146 | TLS blocks and rules have equal number and order, one host and the named or generated secret each; the hosts are equal in path mode, and in domain mode if and only if the entry has no trailing space |
| Routing.TLSSampleDiffers | pkg/reconcilers/ingress_options.go:112-115 | A concrete game server with the entry `a ` in domain mode: its Ingress is built, and its one TLS block is for another host than its one rule |
| Routing.SecretNames | pkg/reconcilers/ingress_options.go:104-118 | Generated secret names have no dot and the length of `entry-name-tls`, and two entries share one if and only if they are equal with dots as dashes |
| Routing.BuildHTTPRouteExactly | pkg/reconcilers/gateway_reconciler.go:56-69 | When an HTTPRoute is built and all its fields, in terms of the annotations |
| Routing.GatewayIgnoresTLS | pkg/reconcilers/gateway_reconciler.go:49-54 | Game servers that differ only in TLS annotations get the same HTTPRoute |
| Routing.BuildServiceExactly | pkg/reconcilers/service_reconciler.go:75-111 | When a Service is built: its labels, headless, for its pod, the forwarded annotations, and one port, from the first status port to the first container port (0 where there is none) |
| Routing.BothPassesExactly | pkg/reconcilers/service_options.go:14-72 | The two annotation passes name by name: rendered if `{{` and `}}` occur in the value and it renders, on the name and the first status port, to something; raw otherwise; nothing else |
| Promises.IngressBuiltExactly | pkg/reconcilers/ingress_options.go:76-216 | The Ingress is built if and only if no annotation is the bare prefix and every prefixed value with both braces parses, the mode is domain (also by default) or path with its host list not empty, TLS is absent, empty, spelt false, or spelt true with a secret that is not empty if named, and the class chosen is not empty |
| Promises.RouteBuiltExactly | pkg/reconcilers/gateway_options.go:16-87 | The HTTPRoute is built if and only if the same holds of templates and hosts and a gateway name is given |
| Promises.ServiceBuiltExactly | pkg/reconcilers/service_options.go:14-72 | The Service is built if and only if its own templates are in order |
| Promises.ClassOfIngress | pkg/gameserver/gameserver.go:118-128 | A built Ingress has the class of `octops.io/ingress-class-name` if that is there, whatever the legacy annotation holds, else that of the legacy one; with neither, or an empty one so chosen, there is no Ingress |
| Promises.IngressRuleAt | pkg/reconcilers/ingress_options.go:170-216 | The i-th rule of a built Ingress: host, path, Service and port from the i-th entry of the list its mode reads, the name and the first status port |
| Promises.IngressTLSAt | pkg/reconcilers/ingress_options.go:76-168 | No TLS block unless the value spells true; then the i-th block has the host of the i-th entry and the named secret, or entry, dash, name and `-tls` with dots as dashes |
| Promises.RouteAt | pkg/reconcilers/gateway_options.go:42-106 | The i-th hostname of a built HTTPRoute, and its one rule with one path and one backend |
| Promises.ParentOfRoute | pkg/reconcilers/gateway_options.go:16-40 | Its one parent: the gateway named, with namespace and section exactly where those annotations are not empty |
| Promises.TemplatesAreRendered | pkg/reconcilers/gateway_options.go:125-163 | On all three objects a forwarded value with `{{` at any index and `}}` at any index comes out rendered on name and first status port, if that is not empty |
| Promises.WebsocketRoutesAreRendered | README.md:109-109 | The README's own annotation, `/{{ .Name }}` for `projectcontour.io/websocket-routes`, is on the Ingress as what it renders to |
| Promises.FirstPortCounts | pkg/gameserver/gameserver.go:55-61 | With status ports, every accepted request goes to the first one, and the Service exposes it |
| Promises.TwoPortsSendToTheFirst | pkg/gameserver/gameserver.go:55-61 | A concrete game server with the ports 7437 and 7000: both routes are built and every request goes to 7437 |
| Promises.ConvergesAsAsked | pkg/handlers/gameserver_handler.go:89-118 | An undisturbed pass in words of the event's annotations: the Service, the HTTPRoute for the backend `gateway` and the Ingress for any other or none, and for a ready value that is absent, empty or spells false the value `true` on the current version; for one that spells true no write, for any other no write and an error |
| Promises.GatesExactly | pkg/gameserver/gameserver.go:79-100 | The handler's three gates together let through exactly a mode annotation with the state Scheduled, RequestReady or Ready |
| Promises.ReadyExactly | pkg/reconcilers/gameserver_reconciler.go:85-96 | The ready decision of the protocol is to write on absent, empty or false spellings, and not to on true ones |
| Promises.DeliveredStarts | pkg/handlers/gameserver_handler.go:68-89 | A delivered event starts at the Service read under exactly that condition, and is skipped otherwise |
| IngressPipeline.SuccessIsPerOption | pkg/reconcilers/ingress_reconciler.go:103-107 | A list of options fails if and only if one of its options does, whatever Ingress it is given |
| IngressPipeline.Confluence | pkg/reconcilers/ingress_reconciler.go:54-64 | Any two orders of the same options that keep plain before template annotations, and both before class name and issuer, build the same Ingress or both fail |
| IngressPipeline.IndependentOptionsCommute | pkg/reconcilers/ingress_options.go:235-249 | Options of different kinds in one layer, or writing different fields, commute; issuer and class name included |
| IngressPipeline.MoveToFront | pkg/reconcilers/ingress_reconciler.go:103-107 | An option independent of all before it may run first |
| IngressPipeline.ControllerListIsLayered | pkg/reconcilers/ingress_reconciler.go:54-64 | The controller's own list keeps that order |
| IngressPipeline.ClassNameFirstIsWrong | pkg/reconcilers/ingress_options.go:247-249 | With the class name before the plain annotations, annotation and spec class coexist if and only if the legacy annotation is there |
| IngressPipeline.BuildIngressExactly | pkg/reconcilers/ingress_reconciler.go:47-70 | The Ingress is built if and only if rules, TLS, class name and annotations are in order, and then has these fields; its class is the standard class annotation if there is one, else the legacy one |
| IngressPipeline.FinalAnnotationsMeetSpec | pkg/reconcilers/ingress_options.go:17-74 | The finished annotations equal one pointwise specification on annotations, slices and the first status port, and the class annotation never stands beside the class name |
| IngressPipeline.TerminatesExactly | pkg/reconcilers/ingress_options.go:78-87 | TLS terminates if and only if the annotation is there and spells true |
| IngressPipeline.IssuerIsOptional | pkg/reconcilers/ingress_reconciler.go:62-64 | Game servers that differ only in the issuer are built or refused alike |
| IngressPipeline.ControlKeysAreNotForwarded | pkg/reconcilers/ingress_options.go:28-34 | Annotations under `octops.io/` change neither the outcome nor the result of the forwarding passes |
| CustomAnnotations.ForwardPlain | pkg/reconcilers/ingress_options.go:58-74 | For every iteration order: fails if and only if the bare prefix is a key, else overlays exactly the prefixed entries |
| CustomAnnotations.RenderOne | pkg/reconcilers/ingress_options.go:29-49 | One key of the template pass: fails on a bare prefix or a template that does not parse, else writes its entry if it renders to something |
| CustomAnnotations.ForwardRendered | pkg/reconcilers/ingress_options.go:17-56 | For every iteration order: fails if and only if some prefixed key is bare or does not parse, else overlays exactly the rendered entries |
| CustomAnnotations.BracesExactly | pkg/reconcilers/ingress_options.go:35-37 | A value is taken for a template if and only if `{{` and `}}` both occur in it somewhere |
| CustomAnnotations.PrefixesPartition | pkg/gameserver/gameserver.go:18-33 | No key is forwarded to both Service and route, and no control key to either |
| CustomAnnotations.ForwardingIsBijective | pkg/reconcilers/service_options.go:55-72 | Forwarded entries are in bijection with the prefixed ones |
| IngressBuilder.SetIngressRule | pkg/reconcilers/ingress_options.go:170-216 | The loops in place: one rule per entry, or failure on a missing or empty list or an unknown mode |
| IngressBuilder.NewTLS | pkg/reconcilers/ingress_options.go:106-117 | The TLS block of one entry |
| IngressBuilder.FillTLS | pkg/reconcilers/ingress_options.go:104-118 | The slice filled index by index holds the block of each entry |
| IngressBuilder.SetTLS | pkg/reconcilers/ingress_options.go:76-168 | The TLS option in place: nothing unless TLS terminates, failure on a bad boolean, an empty secret or a missing list |
| IngressBuilder.Run | pkg/reconcilers/ingress_options.go:218-252 | Every option, run on an Ingress in place, succeeds and acts as its function on values |
| IngressBuilder.NewIngress | pkg/reconcilers/ingress_reconciler.go:85-110 | Mutating a fresh Ingress option by option computes the fold, stopping at the first failure |
| RouteBuilder.SetParentRef | pkg/reconcilers/gateway_options.go:16-40 | The parent reference in place: a gateway name is required, empty namespace and section count as absent |
| RouteBuilder.SetRules | pkg/reconcilers/gateway_options.go:42-106 | Hostnames and rule in place, with the same failures as the Ingress rule option |
| RouteBuilder.Run | pkg/reconcilers/gateway_options.go:108-163 | Every option, run on an HTTPRoute in place, succeeds and acts as its function on values |
| RouteBuilder.NewHTTPRoute | pkg/reconcilers/gateway_reconciler.go:84-109 | Mutating a fresh HTTPRoute option by option computes the fold |
| ServiceBuilder.Run | pkg/reconcilers/service_options.go:14-72 | Both options, run on a Service in place, succeed and act as their functions on values |
| ServiceBuilder.NewService | pkg/reconcilers/service_reconciler.go:75-111 | Mutating a fresh Service option by option computes the fold |
| Handler.GameServerEventHandler.constructor | pkg/handlers/gameserver_handler.go:28-39 | A gateway reconciler exists if and only if the process enables the gateway |
| Handler.GameServerEventHandler.Reconcile | pkg/handlers/gameserver_handler.go:68-129 | An execution, whatever happens around it, extends the run of the protocol, at whose end its pass is finished with the result the code returns and the events it recorded. It makes no call if and only if there is no mode annotation or the state is none of Scheduled, RequestReady and Ready; otherwise success means that the Service is there, the HTTPRoute or the Ingress as the backend annotation says, and that the event's ready value spells true or the current version has the value `true` |
| Handler.GameServerEventHandler.OnEvent | pkg/handlers/gameserver_handler.go:41-59 | Errors never reach the queue; a panic does get out, and exactly when the pass panicked |
| Handler.ServiceReconciler.Reconcile | pkg/reconcilers/service_reconciler.go:34-73 | Follows the protocol from the Service read to the route, or to an error, with the same events |
| Handler.IngressReconciler.Reconcile | pkg/reconcilers/ingress_reconciler.go:33-83 | Follows the protocol from the Ingress read to the ready decision, or to an error, with the same events |
| Handler.GatewayReconciler.Reconcile | pkg/reconcilers/gateway_reconciler.go:33-82 | Follows the protocol from the HTTPRoute read to the ready decision, or to an error, with the same events |
| Handler.GatewayReconciler.RecordStart | pkg/reconcilers/gateway_reconciler.go:47-54 | Records Creating, then a warning for each TLS annotation present |
| Handler.GameServerReconciler.MustReconcile | pkg/reconcilers/gameserver_reconciler.go:85-96 | The ready key has to be written if and only if it is absent, empty or one of the six spellings of false; there is nothing to do if and only if it is one of the six spellings of true; anything else is an error |
| Handler.GameServerReconciler.Reconcile | pkg/reconcilers/gameserver_reconciler.go:32-43 | Follows the protocol from the ready decision to the end of the pass; success means that the ready value was true or the current version is now marked, by this pass or before its copy was read |
| Handler.SuccessIsAchieved | pkg/handlers/gameserver_handler.go:89-118 | What the protocol guarantees after a success, in words of the annotations: the objects stored under namespace and name, and the value `true` on the current version unless the event's spells true |
| Handler.GameServerReconciler.Attempt | pkg/reconcilers/gameserver_reconciler.go:48-63 | One attempt: a conflict uses up a step, after a success the current version is marked, by this pass or before its copy was read, anything else ends it |
| Handler.GameServerReconciler.RetryOnConflict | pkg/reconcilers/gameserver_reconciler.go:45-72 | The bounded loop follows the protocol, and on success the current version is marked, by this pass or before its copy was read |
| Handler.GameServerReconciler.RecordUpdated | pkg/reconcilers/gameserver_reconciler.go:69-83 | One event for the update, a second for the deprecated annotation |
| Cluster.World.Interfere | pkg/manager/manager.go:35-46 | Between two calls anyone else may do any number of steps: the server grows and the pass is untouched |
| Cluster.World.CallIsStep | pkg/stores/service_store.go:23-43 | A call is one step of the protocol from the state it was made in, which others reached without touching the pass |
| Cluster.World.GetService | pkg/stores/service_store.go:32-43 | A read answers from the process's own cache at the moment of the call, or fails, and the pass advances accordingly |
| Cluster.World.GetRoute | pkg/stores/ingress_store.go:32-43 | The same for its cache of the route kind of the pass |
| Cluster.World.CreateService | pkg/stores/service_store.go:23-30 | A create stores the object if the key is free and the call arrives, and answers AlreadyExists exactly if it is not; a lost call or reply is an error |
| Cluster.World.CreateIngress | pkg/stores/ingress_store.go:23-30 | The same for Ingresses |
| Cluster.World.CreateHTTPRoute | pkg/stores/gateway_store.go:24-31 | The same for HTTPRoutes |
| Cluster.World.GetGameServer | pkg/stores/agones_store.go:52-59 | A read answers the version in the process's cache with its number, or fails |
| Cluster.World.UpdateGameServer | pkg/stores/agones_store.go:43-50 | A success carried the current version and appended what it carries, unless that changes nothing; a conflict means an older copy and an unchanged server; an error a lost call or reply |
| GoStrings.ContainsExactly | pkg/reconcilers/ingress_options.go:35-35 | `strings.Contains` holds if and only if some slice of the string is the substring |
| GoStrings.IsSpaceExactly | pkg/reconcilers/ingress_options.go:256-256 | What counts as white space: the 25 characters `unicode.IsSpace` accepts |
| GoStrings.SplitConserves | pkg/reconcilers/gateway_options.go:67-69 | `strings.Split` gives one part more than separators, none inside a part, and Join restores the input |
| GoStrings.SplitInvertsJoin | pkg/reconcilers/gateway_options.go:80-82 | Split undoes Join on parts without the separator |
| GoStrings.TrimRightSpec | pkg/reconcilers/ingress_options.go:256-256 | The right half of `strings.TrimSpace` cuts off white space only, and all of it |
| GoStrings.TrimLeftSpec | pkg/reconcilers/ingress_options.go:256-256 | So does the left half |
| Routing.UntrimmedHost | pkg/reconcilers/ingress_options.go:113-115 | Trimming changes a host `name.entry` if and only if the entry has trailing white space |
| GoStrings.TrimSpaceOfHost | pkg/reconcilers/ingress_options.go:205-206 | Trimming `name.entry` trims the entry on the right only |
| GoStrings.TrimRightIsTrimSpace | pkg/reconcilers/gateway_options.go:81-81 | Right and full trim agree if and only if the entry is blank or starts with no space |
| GoStrings.FirstLabelOfHost | pkg/reconcilers/ingress_options.go:205-205 | `name.rest` determines a dot-free name |
| GoStrings.ParseBoolSpellings | pkg/reconcilers/gameserver_reconciler.go:86-92 | The six spellings `strconv.ParseBool` takes for true, the six for false, and no others |

## Left out

- Deletion of game servers, garbage collection through owner references, and deletion of Services and routes: nothing is ever removed from the model's server.
- Validation by the API server (hosts with spaces, port 0, long names): such a create is one of the calls that fail.
- Cluster.World.GetService: the caches hold only which keys were seen, because stored Services and routes never change; a cache that loses a key it had seen is not modelled.
- Handler.GameServerEventHandler.OnEvent: `OnAdd` and `OnUpdate` are one member, because they differ only in what they log; `OnDelete`, which only logs, is left out, and so are objects that are not game servers.
- Error texts, event messages and logging: an event is its kind and its reason, and a warning call is told apart from a failure call, although both render with the reason `Failed` (pkg/record/recorder.go:35-49).
- Empty hosts, which the two routers treat differently and the API server partly refuses: they are compared like any other string.
- Port numbers are integers that are only copied; their 32-bit width plays no role.
- Priority between routes of different modes or different controllers on one host, and what Envoy, Contour and cert-manager do beyond the match.
- Two game servers whose modes differ: isolation is stated for one mode.
- The workqueue of controller-runtime (pkg/controller), the no-op reconciler (pkg/reconcilers/reconciler.go), command line, manager, informers, metrics, CRD discovery: set-up without logic of its own.
- The reads of annotations and states in pkg/gameserver: functions in `GameServers` without rows of their own; `Promises` says what follows from them without naming them.
