/** Where the protocol and the builders meet: what the routes that the controller has stored, in any
    run, do with a request. */
module EndToEnd {
  import opened Wrappers
  import opened GameServers
  import opened Resources
  import opened Protocol
  import opened Invariant
  import opened Routing
  import ServiceBuilder
  import opened CustomAnnotations
  import opened ControllerBuilders
  import opened Convergence
  import opened Creations
  import opened Readiness
  import opened Panics

  /** A router the controller stored under a key, with its writer. */
  predicate Stores(srv: Server, k: Key, o: Router, w: Writer) {
    && w.Controller?
    && match o
       case ByIngress(ingress) => k in srv.ingresses && srv.ingresses[k] == Stored(ingress, w)
       case ByRoute(route) => k in srv.routes && srv.routes[k] == Stored(route, w)
  }

  /** What is stored was built from the event of the pass that stored it, which was eligible. */
  lemma StoredIsBuilt(cfg: Config, s: State, acts: seq<Action>, k: Key, o: Router, w: Writer, t: TemplateEngine)
    requires cfg.build == BuildersOf(t)
    requires Init(s) && Stores(Run(cfg, s, acts).server, k, o, w)
    ensures var h := Versions(Run(cfg, s, acts).server, k);
            && w.version < |h| && Eligible(h[w.version].gs) && KeyOf(h[w.version].gs) == k
            && IsBuilt(o, h[w.version].gs, t)
            && (UsesGateway(h[w.version].gs) <==> o.ByRoute?)
            && (o.ByRoute? ==> w.proc in cfg.gatewayEnabled)
  {
    InitOk(cfg, s);
    RunKeeps(cfg, s, acts);
    var srv := Run(cfg, s, acts).server;
    assert match o
           case ByIngress(ingress) => IngressOk(cfg, srv, k, Stored(ingress, w))
           case ByRoute(route) => RouteOk(cfg, srv, k, Stored(route, w));
    assert VersionOk(cfg, srv, k, w.version);
  }

  /** The first status port is the same in all versions an event could be eligible with. */
  ghost predicate SamePort(srv: Server, k: Key) {
    forall i, j | 0 <= i < |Versions(srv, k)| && 0 <= j < |Versions(srv, k)| ::
      Eligible(Versions(srv, k)[i].gs) && Eligible(Versions(srv, k)[j].gs) ==>
        StatusPort(Versions(srv, k)[i].gs) == StatusPort(Versions(srv, k)[j].gs)
  }

  /** The wiring: a request that a stored router accepts goes to the stored Service, even when
      different passes of different processes made the two; and on a port which that Service has, if
      and only if the events the two were made from agree on the status port, as they do when the port
      never changes between eligible versions. */
  lemma WiringAgrees(
    cfg: Config, s: State, acts: seq<Action>, k: Key, o: Router, w: Writer, t: TemplateEngine,
    hm: HostMatch, host: string, path: string, service: string, port: int)
    requires cfg.build == BuildersOf(t)
    requires Init(s) && Stores(Run(cfg, s, acts).server, k, o, w)
    requires k in Run(cfg, s, acts).server.services && Run(cfg, s, acts).server.services[k].writer.Controller?
    requires Sends(hm, o, host, path, service, port)
    ensures var srv := Run(cfg, s, acts).server;
            var h, svc, v := Versions(srv, k), srv.services[k].obj, srv.services[k].writer;
            && (svc.namespace, svc.name) == k && service == svc.name && svc.selector == map[GAMESERVER_LABEL := k.1]
            && w.version < |h| && v.version < |h| && |svc.ports| == 1
            && port == (if |h[w.version].gs.statusPorts| > 0 then h[w.version].gs.statusPorts[0].port else 0)
            && (svc.ports[0].port == port <==> StatusPort(h[w.version].gs) == StatusPort(h[v.version].gs))
            && (SamePort(srv, k) ==> svc.ports[0].port == port)
  {
    StoredIsBuilt(cfg, s, acts, k, o, w, t);
    var srv := Run(cfg, s, acts).server;
    SendsExactly(hm, o, Versions(srv, k)[w.version].gs, t, host, path, service, port);
    StoredServiceShape(cfg, s, acts, k, t);
  }

  lemma StoredServiceShape(cfg: Config, s: State, acts: seq<Action>, k: Key, t: TemplateEngine)
    requires cfg.build == BuildersOf(t)
    requires Init(s)
    requires k in Run(cfg, s, acts).server.services && Run(cfg, s, acts).server.services[k].writer.Controller?
    ensures var srv := Run(cfg, s, acts).server;
            var svc, w := srv.services[k].obj, srv.services[k].writer;
            && w.version < |Versions(srv, k)| && Eligible(Versions(srv, k)[w.version].gs)
            && (svc.namespace, svc.name) == k && svc.selector == map[GAMESERVER_LABEL := k.1]
            && |svc.ports| == 1 && svc.ports[0].port == StatusPort(Versions(srv, k)[w.version].gs)
  {
    InitOk(cfg, s);
    RunKeeps(cfg, s, acts);
    var srv := Run(cfg, s, acts).server;
    var w := srv.services[k].writer;
    assert ServiceOk(cfg, srv, k, srv.services[k]);
    assert VersionOk(cfg, srv, k, w.version);
    BuildServiceExactly(Versions(srv, k)[w.version].gs, t);
  }

  ghost predicate SameMode(srv: Server, k: Key, mode: string) {
    forall i | 0 <= i < |Versions(srv, k)| :: RoutingMode(Versions(srv, k)[i].gs) == mode
  }

  /** Isolation in every run: what the controller has stored for two differently named game servers
      of one mode never accepts one request twice. */
  lemma IsolationInEveryRun(
    cfg: Config, s: State, acts: seq<Action>, k: Key, k': Key, mode: string, o: Router, o': Router, w: Writer, w': Writer,
    t: TemplateEngine, host: string, path: string, service: string, port: int, service': string, port': int)
    requires cfg.build == BuildersOf(t)
    requires Init(s) && WellNamed(k.1) && WellNamed(k'.1) && k.1 != k'.1
    requires Stores(Run(cfg, s, acts).server, k, o, w) && Stores(Run(cfg, s, acts).server, k', o', w')
    requires SameMode(Run(cfg, s, acts).server, k, mode) && SameMode(Run(cfg, s, acts).server, k', mode)
    ensures !(Sends(ExactHost, o, host, path, service, port) && Sends(ExactHost, o', host, path, service', port'))
    ensures mode == MODE_PATH || (k.1 != "*" && k'.1 != "*") ==>
            !(Sends(HostOf(o), o, host, path, service, port) && Sends(HostOf(o'), o', host, path, service', port'))
  {
    StoredIsBuilt(cfg, s, acts, k, o, w, t);
    StoredIsBuilt(cfg, s, acts, k', o', w', t);
    var srv := Run(cfg, s, acts).server;
    var gs, gs' := Versions(srv, k)[w.version].gs, Versions(srv, k')[w'.version].gs;
    Isolation(ExactHost, o, gs, ExactHost, o', gs', t, host, path, service, port, service', port');
    if mode == MODE_PATH || (k.1 != "*" && k'.1 != "*") {
      IsolationAsMatched(o, gs, o', gs', t, host, path, service, port, service', port');
    }
  }

  /** Convergence, in terms of the annotations: an undisturbed pass on synced caches converges if the
      annotations of its event allow its Service and route to be built. */
  lemma WellAnnotatedConverges(cfg: Config, s: State, id: PassId, t: TemplateEngine)
    requires cfg.build == BuildersOf(t)
    requires CanConverge(cfg, s, id) && WellAnnotated(s.passes[id].gs, t)
    ensures Converged(s, Drive(cfg, s, id), id)
  {
    BuildsExactly(cfg, s.passes[id].gs, t);
    Converges(cfg, s, id);
  }

  /** Recovery, in terms of the annotations: from every sound state, so from every state that a run
      reaches, if the current version of a game server is eligible and well annotated with a ready value
      that parses, some continuation without outside parties settles it. */
  lemma WellAnnotatedRecovers(cfg: Config, s: State, proc: Proc, k: Key, gs: GameServer, t: TemplateEngine) returns (acts: seq<Action>)
    requires cfg.build == BuildersOf(t) && StateOk(cfg, s)
    requires Versions(s.server, k) != [] && gs == LastVersion(s.server, k)
    requires Eligible(gs) && NeedsReady(gs).Some? && (UsesGateway(gs) ==> proc in cfg.gatewayEnabled)
    requires WellAnnotated(gs, t)
    ensures NoOutside(acts) && SettledNow(Run(cfg, s, acts).server, k)
  {
    BuildsExactly(cfg, gs, t);
    var id := FreshPass(s.passes);
    acts := Recovers(cfg, s, id, proc, k);
  }

  // ---- Two concrete runs ------------------------------------------------------------------------------

  lemma SampleIsPlain(list: string)
    ensures !UsesGateway(Sample(list)) && NeedsReady(Sample(list)) == Some(true)
  {
    assert |DOMAIN| == 35 && |CLASS| == 28 && |GATEWAY_NAME| == 22 && |MODE| == 33 && |BACKEND| == 24 && |READY| == 23;
  }

  lemma SampleIsHandled(cfg: Config, list: string, t: TemplateEngine)
    requires cfg.build == BuildersOf(t) && list != ""
    ensures CanHandle(cfg, EMPTY_STATE, Sample(list), 0)
  {
    SampleAnnotations(list);
    SampleIsPlain(list);
    SampleBuilds(list, t);
    SampleServiceBuilds(Sample(list), t);
  }

  lemma SampleServiceBuilds(gs: GameServer, t: TemplateEngine)
    requires forall k | k in gs.annotations :: CONTROL_PREFIX <= k
    ensures ServiceBuilder.BuildService(gs, t).Some?
  {
    forall k | k in gs.annotations ensures !(SERVICE_PREFIX <= k) {
      PrefixesPartition(k);
    }
    BuildServiceExactly(gs, t);
  }

  /** With the controller's builders: the sample game server is made without annotations, then gets them,
      and the pass for its event reads the older copy and panics. */
  lemma SamplePanics(cfg: Config, t: TemplateEngine) returns (acts: seq<Action>)
    requires cfg.build == BuildersOf(t)
    ensures Init(EMPTY_STATE) && HasPanicked(Run(cfg, EMPTY_STATE, acts), 0)
  {
    var gs := Sample("a");
    SampleIsPlain("a");
    SampleIsHandled(cfg, "a", t);
    var more := LateAnnotationsPanic(cfg, gs.(annotations := map[]), gs);
    acts := LateAnnotations(gs.(annotations := map[]), gs) + more;
  }

  /** With the controller's builders: the sample game server asks for the gateway while the pass for its
      Ingress is on its way, and ends ready without the HTTPRoute it asks for. */
  lemma SampleMisleads(cfg: Config, t: TemplateEngine) returns (acts: seq<Action>)
    requires cfg.build == BuildersOf(t)
    ensures Init(EMPTY_STATE) && Misled(Run(cfg, EMPTY_STATE, acts).server, KeyOf(Sample("a")))
  {
    var gs := Sample("a");
    SampleIsPlain("a");
    SampleIsHandled(cfg, "a", t);
    var n := SwitchedBackendMisleads(cfg, gs, AsksForGateway(gs));
    acts := SwitchedBackend(gs, AsksForGateway(gs)) + Solo(0, n);
  }

  /** With the controller's builders: somebody else has made the Service of the sample game server, and the
      pass for it records `Created`. */
  lemma SampleCreatedByAnother(cfg: Config, svc: Service, t: TemplateEngine)
    requires cfg.build == BuildersOf(t) && (svc.namespace, svc.name) == KeyOf(Sample("a"))
    ensures var gs := Sample("a");
            var u := Run(cfg, EMPTY_STATE, OutsideServiceFirst(svc, gs));
            && HasRecorded(u, 0, ServiceKind)
            && KeyOf(gs) in u.server.services && u.server.services[KeyOf(gs)].writer == External
  {
    SampleAnnotations("a");
    SampleServiceBuilds(Sample("a"), t);
    CreatedByAnother(cfg, svc, Sample("a"));
  }

  function AsksForGateway(gs: GameServer): (r: GameServer)
    ensures KeyOf(r) == KeyOf(gs) && UsesGateway(r) && r.annotations != map[]
  {
    var r := gs.(annotations := gs.annotations[BACKEND := BACKEND_GATEWAY]);
    assert BACKEND in r.annotations;
    r
  }
}
