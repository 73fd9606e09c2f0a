/** What the built routes mean: which requests reach which Service port. Paths match element by
    element, as in the Kubernetes networking.k8s.io/v1 Ingress documentation, section "Path types"
    (`Prefix`), and the Gateway API v1 specification of HTTPRoute, `PathMatchType` `PathPrefix`. */
module Routing {
  import opened Wrappers
  import opened GoStrings
  import opened GameServers
  import opened CustomAnnotations
  import opened Resources
  import IngressBuilder
  import IngressPipeline
  import RouteBuilder
  import ServiceBuilder

  // ---- Denotation -----------------------------------------------------------------------

  /** Whether a host of a rule accepts the host of a request. */
  type HostMatch = (string, string) -> bool

  function ExactHost(pattern: string, host: string): bool {
    pattern == host
  }

  /** The elements of a path; a trailing slash is ignored. */
  function Elements(path: string): seq<string> {
    var parts := Split(path, '/');
    if |parts| > 1 && parts[|parts| - 1] == "" then parts[..|parts| - 1] else parts
  }

  predicate PathMatches(kind: PathType, value: string, path: string) {
    match kind
    case Prefix => Elements(value) <= Elements(path)
  }

  predicate IngressSends(hm: HostMatch, ingress: Ingress, host: string, path: string, service: string, port: int) {
    exists r | r in ingress.rules :: hm(r.host, host) &&
      exists p | p in r.paths :: PathMatches(p.pathType, p.path, path) && p.service == service && p.port == port
  }

  predicate RouteSends(hm: HostMatch, route: HTTPRoute, host: string, path: string, service: string, port: int) {
    && (exists h | h in route.hostnames :: hm(h, host))
    && exists r | r in route.rules ::
         && (exists m | m in r.matches :: PathMatches(m.kind, m.value, path))
         && exists b | b in r.backendRefs :: b.name == service && b.port == port
  }

  /** Either kind of route. */
  datatype Router = ByIngress(ingress: Ingress) | ByRoute(route: HTTPRoute)

  predicate Sends(hm: HostMatch, o: Router, host: string, path: string, service: string, port: int) {
    match o
    case ByIngress(ingress) => IngressSends(hm, ingress, host, path, service, port)
    case ByRoute(route) => RouteSends(hm, route, host, path, service, port)
  }

  function Hosts(o: Router): seq<string> {
    match o
    case ByIngress(ingress) => seq(|ingress.rules|, i requires 0 <= i < |ingress.rules| => ingress.rules[i].host)
    case ByRoute(route) => route.hostnames
  }

  /** A router the controller builds for a game server. */
  predicate IsBuilt(o: Router, gs: GameServer, t: TemplateEngine) {
    match o
    case ByIngress(ingress) => IngressBuilder.BuildIngress(gs, t) == Some(ingress)
    case ByRoute(route) => RouteBuilder.BuildHTTPRoute(gs, t) == Some(route)
  }

  // ---- The shape of what is built -----------------------------------------------------------

  /** Both annotation passes on an object without annotations. */
  function BothPasses(gs: GameServer, prefix: string, t: TemplateEngine): Annotations {
    map[] + Forwarded(gs.annotations, prefix) + Rendered(gs.annotations, prefix, t, gs.name, StatusPort(gs))
  }

  /** The same, name by name: rendered where the value is a template that renders to something, raw
      otherwise, and nothing else. */
  lemma BothPassesExactly(gs: GameServer, prefix: string, t: TemplateEngine, c: string)
    ensures var out := BothPasses(gs, prefix, t);
            var port := if |gs.statusPorts| > 0 then gs.statusPorts[0].port else 0;
            && (c in out <==> prefix + c in gs.annotations)
            && (c in out ==>
                  var raw := gs.annotations[prefix + c];
                  out[c] == if Occurs(raw, "{{") && Occurs(raw, "}}") && t.render(raw, gs.name, port) != ""
                            then t.render(raw, gs.name, port) else raw)
  {
    if prefix + c in gs.annotations {
      BracesExactly(gs.annotations[prefix + c]);
    }
    var f := Forwarded(gs.annotations, prefix);
    assert map[] + f == f;
    BothPassesAt(gs.annotations, prefix, t, gs.name, StatusPort(gs), c);
  }

  lemma RouteApplyCons(o: RouteBuilder.HTTPRouteOption, rest: seq<RouteBuilder.HTTPRouteOption>, gs: GameServer, t: TemplateEngine, v: HTTPRoute)
    ensures RouteBuilder.ApplyAll([o] + rest, gs, t, v)
         == if RouteBuilder.Succeeds(o, gs, t) then RouteBuilder.ApplyAll(rest, gs, t, RouteBuilder.Update(o, gs, t, v)) else None
  {
    assert ([o] + rest)[1..] == rest;
  }

  /** When an HTTPRoute is built, and what it is. */
  lemma BuildHTTPRouteExactly(gs: GameServer, t: TemplateEngine)
    ensures RouteBuilder.BuildHTTPRoute(gs, t).Some? <==>
            && TemplateOk(gs.annotations, CUSTOM_PREFIX, t)
            && LookupOr(gs, GATEWAY_NAME, "") != "" && IngressBuilder.RulesOk(gs, RoutingMode(gs))
    ensures RouteBuilder.BuildHTTPRoute(gs, t).Some? ==>
            var route := RouteBuilder.BuildHTTPRoute(gs, t).value;
            && route.namespace == gs.namespace && route.name == gs.name && route.labels == GameServerLabels(gs)
            && route.hostnames == RouteBuilder.HostnamesOf(gs, RoutingMode(gs))
            && route.rules == RouteBuilder.RulesOf(gs, RoutingMode(gs))
            && route.parentRefs == [ParentRef(gs.annotations[GATEWAY_NAME], RouteBuilder.NonEmpty(gs, GATEWAY_NAMESPACE),
                                              RouteBuilder.NonEmpty(gs, GATEWAY_SECTION))]
            && route.annotations == BothPasses(gs, CUSTOM_PREFIX, t)
  {
    var mode := RoutingMode(gs);
    var o0, o1, o2, o3 := RouteBuilder.WithCustomHTTPRouteAnnotations, RouteBuilder.WithCustomHTTPRouteAnnotationsTemplate,
      RouteBuilder.WithHTTPRouteParentRef, RouteBuilder.WithHTTPRouteRules(mode);
    FourRouteOptions(o0, o1, o2, o3, gs, t, RouteBuilder.EmptyRoute(gs));
    RouteFields(mode, gs, t, RouteBuilder.EmptyRoute(gs));
  }

  lemma FourRouteOptions(
    o0: RouteBuilder.HTTPRouteOption, o1: RouteBuilder.HTTPRouteOption, o2: RouteBuilder.HTTPRouteOption,
    o3: RouteBuilder.HTTPRouteOption, gs: GameServer, t: TemplateEngine, v: HTTPRoute)
    ensures RouteBuilder.ApplyAll([o0, o1, o2, o3], gs, t, v) ==
            if && RouteBuilder.Succeeds(o0, gs, t) && RouteBuilder.Succeeds(o1, gs, t)
               && RouteBuilder.Succeeds(o2, gs, t) && RouteBuilder.Succeeds(o3, gs, t)
            then Some(RouteBuilder.Update(o3, gs, t, RouteBuilder.Update(o2, gs, t,
                        RouteBuilder.Update(o1, gs, t, RouteBuilder.Update(o0, gs, t, v)))))
            else None
  {
    var t3 := [o3] + [];
    var t2 := [o2] + t3;
    var t1 := [o1] + t2;
    var v1 := RouteBuilder.Update(o0, gs, t, v);
    var v2 := RouteBuilder.Update(o1, gs, t, v1);
    assert [o0, o1, o2, o3] == [o0] + t1;
    RouteApplyCons(o0, t1, gs, t, v);
    RouteApplyCons(o1, t2, gs, t, v1);
    RouteApplyCons(o2, t3, gs, t, v2);
    RouteApplyCons(o3, [], gs, t, RouteBuilder.Update(o2, gs, t, v2));
  }

  lemma RouteFields(mode: string, gs: GameServer, t: TemplateEngine, v: HTTPRoute)
    ensures var w := RouteBuilder.Update(RouteBuilder.WithHTTPRouteRules(mode), gs, t,
                       RouteBuilder.Update(RouteBuilder.WithHTTPRouteParentRef, gs, t,
                         RouteBuilder.Update(RouteBuilder.WithCustomHTTPRouteAnnotationsTemplate, gs, t,
                           RouteBuilder.Update(RouteBuilder.WithCustomHTTPRouteAnnotations, gs, t, v))));
            && w.namespace == v.namespace && w.name == v.name && w.labels == v.labels
            && w.hostnames == RouteBuilder.HostnamesOf(gs, mode)
            && w.rules == RouteBuilder.RulesOf(gs, mode)
            && w.parentRefs == [ParentRef(LookupOr(gs, GATEWAY_NAME, ""), RouteBuilder.NonEmpty(gs, GATEWAY_NAMESPACE),
                                          RouteBuilder.NonEmpty(gs, GATEWAY_SECTION))]
            && w.annotations == v.annotations + Forwarded(gs.annotations, CUSTOM_PREFIX)
                                + Rendered(gs.annotations, CUSTOM_PREFIX, t, gs.name, StatusPort(gs))
  {
  }

  /** The TLS annotations have no effect on the HTTPRoute. */
  lemma GatewayIgnoresTLS(gs: GameServer, gs': GameServer, t: TemplateEngine)
    requires IngressPipeline.SameBut(gs, gs', {TERMINATE_TLS, TLS_SECRET, ISSUER})
    ensures RouteBuilder.BuildHTTPRoute(gs, t) == RouteBuilder.BuildHTTPRoute(gs', t)
  {
    TLSKeysAreControl();
    IngressPipeline.ControlKeysAreNotForwarded(gs, gs', {TERMINATE_TLS, TLS_SECRET, ISSUER}, t);
    SameRouteAnnotations(gs, gs');
    forall o ensures SameRouteOption(o, gs, gs', t) {
      RouteOptionsAgree(o, gs, gs', t);
    }
    SameHTTPRoute(RouteBuilder.HTTPRouteOptions(gs), gs, gs', t, RouteBuilder.EmptyRoute(gs));
  }

  lemma TLSKeysAreControl()
    ensures CONTROL_PREFIX <= TERMINATE_TLS && CONTROL_PREFIX <= TLS_SECRET && CONTROL_PREFIX <= ISSUER
  {
  }

  /** The annotations an HTTPRoute is made from, besides the forwarded ones. */
  predicate SameRouteInputs(gs: GameServer, gs': GameServer) {
    && gs' == gs.(annotations := gs'.annotations)
    && Lookup(gs, MODE) == Lookup(gs', MODE) && Lookup(gs, DOMAIN) == Lookup(gs', DOMAIN)
    && Lookup(gs, FQDN) == Lookup(gs', FQDN) && Lookup(gs, GATEWAY_NAME) == Lookup(gs', GATEWAY_NAME)
    && Lookup(gs, GATEWAY_NAMESPACE) == Lookup(gs', GATEWAY_NAMESPACE)
    && Lookup(gs, GATEWAY_SECTION) == Lookup(gs', GATEWAY_SECTION)
  }

  lemma SameRouteAnnotations(gs: GameServer, gs': GameServer)
    requires IngressPipeline.SameBut(gs, gs', {TERMINATE_TLS, TLS_SECRET, ISSUER})
    ensures SameRouteInputs(gs, gs')
  {
    assert |TERMINATE_TLS| == 23 && |TLS_SECRET| == |ISSUER| == 25;
    assert |MODE| == |FQDN| == 33 && |DOMAIN| == 35 && |GATEWAY_NAME| == 22
        && |GATEWAY_NAMESPACE| == 27 && |GATEWAY_SECTION| == 30;
  }

  ghost predicate SameRouteOption(o: RouteBuilder.HTTPRouteOption, gs: GameServer, gs': GameServer, t: TemplateEngine) {
    && (RouteBuilder.Succeeds(o, gs, t) <==> RouteBuilder.Succeeds(o, gs', t))
    && forall v :: RouteBuilder.Update(o, gs, t, v) == RouteBuilder.Update(o, gs', t, v)
  }

  lemma {:induction false} SameHTTPRoute(opts: seq<RouteBuilder.HTTPRouteOption>, gs: GameServer, gs': GameServer, t: TemplateEngine, v: HTTPRoute)
    requires forall o :: SameRouteOption(o, gs, gs', t)
    ensures RouteBuilder.ApplyAll(opts, gs, t, v) == RouteBuilder.ApplyAll(opts, gs', t, v)
  {
    if opts != [] {
      assert SameRouteOption(opts[0], gs, gs', t);
      SameHTTPRoute(opts[1..], gs, gs', t, RouteBuilder.Update(opts[0], gs, t, v));
    }
  }

  lemma RouteOptionsAgree(o: RouteBuilder.HTTPRouteOption, gs: GameServer, gs': GameServer, t: TemplateEngine)
    requires SameRouteInputs(gs, gs')
    requires TemplateOk(gs.annotations, CUSTOM_PREFIX, t) <==> TemplateOk(gs'.annotations, CUSTOM_PREFIX, t)
    requires Forwarded(gs.annotations, CUSTOM_PREFIX) == Forwarded(gs'.annotations, CUSTOM_PREFIX)
    requires Rendered(gs.annotations, CUSTOM_PREFIX, t, gs.name, StatusPort(gs))
          == Rendered(gs'.annotations, CUSTOM_PREFIX, t, gs'.name, StatusPort(gs'))
    requires PlainOk(gs.annotations, CUSTOM_PREFIX) <==> PlainOk(gs'.annotations, CUSTOM_PREFIX)
    ensures SameRouteOption(o, gs, gs', t)
  {
    match o
    case WithHTTPRouteParentRef => SameParentRef(gs, gs', t);
    case WithHTTPRouteRules(mode) => SameRules(gs, gs', mode, t);
    case _ =>
  }

  lemma SameParentRef(gs: GameServer, gs': GameServer, t: TemplateEngine)
    requires SameRouteInputs(gs, gs')
    ensures SameRouteOption(RouteBuilder.WithHTTPRouteParentRef, gs, gs', t)
  {
  }

  lemma SameRules(gs: GameServer, gs': GameServer, mode: string, t: TemplateEngine)
    requires SameRouteInputs(gs, gs')
    ensures SameRouteOption(RouteBuilder.WithHTTPRouteRules(mode), gs, gs', t)
  {
    assert IngressBuilder.Entries(gs, mode) == IngressBuilder.Entries(gs', mode);
    assert RouteBuilder.HostnamesOf(gs, mode) == RouteBuilder.HostnamesOf(gs', mode);
  }

  lemma ServiceApplyCons(o: ServiceBuilder.ServiceOption, rest: seq<ServiceBuilder.ServiceOption>, gs: GameServer, t: TemplateEngine, v: Service)
    ensures ServiceBuilder.ApplyAll([o] + rest, gs, t, v)
         == if ServiceBuilder.Succeeds(o, gs, t) then ServiceBuilder.ApplyAll(rest, gs, t, ServiceBuilder.Update(o, gs, t, v)) else None
  {
    assert ([o] + rest)[1..] == rest;
  }

  lemma TwoServiceOptions(o: ServiceBuilder.ServiceOption, p: ServiceBuilder.ServiceOption, gs: GameServer, t: TemplateEngine, v: Service)
    ensures ServiceBuilder.ApplyAll([o, p], gs, t, v) ==
            if ServiceBuilder.Succeeds(o, gs, t) && ServiceBuilder.Succeeds(p, gs, t)
            then Some(ServiceBuilder.Update(p, gs, t, ServiceBuilder.Update(o, gs, t, v))) else None
  {
    assert [o, p] == [o] + [p] && [p] == [p] + [];
    ServiceApplyCons(o, [p], gs, t, v);
    ServiceApplyCons(p, [], gs, t, ServiceBuilder.Update(o, gs, t, v));
  }

  lemma ServiceFields(gs: GameServer, t: TemplateEngine, v: Service)
    ensures var w := ServiceBuilder.Update(ServiceBuilder.WithCustomServiceAnnotationsTemplate, gs, t,
                       ServiceBuilder.Update(ServiceBuilder.WithCustomServiceAnnotations, gs, t, v));
            && w.namespace == v.namespace && w.name == v.name && w.labels == v.labels && w.clusterIP == v.clusterIP
            && w.ports == v.ports && w.selector == v.selector
            && w.annotations == v.annotations + Forwarded(gs.annotations, SERVICE_PREFIX)
                                + Rendered(gs.annotations, SERVICE_PREFIX, t, gs.name, StatusPort(gs))
  {
  }

  /** When a Service is built, and what it is: a headless Service of the game server's name, for its
      pod, with one port, its first status port. */
  lemma BuildServiceExactly(gs: GameServer, t: TemplateEngine)
    ensures ServiceBuilder.BuildService(gs, t).Some? <==> TemplateOk(gs.annotations, SERVICE_PREFIX, t)
    ensures ServiceBuilder.BuildService(gs, t).Some? ==>
            var s := ServiceBuilder.BuildService(gs, t).value;
            && s.namespace == gs.namespace && s.name == gs.name && s.labels == GameServerLabels(gs) && s.clusterIP == "None"
            && |s.ports| == 1 && s.ports[0].name == "gameserver"
            && s.ports[0].port == (if |gs.statusPorts| > 0 then gs.statusPorts[0].port else 0)
            && s.ports[0].targetPort == (if |gs.containerPorts| > 0 then gs.containerPorts[0] else 0)
            && s.selector == GameServerLabels(gs)
            && s.annotations == BothPasses(gs, SERVICE_PREFIX, t)
  {
    TwoServiceOptions(ServiceBuilder.WithCustomServiceAnnotations, ServiceBuilder.WithCustomServiceAnnotationsTemplate,
      gs, t, ServiceBuilder.EmptyService(gs));
    ServiceFields(gs, t, ServiceBuilder.EmptyService(gs));
  }

  /** The path every rule of a game server matches. */
  function PathOf(gs: GameServer): string {
    if RoutingMode(gs) == MODE_PATH then "/" + gs.name else "/"
  }

  /** A built router, in one line: any of its hosts, the game server's path, its Service and port. */
  lemma SendsExactly(hm: HostMatch, o: Router, gs: GameServer, t: TemplateEngine, host: string, path: string, service: string, port: int)
    requires IsBuilt(o, gs, t)
    ensures Sends(hm, o, host, path, service, port) <==>
            && (exists h | h in Hosts(o) :: hm(h, host))
            && PathMatches(Prefix, PathOf(gs), path)
            && service == gs.name && port == if |gs.statusPorts| > 0 then gs.statusPorts[0].port else 0
  {
    match o
    case ByIngress(ingress) =>
      IngressPipeline.BuildIngressExactly(gs, t);
      IngressSendsExactly(hm, ingress, gs, host, path, service, port);
    case ByRoute(route) =>
      BuildHTTPRouteExactly(gs, t);
      RouteSendsExactly(hm, route, gs, host, path, service, port);
  }

  lemma RouteSendsExactly(hm: HostMatch, route: HTTPRoute, gs: GameServer, host: string, path: string, service: string, port: int)
    requires route.rules == RouteBuilder.RulesOf(gs, RoutingMode(gs))
    ensures RouteSends(hm, route, host, path, service, port) <==>
            && (exists h | h in route.hostnames :: hm(h, host))
            && PathMatches(Prefix, PathOf(gs), path)
            && service == gs.name && port == StatusPort(gs)
  {
    assert route.rules[0].matches[0] == PathMatch(Prefix, PathOf(gs));
    assert route.rules[0].backendRefs[0] == BackendRef(gs.name, StatusPort(gs));
  }

  lemma IngressSendsExactly(hm: HostMatch, ingress: Ingress, gs: GameServer, host: string, path: string, service: string, port: int)
    requires ingress.rules == IngressBuilder.RulesOf(gs, RoutingMode(gs))
    ensures IngressSends(hm, ingress, host, path, service, port) <==>
            && (exists h | h in Hosts(ByIngress(ingress)) :: hm(h, host))
            && PathMatches(Prefix, PathOf(gs), path)
            && service == gs.name && port == StatusPort(gs)
  {
    var only := HTTPIngressPath(PathOf(gs), Prefix, gs.name, StatusPort(gs));
    assert forall i | 0 <= i < |ingress.rules| :: ingress.rules[i].paths == [only];
    OnePathSends(hm, ingress, only, host, path, service, port);
  }

  /** A router answers at each of its hosts. */
  lemma SendsAtHost(o: Router, gs: GameServer, t: TemplateEngine, host: string)
    requires IsBuilt(o, gs, t) && host in Hosts(o)
    ensures Sends(ExactHost, o, host, PathOf(gs), gs.name, StatusPort(gs))
  {
    SendsExactly(ExactHost, o, gs, t, host, PathOf(gs), gs.name, StatusPort(gs));
  }

  /** An Ingress all of whose rules have the same single path. */
  lemma OnePathSends(hm: HostMatch, ingress: Ingress, only: HTTPIngressPath, host: string, path: string, service: string, port: int)
    requires forall i | 0 <= i < |ingress.rules| :: ingress.rules[i].paths == [only]
    ensures IngressSends(hm, ingress, host, path, service, port) <==>
            && (exists h | h in Hosts(ByIngress(ingress)) :: hm(h, host))
            && PathMatches(only.pathType, only.path, path) && service == only.service && port == only.port
  {
    var rules, hosts := ingress.rules, Hosts(ByIngress(ingress));
    if IngressSends(hm, ingress, host, path, service, port) {
      var r :| r in rules && hm(r.host, host) &&
        exists p | p in r.paths :: PathMatches(p.pathType, p.path, path) && p.service == service && p.port == port;
      var i :| 0 <= i < |rules| && rules[i] == r;
      assert hosts[i] in hosts;
    }
    if h :| h in hosts && hm(h, host) {
      var i :| 0 <= i < |rules| && hosts[i] == h;
      assert rules[i] in rules && only in rules[i].paths;
    }
  }

  // ---- Hosts ------------------------------------------------------------------------------

  /** The host a router has for one entry of the host list. */
  lemma HostsOfBuilt(o: Router, gs: GameServer, t: TemplateEngine)
    requires IsBuilt(o, gs, t) && WellNamed(gs.name)
    ensures var entries := IngressBuilder.Entries(gs, RoutingMode(gs));
            && |Hosts(o)| == |entries|
            && forall i | 0 <= i < |entries| ::
                 Hosts(o)[i] == if RoutingMode(gs) == MODE_PATH then TrimSpace(entries[i])
                                else gs.name + "." + if o.ByIngress? then TrimRight(entries[i]) else TrimSpace(entries[i])
    ensures IngressBuilder.KnownMode(RoutingMode(gs))
  {
    var entries := IngressBuilder.Entries(gs, RoutingMode(gs));
    match o
    case ByIngress(_) =>
      IngressPipeline.BuildIngressExactly(gs, t);
      forall i | 0 <= i < |entries| {
        TrimSpaceOfHost(gs.name, entries[i]);
      }
    case ByRoute(_) =>
      BuildHTTPRouteExactly(gs, t);
  }

  /** Entry by entry: the host of the Ingress is the hostname of the HTTPRoute, in path mode always,
      in domain mode exactly when trimming the right of the entry trims all of it. */
  lemma HostsAgreeAt(o: Router, o': Router, gs: GameServer, t: TemplateEngine, i: nat)
    requires IsBuilt(o, gs, t) && IsBuilt(o', gs, t) && o.ByIngress? && o'.ByRoute? && WellNamed(gs.name)
    requires i < |IngressBuilder.Entries(gs, RoutingMode(gs))|
    ensures i < |Hosts(o)| == |Hosts(o')|
    ensures var e := IngressBuilder.Entries(gs, RoutingMode(gs))[i];
            Hosts(o)[i] == Hosts(o')[i] <==> RoutingMode(gs) == MODE_PATH || TrimRight(e) == TrimSpace(e)
  {
    HostsOfBuilt(o, gs, t);
    HostsOfBuilt(o', gs, t);
    var e := IngressBuilder.Entries(gs, RoutingMode(gs))[i];
    if TrimRight(e) != TrimSpace(e) {
      HostTailDiffers(gs.name, TrimRight(e), TrimSpace(e));
    }
  }

  /** Host list conservation: one host per comma-separated entry, in order, for rules, TLS blocks
      and hostnames alike; and joining the entries gives back the annotation. */
  lemma HostListConserved(gs: GameServer, mode: string)
    ensures var list := LookupOr(gs, IngressBuilder.HostAnnotation(mode), "");
            && |IngressBuilder.RulesOf(gs, mode)| == Count(list, ',') + 1
            && |IngressBuilder.TLSOf(gs, mode)| == Count(list, ',') + 1
            && |RouteBuilder.HostnamesOf(gs, mode)| == Count(list, ',') + 1
            && Join(IngressBuilder.Entries(gs, mode), ',') == list
            && forall e | e in IngressBuilder.Entries(gs, mode) :: ',' !in e
  {
    SplitConserves(LookupOr(gs, IngressBuilder.HostAnnotation(mode), ""), ',');
  }

  // ---- Meaning preservation ------------------------------------------------------------------

  /** Two routers, each under its own way of matching hosts, accept the same requests and send them to
      the same place. */
  ghost predicate SameMeaning(hm: HostMatch, a: Router, hm': HostMatch, b: Router) {
    forall host, path, service, port ::
      Sends(hm, a, host, path, service, port) <==> Sends(hm', b, host, path, service, port)
  }

  /** No entry has white space before its first other character. */
  predicate CleanEntries(gs: GameServer) {
    forall e | e in IngressBuilder.Entries(gs, RoutingMode(gs)) :: TrimRight(e) == TrimSpace(e)
  }

  lemma SameHosts(a: Router, b: Router, gs: GameServer, t: TemplateEngine)
    requires IsBuilt(a, gs, t) && IsBuilt(b, gs, t) && WellNamed(gs.name)
    requires RoutingMode(gs) == MODE_PATH || CleanEntries(gs)
    ensures Hosts(a) == Hosts(b)
  {
    HostsOfBuilt(a, gs, t);
    HostsOfBuilt(b, gs, t);
  }

  /** The two backends agree, in path mode always, in domain mode when the entries are clean, for any
      two ways of matching hosts that agree on the hosts of the game server. */
  lemma BackendsAgree(hm: HostMatch, hm': HostMatch, a: Router, b: Router, gs: GameServer, t: TemplateEngine)
    requires IsBuilt(a, gs, t) && IsBuilt(b, gs, t) && WellNamed(gs.name)
    requires RoutingMode(gs) == MODE_PATH || CleanEntries(gs)
    requires forall h, host | h in Hosts(a) :: hm(h, host) == hm'(h, host)
    ensures SameMeaning(hm, a, hm', b)
  {
    SameHosts(a, b, gs, t);
    forall host, path, service, port
      ensures Sends(hm, a, host, path, service, port) <==> Sends(hm', b, host, path, service, port)
    {
      SendsExactly(hm, a, gs, t, host, path, service, port);
      SendsExactly(hm', b, gs, t, host, path, service, port);
    }
  }

  // ---- Wildcard hosts ------------------------------------------------------------------------------

  predicate Wildcard(pattern: string) {
    "*." <= pattern
  }

  /** The host of an Ingress rule: a wildcard stands for one label. */
  function IngressHost(pattern: string, host: string): bool {
    if Wildcard(pattern) then FirstLabel(host) != "" && host == FirstLabel(host) + pattern[1..] else pattern == host
  }

  /** The hostname of an HTTPRoute: a wildcard stands for one or more labels. */
  function GatewayHost(pattern: string, host: string): bool {
    if Wildcard(pattern) then |host| > |pattern| - 1 && host[|host| - (|pattern| - 1)..] == pattern[1..] else pattern == host
  }

  /** A host of two labels under a wildcard, longer than a given length. */
  function DeepHost(pattern: string, n: nat): string
    requires Wildcard(pattern)
  {
    "a." + seq(n + 1, i requires 0 <= i < n + 1 => 'a') + pattern[1..]
  }

  /** The gateway accepts it; an Ingress accepts it under no pattern that is not longer than n. */
  lemma DeepHostDiffers(pattern: string, n: nat, other: string)
    requires Wildcard(pattern) && |other| <= n
    ensures GatewayHost(pattern, DeepHost(pattern, n)) && !IngressHost(other, DeepHost(pattern, n))
  {
    var host := DeepHost(pattern, n);
    var long := seq(n + 1, i requires 0 <= i < n + 1 => 'a');
    assert host == "a" + "." + (long + pattern[1..]);
    FirstLabelOfHost("a", long + pattern[1..]);
    assert |host| > n + 1;
  }

  function Longest(hosts: seq<string>): (n: nat)
    ensures forall h | h in hosts :: |h| <= n
  {
    if hosts == [] then 0 else
      var n := Longest(hosts[1..]);
      assert forall h | h in hosts :: h == hosts[0] || h in hosts[1..];
      if |hosts[0]| > n then |hosts[0]| else n
  }

  /** Under the two ways in which hosts really are matched, the backends agree if and only if no host is
      a wildcard. */
  lemma WildcardsAgreeExactly(a: Router, b: Router, gs: GameServer, t: TemplateEngine)
    requires IsBuilt(a, gs, t) && IsBuilt(b, gs, t) && a.ByIngress? && b.ByRoute? && WellNamed(gs.name)
    requires RoutingMode(gs) == MODE_PATH || CleanEntries(gs)
    ensures SameMeaning(IngressHost, a, GatewayHost, b) <==> forall h | h in Hosts(a) :: !Wildcard(h)
  {
    SameHosts(a, b, gs, t);
    if forall h | h in Hosts(a) :: !Wildcard(h) {
      BackendsAgree(IngressHost, GatewayHost, a, b, gs, t);
    } else {
      var p :| p in Hosts(a) && Wildcard(p);
      var host := DeepHost(p, Longest(Hosts(a)));
      forall h | h in Hosts(a) ensures GatewayHost(p, host) && !IngressHost(h, host) {
        DeepHostDiffers(p, Longest(Hosts(a)), h);
      }
      SendsExactly(IngressHost, a, gs, t, host, PathOf(gs), gs.name, StatusPort(gs));
      SendsExactly(GatewayHost, b, gs, t, host, PathOf(gs), gs.name, StatusPort(gs));
      assert !Sends(IngressHost, a, host, PathOf(gs), gs.name, StatusPort(gs));
    }
  }

  // ---- White space -----------------------------------------------------------------------------------

  /** The same for the requests a client can make: no host has white space. */
  ghost predicate SameOnRequests(a: Router, b: Router) {
    forall host, path, service, port | NoSpace(host) ::
      Sends(ExactHost, a, host, path, service, port) <==> Sends(ExactHost, b, host, path, service, port)
  }

  /** Every entry that trims to a host name has a twin that the right trim alone brings to it. */
  predicate EntriesCovered(gs: GameServer) {
    var entries := IngressBuilder.Entries(gs, RoutingMode(gs));
    forall e | e in entries :: NoSpace(TrimSpace(e)) ==> TrimsRightTo(entries, TrimSpace(e))
  }

  predicate TrimsRightTo(entries: seq<string>, d: string) {
    exists e | e in entries :: TrimRight(e) == d
  }

  /** In domain mode, which domains a router of each kind answers at. */
  lemma DomainsOfBuilt(o: Router, gs: GameServer, t: TemplateEngine, d: string)
    requires IsBuilt(o, gs, t) && WellNamed(gs.name) && RoutingMode(gs) != MODE_PATH
    ensures var entries := IngressBuilder.Entries(gs, RoutingMode(gs));
            gs.name + "." + d in Hosts(o) <==>
            if o.ByIngress? then TrimsRightTo(entries, d) else exists e | e in entries :: TrimSpace(e) == d
  {
    HostsOfBuilt(o, gs, t);
    var entries, hosts := IngressBuilder.Entries(gs, RoutingMode(gs)), Hosts(o);
    if gs.name + "." + d in hosts {
      var i :| 0 <= i < |hosts| && hosts[i] == gs.name + "." + d;
      var e := entries[i];
      if (if o.ByIngress? then TrimRight(e) else TrimSpace(e)) != d {
        HostTailDiffers(gs.name, if o.ByIngress? then TrimRight(e) else TrimSpace(e), d);
      }
    }
    if e :| e in entries && (if o.ByIngress? then TrimRight(e) else TrimSpace(e)) == d {
      var i :| 0 <= i < |entries| && entries[i] == e;
      assert hosts[i] in hosts;
    }
  }

  /** A right trim without white space is a full trim. */
  lemma SpacelessTrim(e: string)
    requires NoSpace(TrimRight(e))
    ensures TrimRight(e) == TrimSpace(e)
  {
    TrimRightSpec(e);
    TrimRightIsTrimSpace(e);
    if TrimRight(e) != "" {
      assert TrimRight(e)[0] == e[0];
    }
  }

  lemma SpacelessHost(name: string, d: string)
    requires NoSpace(name)
    ensures NoSpace(name + "." + d) <==> NoSpace(d)
  {
    var host := name + "." + d;
    if NoSpace(host) {
      assert forall i | 0 <= i < |d| :: d[i] == host[|name| + 1 + i];
    }
  }

  /** An entry without such a twin makes a difference: the host it trims to is routed by the HTTPRoute
      and not by the Ingress. */
  lemma UncoveredEntryDiffers(a: Router, b: Router, gs: GameServer, t: TemplateEngine, e: string)
    requires IsBuilt(a, gs, t) && IsBuilt(b, gs, t) && a.ByIngress? && b.ByRoute?
    requires WellNamed(gs.name) && RoutingMode(gs) != MODE_PATH
    requires e in IngressBuilder.Entries(gs, RoutingMode(gs))
    requires !TrimsRightTo(IngressBuilder.Entries(gs, RoutingMode(gs)), TrimSpace(e))
    ensures Sends(ExactHost, b, gs.name + "." + TrimSpace(e), "/", gs.name, StatusPort(gs))
    ensures !Sends(ExactHost, a, gs.name + "." + TrimSpace(e), "/", gs.name, StatusPort(gs))
  {
    var host := gs.name + "." + TrimSpace(e);
    DomainsOfBuilt(a, gs, t, TrimSpace(e));
    DomainsOfBuilt(b, gs, t, TrimSpace(e));
    SendsAtHost(b, gs, t, host);
    SendsExactly(ExactHost, a, gs, t, host, "/", gs.name, StatusPort(gs));
  }

  /** Where entries are covered, no request makes a difference. */
  lemma CoveredHostsAgree(a: Router, b: Router, gs: GameServer, t: TemplateEngine, host: string)
    requires IsBuilt(a, gs, t) && IsBuilt(b, gs, t) && a.ByIngress? && b.ByRoute?
    requires WellNamed(gs.name) && RoutingMode(gs) != MODE_PATH && EntriesCovered(gs) && NoSpace(host)
    ensures host in Hosts(a) <==> host in Hosts(b)
  {
    HostsOfBuilt(a, gs, t);
    HostsOfBuilt(b, gs, t);
    if host in Hosts(a) || host in Hosts(b) {
      var d :| host == gs.name + "." + d;
      SpacelessHost(gs.name, d);
      DomainsOfBuilt(a, gs, t, d);
      DomainsOfBuilt(b, gs, t, d);
      forall e | NoSpace(TrimRight(e)) ensures TrimRight(e) == TrimSpace(e) {
        SpacelessTrim(e);
      }
    }
  }

  /** Meaning preservation, exactly: the Ingress and the HTTPRoute of a game server send the same requests
      to the same place if and only if it is in path mode or its entries are covered. */
  lemma BackendsAgreeExactly(a: Router, b: Router, gs: GameServer, t: TemplateEngine)
    requires IsBuilt(a, gs, t) && IsBuilt(b, gs, t) && a.ByIngress? && b.ByRoute? && WellNamed(gs.name)
    ensures SameOnRequests(a, b) <==> RoutingMode(gs) == MODE_PATH || EntriesCovered(gs)
  {
    if RoutingMode(gs) == MODE_PATH {
      BackendsAgree(ExactHost, ExactHost, a, b, gs, t);
    } else if EntriesCovered(gs) {
      forall host, path, service, port | NoSpace(host)
        ensures Sends(ExactHost, a, host, path, service, port) <==> Sends(ExactHost, b, host, path, service, port)
      {
        CoveredHostsAgree(a, b, gs, t, host);
        SendsExactly(ExactHost, a, gs, t, host, path, service, port);
        SendsExactly(ExactHost, b, gs, t, host, path, service, port);
      }
    } else {
      var entries := IngressBuilder.Entries(gs, RoutingMode(gs));
      var e :| e in entries && NoSpace(TrimSpace(e)) && !TrimsRightTo(entries, TrimSpace(e));
      UncoveredEntryDiffers(a, b, gs, t, e);
      SpacelessHost(gs.name, TrimSpace(e));
    }
  }

  lemma HostTailDiffers(name: string, x: string, y: string)
    requires x != y
    ensures name + "." + x != name + "." + y
  {
    assert (name + "." + x)[|name| + 1..] == x;
    assert (name + "." + y)[|name| + 1..] == y;
  }

  /** The usual way of writing a list, with a space after the comma, has an entry that is not covered. */
  const SPACED_LIST := "a, b"

  lemma SpacedEntries()
    ensures Split(SPACED_LIST, ',') == ["a", " b"]
    ensures TrimSpace(" b") == "b" && !TrimsRightTo(["a", " b"], "b")
  {
    assert Join(["a", " b"], ',') == SPACED_LIST;
    SplitInvertsJoin(["a", " b"], ',');
    TrimRightUnique(" b", " b");
    TrimRightUnique("b", "b");
    TrimRightUnique("a", "a");
    assert TrimLeft(" b") == TrimLeft("b") == "b";
  }

  /** With it the two backends differ, whatever the rest of the game server: a request for `b` under its
      name is routed by the HTTPRoute and not by the Ingress. */
  lemma SpacedBackendsDiffer(a: Router, b: Router, gs: GameServer, t: TemplateEngine)
    requires IsBuilt(a, gs, t) && IsBuilt(b, gs, t) && a.ByIngress? && b.ByRoute? && WellNamed(gs.name)
    requires RoutingMode(gs) == MODE_DOMAIN && LookupOr(gs, DOMAIN, "") == SPACED_LIST
    ensures Sends(ExactHost, b, gs.name + "." + "b", "/", gs.name, StatusPort(gs))
    ensures !Sends(ExactHost, a, gs.name + "." + "b", "/", gs.name, StatusPort(gs))
  {
    SpacedEntries();
    assert ["a", " b"][1] == " b";
    UncoveredEntryDiffers(a, b, gs, t, " b");
  }

  /** A small game server with a given host list. */
  function Sample(list: string): GameServer {
    GameServer("default", "gs",
      map[MODE := MODE_DOMAIN, DOMAIN := list, CLASS := "contour", GATEWAY_NAME := "gw"],
      "Ready", [Port(7437)], [8080])
  }

  lemma SampleAnnotations(list: string)
    ensures Eligible(Sample(list)) && WellNamed(Sample(list).name)
    ensures RoutingMode(Sample(list)) == MODE_DOMAIN && LookupOr(Sample(list), DOMAIN, "") == list
    ensures IngressClassName(Sample(list)) != "" && LookupOr(Sample(list), GATEWAY_NAME, "") != ""
    ensures TERMINATE_TLS !in Sample(list).annotations
    ensures forall k | k in Sample(list).annotations :: CONTROL_PREFIX <= k
  {
    assert |DOMAIN| == 35 && |CLASS| == 28 && |GATEWAY_NAME| == 22 && |TERMINATE_TLS| == 23 && |MODE| == 33;
  }

  /** Its Ingress and its HTTPRoute are built. */
  lemma SampleBuilds(list: string, t: TemplateEngine)
    requires list != ""
    ensures IngressBuilder.BuildIngress(Sample(list), t).Some? && RouteBuilder.BuildHTTPRoute(Sample(list), t).Some?
  {
    SampleAnnotations(list);
    ControlledBuilds(Sample(list), t);
  }

  /** So with the spaced list there are two such routers, and they differ on a request for gs.b. */
  lemma SpacedSampleDiffers(t: TemplateEngine)
    ensures var gs := Sample(SPACED_LIST);
            && IngressBuilder.BuildIngress(gs, t).Some? && RouteBuilder.BuildHTTPRoute(gs, t).Some?
            && !SameOnRequests(ByIngress(IngressBuilder.BuildIngress(gs, t).value), ByRoute(RouteBuilder.BuildHTTPRoute(gs, t).value))
  {
    SampleBuilds(SPACED_LIST, t);
    SampleAnnotations(SPACED_LIST);
    SpacedDiffer(Sample(SPACED_LIST), t);
  }

  lemma SpacedDiffer(gs: GameServer, t: TemplateEngine)
    requires IngressBuilder.BuildIngress(gs, t).Some? && RouteBuilder.BuildHTTPRoute(gs, t).Some?
    requires WellNamed(gs.name) && RoutingMode(gs) == MODE_DOMAIN && LookupOr(gs, DOMAIN, "") == SPACED_LIST
    ensures !SameOnRequests(ByIngress(IngressBuilder.BuildIngress(gs, t).value), ByRoute(RouteBuilder.BuildHTTPRoute(gs, t).value))
  {
    var a, b := ByIngress(IngressBuilder.BuildIngress(gs, t).value), ByRoute(RouteBuilder.BuildHTTPRoute(gs, t).value);
    SpacedBackendsDiffer(a, b, gs, t);
    SpacelessHost(gs.name, "b");
  }

  lemma ControlledBuilds(gs: GameServer, t: TemplateEngine)
    requires RoutingMode(gs) == MODE_DOMAIN && LookupOr(gs, DOMAIN, "") != ""
    requires IngressClassName(gs) != "" && LookupOr(gs, GATEWAY_NAME, "") != ""
    requires TERMINATE_TLS !in gs.annotations
    requires forall k | k in gs.annotations :: CONTROL_PREFIX <= k
    ensures IngressBuilder.BuildIngress(gs, t).Some? && RouteBuilder.BuildHTTPRoute(gs, t).Some?
  {
    forall k | k in gs.annotations ensures !(CUSTOM_PREFIX <= k) {
      PrefixesPartition(k);
    }
    IngressPipeline.BuildIngressExactly(gs, t);
    BuildHTTPRouteExactly(gs, t);
  }

  // ---- Isolation -----------------------------------------------------------------------------

  lemma NameElements(name: string)
    requires WellNamed(name)
    ensures Elements("/" + name) == ["", name]
  {
    SplitInvertsJoin(["", name], '/');
    assert Join(["", name], '/') == "/" + name;
  }

  lemma RootElements()
    ensures Elements("/") == [""]
  {
    SplitInvertsJoin(["", ""], '/');
    assert Join(["", ""], '/') == "/";
  }

  /** For one request host, the comparison accepts at most the hosts equal to it. */
  predicate Plain(hm: HostMatch, o: Router, host: string) {
    forall h | h in Hosts(o) :: hm(h, host) ==> h == host
  }

  /** A request that a game server's router matches carries its name: as the first element of the path in
      path mode, whatever the comparison of hosts; as the first label of the host in domain mode. */
  lemma MatchNamesGameServer(
    hm: HostMatch, o: Router, gs: GameServer, t: TemplateEngine, host: string, path: string, service: string, port: int)
    requires IsBuilt(o, gs, t) && WellNamed(gs.name)
    requires Sends(hm, o, host, path, service, port)
    requires RoutingMode(gs) == MODE_PATH || Plain(hm, o, host)
    ensures service == gs.name && port == StatusPort(gs) && exists h | h in Hosts(o) :: hm(h, host)
    ensures RoutingMode(gs) == MODE_PATH ==> |Elements(path)| > 1 && Elements(path)[1] == gs.name
    ensures RoutingMode(gs) != MODE_PATH ==> FirstLabel(host) == gs.name
  {
    SendsExactly(hm, o, gs, t, host, path, service, port);
    if RoutingMode(gs) == MODE_PATH {
      NameElements(gs.name);
      assert Elements(path)[1] == ["", gs.name][1];
    } else {
      assert host in Hosts(o);
      HostsOfBuilt(o, gs, t);
      var i :| 0 <= i < |Hosts(o)| && Hosts(o)[i] == host;
      var e := IngressBuilder.Entries(gs, RoutingMode(gs))[i];
      FirstLabelOfHost(gs.name, if o.ByIngress? then TrimRight(e) else TrimSpace(e));
    }
  }

  /** Isolation: routers of differently named game servers in one mode never match one request, whatever
      their backends, host lists and ports; in path mode under any two comparisons of hosts, in domain
      mode under such as accept no other host. */
  lemma Isolation(
    hm: HostMatch, o: Router, gs: GameServer, hm': HostMatch, o': Router, gs': GameServer, t: TemplateEngine,
    host: string, path: string, service: string, port: int, service': string, port': int)
    requires IsBuilt(o, gs, t) && IsBuilt(o', gs', t)
    requires WellNamed(gs.name) && WellNamed(gs'.name) && gs.name != gs'.name
    requires RoutingMode(gs) == RoutingMode(gs')
    requires RoutingMode(gs) == MODE_PATH || (Plain(hm, o, host) && Plain(hm', o', host))
    ensures !(Sends(hm, o, host, path, service, port) && Sends(hm', o', host, path, service', port'))
  {
    if Sends(hm, o, host, path, service, port) {
      MatchNamesGameServer(hm, o, gs, t, host, path, service, port);
      if Sends(hm', o', host, path, service', port') {
        MatchNamesGameServer(hm', o', gs', t, host, path, service', port');
        assert false;
      }
    }
  }

  /** How the two kinds of router really compare hosts. */
  function HostOf(o: Router): HostMatch {
    if o.ByIngress? then IngressHost else GatewayHost
  }

  /** In domain mode a host `name.entry` is a wildcard only for the name `*`. */
  lemma DomainHostsArePlain(o: Router, gs: GameServer, t: TemplateEngine, host: string)
    requires IsBuilt(o, gs, t) && WellNamed(gs.name) && RoutingMode(gs) != MODE_PATH && gs.name != "*"
    ensures Plain(HostOf(o), o, host)
  {
    HostsOfBuilt(o, gs, t);
    forall h | h in Hosts(o) ensures !Wildcard(h) {
      var i :| 0 <= i < |Hosts(o)| && Hosts(o)[i] == h;
      var e := IngressBuilder.Entries(gs, RoutingMode(gs))[i];
      HostIsNoWildcard(gs.name, if o.ByIngress? then TrimRight(e) else TrimSpace(e));
    }
  }

  lemma HostIsNoWildcard(name: string, rest: string)
    requires '.' !in name && name != "*"
    ensures !Wildcard(name + "." + rest)
  {
    var h := name + "." + rest;
    FirstLabelOfHost(name, rest);
    if Wildcard(h) {
      WildcardLabel(h);
    }
  }

  lemma WildcardLabel(h: string)
    requires Wildcard(h)
    ensures FirstLabel(h) == "*"
  {
    assert h == "*" + "." + h[2..];
    FirstLabelOfHost("*", h[2..]);
  }

  /** Isolation as hosts are really compared, wildcards included. */
  lemma IsolationAsMatched(
    o: Router, gs: GameServer, o': Router, gs': GameServer, t: TemplateEngine,
    host: string, path: string, service: string, port: int, service': string, port': int)
    requires IsBuilt(o, gs, t) && IsBuilt(o', gs', t)
    requires WellNamed(gs.name) && WellNamed(gs'.name) && gs.name != gs'.name
    requires RoutingMode(gs) == RoutingMode(gs')
    requires RoutingMode(gs) == MODE_PATH || (gs.name != "*" && gs'.name != "*")
    ensures !(Sends(HostOf(o), o, host, path, service, port) && Sends(HostOf(o'), o', host, path, service', port'))
  {
    if RoutingMode(gs) != MODE_PATH {
      DomainHostsArePlain(o, gs, t, host);
      DomainHostsArePlain(o', gs', t, host);
    }
    Isolation(HostOf(o), o, gs, HostOf(o'), o', gs', t, host, path, service, port, service', port');
  }

  /** Some host of a request is accepted by both. */
  ghost predicate ShareHost(hm: HostMatch, o: Router, hm': HostMatch, o': Router) {
    exists host :: Accepts(hm, o, host) && Accepts(hm', o', host)
  }

  predicate Accepts(hm: HostMatch, o: Router, host: string) {
    exists h | h in Hosts(o) :: hm(h, host)
  }

  /** A path that the routers of both game servers match, if one is not in path mode or they have one name. */
  lemma CommonPath(gs: GameServer, gs': GameServer) returns (path: string)
    requires WellNamed(gs.name) && WellNamed(gs'.name)
    requires RoutingMode(gs) == MODE_PATH && RoutingMode(gs') == MODE_PATH ==> gs.name == gs'.name
    ensures PathMatches(Prefix, PathOf(gs), path) && PathMatches(Prefix, PathOf(gs'), path)
  {
    RootElements();
    NameElements(gs.name);
    NameElements(gs'.name);
    path := if RoutingMode(gs) == MODE_PATH then PathOf(gs) else PathOf(gs');
  }

  /** Overlap, exactly: for any modes and any comparisons of hosts, two routers match a common request if
      and only if they share a host and, when both are in path mode, are for the same name. */
  lemma OverlapExactly(
    hm: HostMatch, o: Router, gs: GameServer, hm': HostMatch, o': Router, gs': GameServer, t: TemplateEngine)
    requires IsBuilt(o, gs, t) && IsBuilt(o', gs', t)
    requires WellNamed(gs.name) && WellNamed(gs'.name)
    ensures (exists host, path :: && Sends(hm, o, host, path, gs.name, StatusPort(gs))
                                  && Sends(hm', o', host, path, gs'.name, StatusPort(gs')))
            <==> ShareHost(hm, o, hm', o')
                 && (RoutingMode(gs) == MODE_PATH && RoutingMode(gs') == MODE_PATH ==> gs.name == gs'.name)
  {
    if host, path :| && Sends(hm, o, host, path, gs.name, StatusPort(gs))
                     && Sends(hm', o', host, path, gs'.name, StatusPort(gs')) {
      SendsExactly(hm, o, gs, t, host, path, gs.name, StatusPort(gs));
      SendsExactly(hm', o', gs', t, host, path, gs'.name, StatusPort(gs'));
      assert Accepts(hm, o, host) && Accepts(hm', o', host);
      if RoutingMode(gs) == MODE_PATH && RoutingMode(gs') == MODE_PATH {
        MatchNamesGameServer(hm, o, gs, t, host, path, gs.name, StatusPort(gs));
        MatchNamesGameServer(hm', o', gs', t, host, path, gs'.name, StatusPort(gs'));
      }
    }
    if ShareHost(hm, o, hm', o') && (RoutingMode(gs) == MODE_PATH && RoutingMode(gs') == MODE_PATH ==> gs.name == gs'.name) {
      var host :| Accepts(hm, o, host) && Accepts(hm', o', host);
      var path := CommonPath(gs, gs');
      SendsExactly(hm, o, gs, t, host, path, gs.name, StatusPort(gs));
      SendsExactly(hm', o', gs', t, host, path, gs'.name, StatusPort(gs'));
    }
  }

  /** With hosts compared by equality: sharing a host is having one in common, and in domain mode that
      alone means the same name. */
  lemma OverlapByEquality(o: Router, gs: GameServer, o': Router, gs': GameServer, t: TemplateEngine)
    requires IsBuilt(o, gs, t) && IsBuilt(o', gs', t)
    requires WellNamed(gs.name) && WellNamed(gs'.name)
    ensures ShareHost(ExactHost, o, ExactHost, o') <==> exists h :: h in Hosts(o) && h in Hosts(o')
    ensures ShareHost(ExactHost, o, ExactHost, o') && RoutingMode(gs) != MODE_PATH && RoutingMode(gs') != MODE_PATH
            ==> gs.name == gs'.name
  {
    if h :| h in Hosts(o) && h in Hosts(o') {
      assert Accepts(ExactHost, o, h) && Accepts(ExactHost, o', h);
      if RoutingMode(gs) != MODE_PATH && RoutingMode(gs') != MODE_PATH {
        SendsAtHost(o, gs, t, h);
        SendsAtHost(o', gs', t, h);
        MatchNamesGameServer(ExactHost, o, gs, t, h, "/", gs.name, StatusPort(gs));
        MatchNamesGameServer(ExactHost, o', gs', t, h, "/", gs'.name, StatusPort(gs'));
      }
    }
  }

  // ---- TLS ------------------------------------------------------------------------------------

  /** TLS blocks and rules correspond: same number, same order, and one host each, which is the host
      of the rule, in domain mode exactly when the entry has no trailing white space. */
  lemma TLSMatchesRules(gs: GameServer, t: TemplateEngine, i: nat)
    requires IngressBuilder.BuildIngress(gs, t).Some? && IngressBuilder.TerminatesTLS(gs) == Some(true)
    requires WellNamed(gs.name)
    requires i < |IngressBuilder.Entries(gs, RoutingMode(gs))|
    ensures var ingress, e := IngressBuilder.BuildIngress(gs, t).value, IngressBuilder.Entries(gs, RoutingMode(gs))[i];
            && |ingress.tls| == |ingress.rules| == |IngressBuilder.Entries(gs, RoutingMode(gs))|
            && |ingress.tls[i].hosts| == 1
            && ingress.tls[i].secretName == (if LookupOr(gs, TLS_SECRET, "") != "" then gs.annotations[TLS_SECRET]
                                             else IngressBuilder.GeneratedSecret(e, gs.name))
            && (ingress.tls[i].hosts[0] == ingress.rules[i].host <==>
                  RoutingMode(gs) == MODE_PATH || e == "" || !IsSpace(e[|e| - 1]))
  {
    IngressPipeline.BuildIngressExactly(gs, t);
    UntrimmedHost(gs.name, IngressBuilder.Entries(gs, RoutingMode(gs))[i]);
  }

  /** Trimming changes a host `name.e` exactly when e has trailing white space. */
  lemma UntrimmedHost(name: string, e: string)
    requires name == "" || !IsSpace(name[0])
    ensures name + "." + e == TrimSpace(name + "." + e) <==> e == "" || !IsSpace(e[|e| - 1])
  {
    TrimSpaceOfHost(name, e);
    TrimRightSpec(e);
    if TrimRight(e) != e {
      HostTailDiffers(name, e, TrimRight(e));
    }
  }

  lemma OneEntry(list: string)
    requires ',' !in list
    ensures Split(list, ',') == [list]
  {
    SplitInvertsJoin([list], ',');
  }

  /** With a trailing space in the list, the TLS block is for a host that no rule is for. */
  lemma TrailingSpaceSplitsTLS(gs: GameServer, t: TemplateEngine, list: string)
    requires IngressPipeline.Buildable(gs, t) && IngressBuilder.TerminatesTLS(gs) == Some(true)
    requires WellNamed(gs.name) && RoutingMode(gs) == MODE_DOMAIN && LookupOr(gs, DOMAIN, "") == list
    requires ',' !in list && list != "" && IsSpace(list[|list| - 1])
    ensures var ingress := IngressBuilder.BuildIngress(gs, t);
            && ingress.Some? && |ingress.value.rules| == |ingress.value.tls| == 1
            && |ingress.value.tls[0].hosts| == 1 && ingress.value.tls[0].hosts[0] != ingress.value.rules[0].host
  {
    OneEntry(list);
    IngressPipeline.BuildIngressExactly(gs, t);
    TLSMatchesRules(gs, t, 0);
  }

  /** A concrete game server of that kind. */
  function TLSSample(): GameServer {
    GameServer("default", "gs", map[MODE := MODE_DOMAIN, DOMAIN := "a ", CLASS := "contour", TERMINATE_TLS := "true"],
      "Ready", [Port(7437)], [8080])
  }

  lemma TLSSampleAnnotations()
    ensures Eligible(TLSSample()) && WellNamed(TLSSample().name)
    ensures RoutingMode(TLSSample()) == MODE_DOMAIN && LookupOr(TLSSample(), DOMAIN, "") == "a "
    ensures DOMAIN in TLSSample().annotations && TLS_SECRET !in TLSSample().annotations
    ensures IngressClassName(TLSSample()) != "" && IngressBuilder.TerminatesTLS(TLSSample()) == Some(true)
    ensures forall k | k in TLSSample().annotations :: CONTROL_PREFIX <= k
  {
    assert |DOMAIN| == 35 && |CLASS| == 28 && |TERMINATE_TLS| == 23 && |MODE| == 33 && |TLS_SECRET| == 25;
  }

  lemma TLSSampleDiffers(t: TemplateEngine)
    ensures var ingress := IngressBuilder.BuildIngress(TLSSample(), t);
            && ingress.Some? && |ingress.value.rules| == |ingress.value.tls| == 1
            && |ingress.value.tls[0].hosts| == 1 && ingress.value.tls[0].hosts[0] != ingress.value.rules[0].host
  {
    TLSSampleAnnotations();
    ControlledIsBuildable(TLSSample(), t);
    TrailingSpaceSplitsTLS(TLSSample(), t, "a ");
  }

  lemma ControlledIsBuildable(gs: GameServer, t: TemplateEngine)
    requires IngressBuilder.RulesOk(gs, RoutingMode(gs)) && IngressBuilder.TLSOk(gs, RoutingMode(gs))
    requires IngressClassName(gs) != "" && forall k | k in gs.annotations :: CONTROL_PREFIX <= k
    ensures IngressPipeline.Buildable(gs, t)
  {
    forall k | k in gs.annotations ensures !(CUSTOM_PREFIX <= k) {
      PrefixesPartition(k);
    }
  }

  // ---- A wildcard host, concretely ------------------------------------------------------------------

  const WILDCARD_DOMAIN := "a.io"

  /** A game server in path mode under a wildcard host. */
  function WildcardSample(): GameServer {
    GameServer("default", "gs", map[MODE := MODE_PATH, FQDN := "*." + WILDCARD_DOMAIN, CLASS := "contour", GATEWAY_NAME := "gw"],
      "Ready", [Port(7437)], [8080])
  }

  lemma WildcardSampleAnnotations()
    ensures Eligible(WildcardSample()) && WellNamed(WildcardSample().name)
    ensures RoutingMode(WildcardSample()) == MODE_PATH && LookupOr(WildcardSample(), FQDN, "") == "*." + WILDCARD_DOMAIN
    ensures ',' !in WILDCARD_DOMAIN && NoSpace(WILDCARD_DOMAIN)
    ensures TERMINATE_TLS !in WildcardSample().annotations
    ensures IngressClassName(WildcardSample()) != "" && LookupOr(WildcardSample(), GATEWAY_NAME, "") != ""
    ensures forall k | k in WildcardSample().annotations :: CONTROL_PREFIX <= k
  {
    assert |CLASS| == 28 && |TERMINATE_TLS| == 23 && |MODE| == |FQDN| == 33 && |GATEWAY_NAME| == 22;
    assert MODE[29] == 'm' && FQDN[29] == 'f';
  }

  /** Both routers of such a game server are built. */
  lemma PathModeBuilds(gs: GameServer, t: TemplateEngine)
    requires RoutingMode(gs) == MODE_PATH && LookupOr(gs, FQDN, "") != ""
    requires TERMINATE_TLS !in gs.annotations && IngressClassName(gs) != "" && LookupOr(gs, GATEWAY_NAME, "") != ""
    requires forall k | k in gs.annotations :: CONTROL_PREFIX <= k
    ensures IngressBuilder.BuildIngress(gs, t).Some? && RouteBuilder.BuildHTTPRoute(gs, t).Some?
  {
    ControlledIsBuildable(gs, t);
    IngressPipeline.BuildIngressExactly(gs, t);
    BuildHTTPRouteExactly(gs, t);
  }

  /** A request for two labels under the wildcard is routed by the HTTPRoute only. */
  lemma WildcardDiffers(a: Router, b: Router, gs: GameServer, t: TemplateEngine, pattern: string, word: string)
    requires IsBuilt(a, gs, t) && IsBuilt(b, gs, t) && a.ByIngress? && b.ByRoute? && WellNamed(gs.name)
    requires RoutingMode(gs) == MODE_PATH && LookupOr(gs, FQDN, "") == "*." + pattern
    requires ',' !in pattern && NoSpace(pattern) && word != "" && '.' !in word
    ensures Sends(GatewayHost, b, word + ".b." + pattern, "/" + gs.name, gs.name, StatusPort(gs))
    ensures !Sends(IngressHost, a, word + ".b." + pattern, "/" + gs.name, gs.name, StatusPort(gs))
  {
    OneHost(a, gs, t, "*." + pattern);
    OneHost(b, gs, t, "*." + pattern);
    var host := word + ".b." + pattern;
    TwoLabels("*." + pattern, pattern, word);
    SendsExactly(IngressHost, a, gs, t, host, "/" + gs.name, gs.name, StatusPort(gs));
    SendsExactly(GatewayHost, b, gs, t, host, "/" + gs.name, gs.name, StatusPort(gs));
    assert Hosts(b)[0] == "*." + pattern;
  }

  lemma OneHost(o: Router, gs: GameServer, t: TemplateEngine, host: string)
    requires IsBuilt(o, gs, t) && WellNamed(gs.name)
    requires RoutingMode(gs) == MODE_PATH && LookupOr(gs, FQDN, "") == host && ',' !in host && NoSpace(host)
    ensures Hosts(o) == [host]
  {
    OneEntry(host);
    SpacelessIsTrimmed(host);
    HostsOfBuilt(o, gs, t);
  }

  lemma TwoLabels(wildcard: string, pattern: string, word: string)
    requires wildcard == "*." + pattern && word != "" && '.' !in word
    ensures GatewayHost(wildcard, word + ".b." + pattern) && !IngressHost(wildcard, word + ".b." + pattern)
  {
    var host := word + ".b." + pattern;
    assert host == word + "." + ("b." + pattern);
    FirstLabelOfHost(word, "b." + pattern);
    assert wildcard[1..] == "." + pattern;
    assert host[|host| - |pattern| - 1..] == "." + pattern;
    assert |host| == |word| + |pattern| + 3;
  }

  lemma SpacelessIsTrimmed(s: string)
    requires NoSpace(s)
    ensures TrimSpace(s) == s
  {
  }

  lemma WildcardSampleDiffers(t: TemplateEngine)
    ensures var gs := WildcardSample();
            var a, b := IngressBuilder.BuildIngress(gs, t), RouteBuilder.BuildHTTPRoute(gs, t);
            && a.Some? && b.Some? && !SameMeaning(IngressHost, ByIngress(a.value), GatewayHost, ByRoute(b.value))
  {
    WildcardSampleAnnotations();
    PathModeBuilds(WildcardSample(), t);
    WildcardSeparates(WildcardSample(), t, WILDCARD_DOMAIN);
  }

  lemma WildcardSeparates(gs: GameServer, t: TemplateEngine, pattern: string)
    requires IngressBuilder.BuildIngress(gs, t).Some? && RouteBuilder.BuildHTTPRoute(gs, t).Some? && WellNamed(gs.name)
    requires RoutingMode(gs) == MODE_PATH && LookupOr(gs, FQDN, "") == "*." + pattern && ',' !in pattern && NoSpace(pattern)
    ensures !SameMeaning(IngressHost, ByIngress(IngressBuilder.BuildIngress(gs, t).value),
                         GatewayHost, ByRoute(RouteBuilder.BuildHTTPRoute(gs, t).value))
  {
    WildcardDiffers(ByIngress(IngressBuilder.BuildIngress(gs, t).value), ByRoute(RouteBuilder.BuildHTTPRoute(gs, t).value),
      gs, t, pattern, "x");
  }

  lemma DotsToDashesConcat(x: string, y: string)
    ensures DotsToDashes(x + y) == DotsToDashes(x) + DotsToDashes(y)
  {
  }

  /** Generated secret names: no dot, the length of `entry-name-tls`, and shared by two entries of a
      game server exactly when the entries are equal once dots are dashes. */
  lemma SecretNames(d: string, e: string, name: string)
    ensures '.' !in IngressBuilder.GeneratedSecret(d, name)
    ensures |IngressBuilder.GeneratedSecret(d, name)| == |d| + |name| + 5
    ensures IngressBuilder.GeneratedSecret(d, name) == IngressBuilder.GeneratedSecret(e, name)
            <==> DotsToDashes(d) == DotsToDashes(e)
  {
    var tail := "-" + name + "-tls";
    assert d + "-" + name + "-tls" == d + tail && e + "-" + name + "-tls" == e + tail;
    DotsToDashesConcat(d, tail);
    DotsToDashesConcat(e, tail);
    if |d| == |e| {
      assert DotsToDashes(d) == (DotsToDashes(d) + DotsToDashes(tail))[..|d|];
      assert DotsToDashes(e) == (DotsToDashes(e) + DotsToDashes(tail))[..|d|];
    }
  }
}
