/** The three objects and the ready decision, read off the game server: what its annotations, ports and
    state say, written out without the functions that the builders read them with. */
module Promises {
  import opened Wrappers
  import opened GoStrings
  import opened GameServers
  import opened CustomAnnotations
  import opened Resources
  import opened Protocol
  import opened Convergence
  import IngressBuilder
  import IngressPipeline
  import RouteBuilder
  import opened Routing
  import ServiceBuilder

  // ---- When an object is built ----------------------------------------------------------------------

  /** No annotation is the bare prefix, and each prefixed value that has both braces parses. */
  predicate TemplatesParse(a: Annotations, prefix: string, t: TemplateEngine) {
    && prefix !in a
    && forall k | k in a && prefix <= k :: Occurs(a[k], "{{") && Occurs(a[k], "}}") ==> t.parse(a[k])
  }

  /** The mode is domain, also by default, or path, and its host list is there and not empty. */
  predicate HostsGiven(a: Annotations) {
    if MODE !in a || a[MODE] == "domain" then DOMAIN in a && a[DOMAIN] != ""
    else a[MODE] == "path" && FQDN in a && a[FQDN] != ""
  }

  /** TLS is not asked for, or declined, or asked for without an empty secret name. */
  predicate TLSGiven(a: Annotations) {
    || TERMINATE_TLS !in a || a[TERMINATE_TLS] == "" || SpellsFalse(a[TERMINATE_TLS])
    || (SpellsTrue(a[TERMINATE_TLS]) && (TLS_SECRET in a ==> a[TLS_SECRET] != ""))
  }

  predicate ClassGiven(a: Annotations) {
    if CLASS in a then a[CLASS] != "" else CLASS_LEGACY in a && a[CLASS_LEGACY] != ""
  }

  lemma TemplatesExactly(a: Annotations, prefix: string, t: TemplateEngine)
    ensures TemplateOk(a, prefix, t) <==> TemplatesParse(a, prefix, t)
  {
    forall k | k in a ensures TemplateParses(a[k], t) <==> (Occurs(a[k], "{{") && Occurs(a[k], "}}") ==> t.parse(a[k])) {
      BracesExactly(a[k]);
    }
  }

  lemma HostsExactly(gs: GameServer)
    ensures IngressBuilder.RulesOk(gs, RoutingMode(gs)) <==> HostsGiven(gs.annotations)
  {
    ModesDiffer();
  }

  lemma ModesDiffer()
    ensures "domain" != "path"
  {
    assert |"domain"| != |"path"|;
  }

  lemma TLSExactly(gs: GameServer)
    requires HostsGiven(gs.annotations)
    ensures IngressBuilder.TLSOk(gs, RoutingMode(gs)) <==> TLSGiven(gs.annotations)
  {
    ModesDiffer();
    if TERMINATE_TLS in gs.annotations {
      ParseBoolSpellings(gs.annotations[TERMINATE_TLS]);
    }
  }

  lemma ClassExactly(gs: GameServer)
    ensures IngressClassName(gs) != "" <==> ClassGiven(gs.annotations)
  {
  }

  /** The Ingress is built if and only if the annotations give all of that. */
  lemma IngressBuiltExactly(gs: GameServer, t: TemplateEngine)
    ensures IngressBuilder.BuildIngress(gs, t).Some? <==>
            && TemplatesParse(gs.annotations, CUSTOM_PREFIX, t) && HostsGiven(gs.annotations)
            && TLSGiven(gs.annotations) && ClassGiven(gs.annotations)
  {
    IngressPipeline.BuildIngressExactly(gs, t);
    TemplatesExactly(gs.annotations, CUSTOM_PREFIX, t);
    HostsExactly(gs);
    ClassExactly(gs);
    if HostsGiven(gs.annotations) {
      TLSExactly(gs);
    }
  }

  /** The HTTPRoute: templates, hosts and a gateway name; TLS and class do not matter. */
  lemma RouteBuiltExactly(gs: GameServer, t: TemplateEngine)
    ensures RouteBuilder.BuildHTTPRoute(gs, t).Some? <==>
            && TemplatesParse(gs.annotations, CUSTOM_PREFIX, t) && HostsGiven(gs.annotations)
            && GATEWAY_NAME in gs.annotations && gs.annotations[GATEWAY_NAME] != ""
  {
    BuildHTTPRouteExactly(gs, t);
    TemplatesExactly(gs.annotations, CUSTOM_PREFIX, t);
    HostsExactly(gs);
  }

  /** The Service: only its templates matter. */
  lemma ServiceBuiltExactly(gs: GameServer, t: TemplateEngine)
    ensures ServiceBuilder.BuildService(gs, t).Some? <==> TemplatesParse(gs.annotations, SERVICE_PREFIX, t)
  {
    BuildServiceExactly(gs, t);
    TemplatesExactly(gs.annotations, SERVICE_PREFIX, t);
  }

  // ---- What is built ----------------------------------------------------------------------------------

  /** The class: the standard annotation whatever the legacy one holds, else the legacy one; without
      either, or with an empty one so chosen, there is no Ingress. */
  lemma ClassOfIngress(gs: GameServer, t: TemplateEngine)
    ensures var ingress, a := IngressBuilder.BuildIngress(gs, t), gs.annotations;
            && (ingress.Some? && CLASS in a ==> ingress.value.className == Some(a[CLASS]))
            && (ingress.Some? && CLASS !in a ==> CLASS_LEGACY in a && ingress.value.className == Some(a[CLASS_LEGACY]))
            && (CLASS in a && a[CLASS] == "" ==> ingress.None?)
            && (CLASS !in a && (CLASS_LEGACY !in a || a[CLASS_LEGACY] == "") ==> ingress.None?)
  {
    IngressBuiltExactly(gs, t);
    IngressPipeline.BuildIngressExactly(gs, t);
  }

  /** The hosts asked for, in path mode and otherwise. */
  predicate InPathMode(gs: GameServer) {
    MODE in gs.annotations && gs.annotations[MODE] == "path"
  }

  lemma PathModeExactly(gs: GameServer)
    ensures RoutingMode(gs) == MODE_PATH <==> InPathMode(gs)
  {
    ModesDiffer();
  }

  /** The rules: one for each entry of the mode's list, in order, with one path, to the game server's
      Service at its first status port. */
  lemma IngressRuleAt(gs: GameServer, t: TemplateEngine, i: nat)
    requires IngressBuilder.BuildIngress(gs, t).Some?
    ensures var rules, a := IngressBuilder.BuildIngress(gs, t).value.rules, gs.annotations;
            var port := if |gs.statusPorts| > 0 then gs.statusPorts[0].port else 0;
            if InPathMode(gs) then
              && FQDN in a && |rules| == |Split(a[FQDN], ',')|
              && (i < |rules| ==>
                    rules[i] == IngressRule(TrimSpace(Split(a[FQDN], ',')[i]),
                                            [HTTPIngressPath("/" + gs.name, Prefix, gs.name, port)]))
            else
              && DOMAIN in a && |rules| == |Split(a[DOMAIN], ',')|
              && (i < |rules| ==>
                    rules[i] == IngressRule(TrimSpace(gs.name + "." + Split(a[DOMAIN], ',')[i]),
                                            [HTTPIngressPath("/", Prefix, gs.name, port)]))
  {
    IngressBuiltExactly(gs, t);
    IngressPipeline.BuildIngressExactly(gs, t);
    PathModeExactly(gs);
  }

  /** The TLS blocks: none unless TLS is asked for; then one for each entry, with the named secret or one
      made of the entry, a dash, the name and `-tls`, dots as dashes. */
  lemma IngressTLSAt(gs: GameServer, t: TemplateEngine, i: nat)
    requires IngressBuilder.BuildIngress(gs, t).Some?
    ensures var tls, a := IngressBuilder.BuildIngress(gs, t).value.tls, gs.annotations;
            var list := if InPathMode(gs) then FQDN else DOMAIN;
            if !(TERMINATE_TLS in a && SpellsTrue(a[TERMINATE_TLS])) then tls == []
            else
              && list in a && |tls| == |Split(a[list], ',')|
              && (i < |tls| ==>
                    var e := Split(a[list], ',')[i];
                    && tls[i].hosts == [if InPathMode(gs) then TrimSpace(e) else gs.name + "." + e]
                    && tls[i].secretName == (if TLS_SECRET in a then a[TLS_SECRET]
                                             else DotsToDashes(e) + "-" + DotsToDashes(gs.name) + "-tls"))
  {
    IngressBuiltExactly(gs, t);
    IngressPipeline.BuildIngressExactly(gs, t);
    IngressPipeline.TerminatesExactly(gs);
    PathModeExactly(gs);
    var list := if InPathMode(gs) then FQDN else DOMAIN;
    var tls := IngressBuilder.BuildIngress(gs, t).value.tls;
    if TERMINATE_TLS in gs.annotations && SpellsTrue(gs.annotations[TERMINATE_TLS]) && i < |tls| {
      SecretParts(Split(gs.annotations[list], ',')[i], gs.name);
    }
  }

  lemma SecretParts(e: string, name: string)
    ensures IngressBuilder.GeneratedSecret(e, name) == DotsToDashes(e) + "-" + DotsToDashes(name) + "-tls"
  {
    assert e + "-" + name + "-tls" == e + ("-" + (name + "-tls"));
    DotsToDashesConcat(e, "-" + (name + "-tls"));
    DotsToDashesConcat("-", name + "-tls");
    DotsToDashesConcat(name, "-tls");
    assert DotsToDashes("-") == "-" && DotsToDashes("-tls") == "-tls";
  }

  /** The HTTPRoute: a hostname for each entry, and one rule with one path and one backend. */
  lemma RouteAt(gs: GameServer, t: TemplateEngine, i: nat)
    requires RouteBuilder.BuildHTTPRoute(gs, t).Some?
    ensures var route, a := RouteBuilder.BuildHTTPRoute(gs, t).value, gs.annotations;
            var port := if |gs.statusPorts| > 0 then gs.statusPorts[0].port else 0;
            var list := if InPathMode(gs) then FQDN else DOMAIN;
            && list in a && |route.hostnames| == |Split(a[list], ',')|
            && (i < |route.hostnames| ==>
                  var e := Split(a[list], ',')[i];
                  route.hostnames[i] == if InPathMode(gs) then TrimSpace(e) else gs.name + "." + TrimSpace(e))
            && route.rules == [HTTPRouteRule([PathMatch(Prefix, if InPathMode(gs) then "/" + gs.name else "/")],
                                             [BackendRef(gs.name, port)])]
  {
    RouteBuiltExactly(gs, t);
    BuildHTTPRouteExactly(gs, t);
    PathModeExactly(gs);
  }

  /** Its parent: the gateway named, with namespace and section only where they are not empty. */
  lemma ParentOfRoute(gs: GameServer, t: TemplateEngine)
    requires RouteBuilder.BuildHTTPRoute(gs, t).Some?
    ensures var parents, a := RouteBuilder.BuildHTTPRoute(gs, t).value.parentRefs, gs.annotations;
            && |parents| == 1 && GATEWAY_NAME in a && parents[0].name == a[GATEWAY_NAME]
            && (if GATEWAY_NAMESPACE in a && a[GATEWAY_NAMESPACE] != ""
                then parents[0].namespace == Some(a[GATEWAY_NAMESPACE]) else parents[0].namespace.None?)
            && (if GATEWAY_SECTION in a && a[GATEWAY_SECTION] != ""
                then parents[0].section == Some(a[GATEWAY_SECTION]) else parents[0].section.None?)
  {
    RouteBuiltExactly(gs, t);
    BuildHTTPRouteExactly(gs, t);
  }

  // ---- Templates ----------------------------------------------------------------------------------------

  /** A forwarded value with both braces, wherever they stand, that renders to something on the name and the
      first status port, comes out rendered on all three objects. The Ingress drops the class annotation,
      and its issuer annotation belongs to cert-manager. */
  lemma TemplatesAreRendered(gs: GameServer, t: TemplateEngine, c: string, raw: string, i: int, j: int)
    requires OccursAt(raw, "{{", i) && OccursAt(raw, "}}", j)
    requires t.render(raw, gs.name, if |gs.statusPorts| > 0 then gs.statusPorts[0].port else 0) != ""
    ensures var text := t.render(raw, gs.name, if |gs.statusPorts| > 0 then gs.statusPorts[0].port else 0);
            var ingress, route, service :=
              IngressBuilder.BuildIngress(gs, t), RouteBuilder.BuildHTTPRoute(gs, t), ServiceBuilder.BuildService(gs, t);
            && (ingress.Some? && Lookup(gs, CUSTOM_PREFIX + c) == Some(raw)
                && c != IngressBuilder.INGRESS_CLASS_ANNOTATION && c != CERT_MANAGER_ISSUER ==>
                  c in ingress.value.annotations && ingress.value.annotations[c] == text)
            && (route.Some? && Lookup(gs, CUSTOM_PREFIX + c) == Some(raw) ==>
                  c in route.value.annotations && route.value.annotations[c] == text)
            && (service.Some? && Lookup(gs, SERVICE_PREFIX + c) == Some(raw) ==>
                  c in service.value.annotations && service.value.annotations[c] == text)
  {
    assert Occurs(raw, "{{") && Occurs(raw, "}}");
    if IngressBuilder.BuildIngress(gs, t).Some? {
      IngressPipeline.FinalAnnotationsMeetSpec(gs, t, c);
    }
    ForwardedToRoute(gs, t, c);
    ForwardedToService(gs, t, c);
  }

  lemma ForwardedToRoute(gs: GameServer, t: TemplateEngine, c: string)
    ensures RouteBuilder.BuildHTTPRoute(gs, t).Some? ==>
            RouteBuilder.BuildHTTPRoute(gs, t).value.annotations == BothPasses(gs, CUSTOM_PREFIX, t)
    ensures RouteBuilder.BuildHTTPRoute(gs, t).Some? && CUSTOM_PREFIX + c in gs.annotations ==>
            Forwards(gs, t, c, gs.annotations[CUSTOM_PREFIX + c], RouteBuilder.BuildHTTPRoute(gs, t).value.annotations)
  {
    BuildHTTPRouteExactly(gs, t);
    BothPassesExactly(gs, CUSTOM_PREFIX, t, c);
  }

  lemma ForwardedToService(gs: GameServer, t: TemplateEngine, c: string)
    ensures ServiceBuilder.BuildService(gs, t).Some? && SERVICE_PREFIX + c in gs.annotations ==>
            Forwards(gs, t, c, gs.annotations[SERVICE_PREFIX + c], ServiceBuilder.BuildService(gs, t).value.annotations)
  {
    BuildServiceExactly(gs, t);
    BothPassesExactly(gs, SERVICE_PREFIX, t, c);
  }

  /** What a forwarded value becomes. */
  predicate Forwards(gs: GameServer, t: TemplateEngine, c: string, raw: string, out: Annotations) {
    var port := if |gs.statusPorts| > 0 then gs.statusPorts[0].port else 0;
    && c in out
    && out[c] == if Occurs(raw, "{{") && Occurs(raw, "}}") && t.render(raw, gs.name, port) != ""
                 then t.render(raw, gs.name, port) else raw
  }

  /** The annotation of the repository's own example: braces behind a slash. */
  const WEBSOCKET_ROUTES := "projectcontour.io/websocket-routes"
  const WEBSOCKET_TEMPLATE := "/{{ .Name }}"

  /** On the Ingress of any game server that has it, it holds what the template renders to. */
  lemma WebsocketRoutesAreRendered(gs: GameServer, t: TemplateEngine)
    requires IngressBuilder.BuildIngress(gs, t).Some?
    requires Lookup(gs, CUSTOM_PREFIX + WEBSOCKET_ROUTES) == Some(WEBSOCKET_TEMPLATE)
    requires t.render(WEBSOCKET_TEMPLATE, gs.name, if |gs.statusPorts| > 0 then gs.statusPorts[0].port else 0) == "/" + gs.name
    ensures var out := IngressBuilder.BuildIngress(gs, t).value.annotations;
            WEBSOCKET_ROUTES in out && out[WEBSOCKET_ROUTES] == "/" + gs.name
  {
    BracesOfWebsocketTemplate();
    assert WEBSOCKET_ROUTES[0] == 'p' && IngressBuilder.INGRESS_CLASS_ANNOTATION[0] == 'k' && CERT_MANAGER_ISSUER[0] == 'c';
    TemplatesAreRendered(gs, t, WEBSOCKET_ROUTES, WEBSOCKET_TEMPLATE, 1, 10);
  }

  lemma BracesOfWebsocketTemplate()
    ensures OccursAt(WEBSOCKET_TEMPLATE, "{{", 1) && OccursAt(WEBSOCKET_TEMPLATE, "}}", 10)
  {
    assert |WEBSOCKET_TEMPLATE| == 12;
  }

  // ---- Ports --------------------------------------------------------------------------------------------

  /** Of two status ports the first counts, for requests and for the Service. */
  lemma FirstPortCounts(
    hm: HostMatch, o: Router, gs: GameServer, t: TemplateEngine, host: string, path: string, service: string, port: int)
    requires IsBuilt(o, gs, t) && Sends(hm, o, host, path, service, port) && |gs.statusPorts| > 0
    ensures service == gs.name && port == gs.statusPorts[0].port
    ensures ServiceBuilder.BuildService(gs, t).Some? ==>
            var s := ServiceBuilder.BuildService(gs, t).value;
            |s.ports| == 1 && s.ports[0].port == gs.statusPorts[0].port
  {
    SendsExactly(hm, o, gs, t, host, path, service, port);
    BuildServiceExactly(gs, t);
  }

  /** A concrete game server with two. */
  function TwoPorts(): GameServer {
    Sample("a").(statusPorts := [Port(7437), Port(7000)])
  }

  lemma TwoPortsSendToTheFirst(t: TemplateEngine)
    ensures var ingress, route := IngressBuilder.BuildIngress(TwoPorts(), t), RouteBuilder.BuildHTTPRoute(TwoPorts(), t);
            && ingress.Some? && route.Some?
            && (forall host, path, service, port | Sends(ExactHost, ByIngress(ingress.value), host, path, service, port) ::
                  port == 7437)
            && (forall host, path, service, port | Sends(ExactHost, ByRoute(route.value), host, path, service, port) ::
                  port == 7437)
  {
    SampleAnnotations("a");
    SameAnnotations(TwoPorts(), Sample("a"));
    ControlledBuilds(TwoPorts(), t);
    SendsOnlyTo(TwoPorts(), t, 7437);
  }

  lemma SameAnnotations(gs: GameServer, other: GameServer)
    requires gs.annotations == other.annotations
    ensures RoutingMode(gs) == RoutingMode(other) && LookupOr(gs, DOMAIN, "") == LookupOr(other, DOMAIN, "")
    ensures IngressClassName(gs) == IngressClassName(other) && LookupOr(gs, GATEWAY_NAME, "") == LookupOr(other, GATEWAY_NAME, "")
  {
  }

  lemma SendsOnlyTo(gs: GameServer, t: TemplateEngine, first: int)
    requires IngressBuilder.BuildIngress(gs, t).Some? && RouteBuilder.BuildHTTPRoute(gs, t).Some?
    requires |gs.statusPorts| > 0 && gs.statusPorts[0].port == first
    ensures forall host, path, service, port |
              Sends(ExactHost, ByIngress(IngressBuilder.BuildIngress(gs, t).value), host, path, service, port) :: port == first
    ensures forall host, path, service, port |
              Sends(ExactHost, ByRoute(RouteBuilder.BuildHTTPRoute(gs, t).value), host, path, service, port) :: port == first
  {
    var a, b := ByIngress(IngressBuilder.BuildIngress(gs, t).value), ByRoute(RouteBuilder.BuildHTTPRoute(gs, t).value);
    forall host, path, service, port | Sends(ExactHost, a, host, path, service, port) ensures port == first {
      FirstPortCounts(ExactHost, a, gs, t, host, path, service, port);
    }
    forall host, path, service, port | Sends(ExactHost, b, host, path, service, port) ensures port == first {
      FirstPortCounts(ExactHost, b, gs, t, host, path, service, port);
    }
  }

  // ---- The ready decision ---------------------------------------------------------------------------------

  /** One undisturbed pass, in the words of the annotations: the Service is there; so is the HTTPRoute if the
      backend annotation says gateway, and the Ingress if it is absent or says anything else; the other kind
      is left alone. If the event's ready value is absent, empty or spells false, the current version then
      has the value "true"; if it spells true, or does not parse, no game server is written, and only the
      latter fails the pass. */
  lemma ConvergesAsAsked(cfg: Config, s: State, id: PassId)
    requires CanConverge(cfg, s, id)
    requires Provided(cfg, CacheOf(s, s.passes[id].proc), s.passes[id].key, s.passes[id].gs)
    ensures var u := Drive(cfg, s, id);
            var k, a := s.passes[id].key, s.passes[id].gs.annotations;
            && id in u.passes && k in u.server.services
            && (if BACKEND in a && a[BACKEND] == "gateway"
                then k in u.server.routes && u.server.ingresses == s.server.ingresses
                else k in u.server.ingresses && u.server.routes == s.server.routes)
            && if READY !in a || a[READY] == "" || SpellsFalse(a[READY]) then
                 && u.passes[id].pc == Finished(Succeeded)
                 && k in u.server.history && |u.server.history[k]| > 0
                 && var current := u.server.history[k][|u.server.history[k]| - 1].gs.annotations;
                    READY in current && current[READY] == "true"
               else
                 && u.server.history == s.server.history
                 && u.passes[id].pc == Finished(if SpellsTrue(a[READY]) then Succeeded else Errored)
  {
    Converges(cfg, s, id);
    ReadyExactly(s.passes[id].gs);
    ConvergedAsAsked(s, Drive(cfg, s, id), id);
  }

  lemma ConvergedAsAsked(s: State, u: State, id: PassId)
    requires Converged(s, u, id)
    ensures var k, a, p := s.passes[id].key, s.passes[id].gs.annotations, u.passes[id];
            && k in u.server.services
            && (if BACKEND in a && a[BACKEND] == "gateway"
                then k in u.server.routes && u.server.ingresses == s.server.ingresses
                else k in u.server.ingresses && u.server.routes == s.server.routes)
            && match NeedsReady(p.gs)
               case Some(true) =>
                 && p.pc == Finished(Succeeded)
                 && k in u.server.history && |u.server.history[k]| > 0
                 && var current := u.server.history[k][|u.server.history[k]| - 1].gs.annotations;
                    READY in current && current[READY] == "true"
               case Some(false) => p.pc == Finished(Succeeded) && u.server.history == s.server.history
               case None => p.pc == Finished(Errored) && u.server.history == s.server.history
  {
  }

  /** The gates let exactly the states Scheduled, RequestReady and Ready through, with a mode annotation. */
  lemma GatesExactly(gs: GameServer)
    ensures Eligible(gs) <==>
            MODE in gs.annotations && (gs.state == "Scheduled" || gs.state == "RequestReady" || gs.state == "Ready")
  {
  }

  /** The ready value, read off the annotation. */
  lemma ReadyExactly(gs: GameServer)
    ensures NeedsReady(gs) == Some(true) <==>
            READY !in gs.annotations || gs.annotations[READY] == "" || SpellsFalse(gs.annotations[READY])
    ensures NeedsReady(gs) == Some(false) <==> READY in gs.annotations && SpellsTrue(gs.annotations[READY])
  {
    if READY in gs.annotations {
      ParseBoolSpellings(gs.annotations[READY]);
    }
  }

  /** A delivered event starts a pass at its first call, or finishes it as skipped, by the same gates. */
  lemma DeliveredStarts(proc: Proc, version: nat, gs: GameServer)
    ensures NewPass(proc, version, gs).pc ==
            if MODE in gs.annotations && (gs.state == "Scheduled" || gs.state == "RequestReady" || gs.state == "Ready")
            then Pc.GetService else Finished(Skipped)
  {
    GatesExactly(gs);
  }
}
