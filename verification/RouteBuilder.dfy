/** The HTTPRoute options and builder (pkg/reconcilers/gateway_options.go, gateway_reconciler.go),
    as functions on values and as methods proved to compute them in place. */
module RouteBuilder {
  import opened Wrappers
  import opened GoStrings
  import opened GameServers
  import opened CustomAnnotations
  import opened Resources
  import IngressBuilder

  datatype HTTPRouteOption =
    | WithCustomHTTPRouteAnnotations
    | WithCustomHTTPRouteAnnotationsTemplate
    | WithHTTPRouteParentRef
    | WithHTTPRouteRules(mode: string)

  // ---- The options on values ------------------------------------------------------------

  /** An annotation that counts only when it is not empty. */
  function NonEmpty(gs: GameServer, annotation: string): Option<string> {
    if LookupOr(gs, annotation, "") == "" then None else Lookup(gs, annotation)
  }

  function ParentOf(gs: GameServer): ParentRef {
    ParentRef(LookupOr(gs, GATEWAY_NAME, ""), NonEmpty(gs, GATEWAY_NAMESPACE), NonEmpty(gs, GATEWAY_SECTION))
  }

  /** The hostname for one entry of the host list: domain mode trims the entry, not the host. */
  function HostnameFor(gs: GameServer, mode: string, entry: string): string {
    if mode == MODE_PATH then TrimSpace(entry) else gs.name + "." + TrimSpace(entry)
  }

  function HostnamesOf(gs: GameServer, mode: string): (hostnames: seq<string>)
    ensures |hostnames| == |IngressBuilder.Entries(gs, mode)|
  {
    var entries := IngressBuilder.Entries(gs, mode);
    seq(|entries|, i requires 0 <= i < |entries| => HostnameFor(gs, mode, entries[i]))
  }

  function RulesOf(gs: GameServer, mode: string): seq<HTTPRouteRule> {
    [ HTTPRouteRule(
        [PathMatch(Prefix, if mode == MODE_PATH then "/" + gs.name else "/")],
        [BackendRef(gs.name, StatusPort(gs))]) ]
  }

  predicate Succeeds(o: HTTPRouteOption, gs: GameServer, t: TemplateEngine) {
    match o
    case WithCustomHTTPRouteAnnotations => PlainOk(gs.annotations, CUSTOM_PREFIX)
    case WithCustomHTTPRouteAnnotationsTemplate => TemplateOk(gs.annotations, CUSTOM_PREFIX, t)
    case WithHTTPRouteParentRef => NonEmpty(gs, GATEWAY_NAME).Some?
    case WithHTTPRouteRules(mode) => IngressBuilder.RulesOk(gs, mode)
  }

  function Update(o: HTTPRouteOption, gs: GameServer, t: TemplateEngine, v: HTTPRoute): HTTPRoute {
    match o
    case WithCustomHTTPRouteAnnotations =>
      v.(annotations := v.annotations + Forwarded(gs.annotations, CUSTOM_PREFIX))
    case WithCustomHTTPRouteAnnotationsTemplate =>
      v.(annotations := v.annotations + Rendered(gs.annotations, CUSTOM_PREFIX, t, gs.name, StatusPort(gs)))
    case WithHTTPRouteParentRef =>
      v.(parentRefs := [ParentOf(gs)])
    case WithHTTPRouteRules(mode) =>
      v.(hostnames := HostnamesOf(gs, mode), rules := RulesOf(gs, mode))
  }

  function ApplyAll(opts: seq<HTTPRouteOption>, gs: GameServer, t: TemplateEngine, v: HTTPRoute): Option<HTTPRoute> {
    if opts == [] then Some(v)
    else if Succeeds(opts[0], gs, t) then ApplyAll(opts[1..], gs, t, Update(opts[0], gs, t, v))
    else None
  }

  function EmptyRoute(gs: GameServer): HTTPRoute {
    HTTPRoute(gs.namespace, gs.name, GameServerLabels(gs), map[], [], [], [])
  }

  function HTTPRouteOptions(gs: GameServer): seq<HTTPRouteOption> {
    [ WithCustomHTTPRouteAnnotations,
      WithCustomHTTPRouteAnnotationsTemplate,
      WithHTTPRouteParentRef,
      WithHTTPRouteRules(RoutingMode(gs)) ]
  }

  function BuildHTTPRoute(gs: GameServer, t: TemplateEngine): Option<HTTPRoute> {
    ApplyAll(HTTPRouteOptions(gs), gs, t, EmptyRoute(gs))
  }

  // ---- The options in place -------------------------------------------------------------

  /** An HTTPRoute under construction. */
  class HTTPRouteObject {
    const namespace: string
    const name: string
    const labels: map<string, string>
    const annotations: AnnotationMap
    var parentRefs: seq<ParentRef>
    var hostnames: seq<string>
    var rules: seq<HTTPRouteRule>

    constructor (gs: GameServer)
      ensures Value() == EmptyRoute(gs)
      ensures fresh(annotations)
    {
      namespace, name, labels := gs.namespace, gs.name, GameServerLabels(gs);
      annotations := new AnnotationMap();
      parentRefs, hostnames, rules := [], [], [];
    }

    function Value(): HTTPRoute
      reads this, annotations
    {
      HTTPRoute(namespace, name, labels, annotations.m, parentRefs, hostnames, rules)
    }
  }

  method SetParentRef(gs: GameServer, route: HTTPRouteObject) returns (ok: bool)
    modifies route
    ensures ok <==> NonEmpty(gs, GATEWAY_NAME).Some?
    ensures ok ==> route.Value() == old(route.Value()).(parentRefs := [ParentOf(gs)])
  {
    var name := Lookup(gs, GATEWAY_NAME);
    if name.None? || name.value == "" {
      return false;
    }
    var parent := ParentRef(name.value, None, None);
    var ns := Lookup(gs, GATEWAY_NAMESPACE);
    if ns.Some? && ns.value != "" {
      parent := parent.(namespace := ns);
    }
    var section := Lookup(gs, GATEWAY_SECTION);
    if section.Some? && section.value != "" {
      parent := parent.(section := section);
    }
    route.parentRefs := [parent];
    return true;
  }

  method SetRules(mode: string, gs: GameServer, route: HTTPRouteObject) returns (ok: bool)
    modifies route
    ensures ok <==> IngressBuilder.RulesOk(gs, mode)
    ensures ok ==> route.Value() == old(route.Value()).(hostnames := HostnamesOf(gs, mode), rules := RulesOf(gs, mode))
  {
    var hostnames: seq<string> := [];
    var pathValue;
    if mode == MODE_PATH {
      var fqdns := Lookup(gs, FQDN);
      if fqdns.None? || fqdns.value == "" {
        return false;
      }
      var entries := Split(fqdns.value, ',');
      for i := 0 to |entries|
        invariant |hostnames| == i && forall j | 0 <= j < i :: hostnames[j] == HostnameFor(gs, mode, entries[j])
      {
        hostnames := hostnames + [TrimSpace(entries[i])];
      }
      pathValue := "/" + gs.name;
    } else if mode == MODE_DOMAIN {
      var domains := Lookup(gs, DOMAIN);
      if domains.None? || domains.value == "" {
        return false;
      }
      var entries := Split(domains.value, ',');
      for i := 0 to |entries|
        invariant |hostnames| == i && forall j | 0 <= j < i :: hostnames[j] == HostnameFor(gs, mode, entries[j])
      {
        hostnames := hostnames + [gs.name + "." + TrimSpace(entries[i])];
      }
      pathValue := "/";
    } else {
      return false;
    }
    assert hostnames == HostnamesOf(gs, mode);
    route.hostnames := hostnames;
    route.rules := [HTTPRouteRule([PathMatch(Prefix, pathValue)], [BackendRef(gs.name, StatusPort(gs))])];
    return true;
  }

  method Run(o: HTTPRouteOption, gs: GameServer, t: TemplateEngine, route: HTTPRouteObject) returns (ok: bool)
    modifies route, route.annotations
    ensures ok <==> Succeeds(o, gs, t)
    ensures ok ==> route.Value() == Update(o, gs, t, old(route.Value()))
  {
    match o
    case WithCustomHTTPRouteAnnotations =>
      ok := ForwardPlain(gs.annotations, CUSTOM_PREFIX, route.annotations);
    case WithCustomHTTPRouteAnnotationsTemplate =>
      ok := ForwardRendered(gs.annotations, CUSTOM_PREFIX, t, gs.name, StatusPort(gs), route.annotations);
    case WithHTTPRouteParentRef =>
      ok := SetParentRef(gs, route);
    case WithHTTPRouteRules(mode) =>
      ok := SetRules(mode, gs, route);
  }

  /** `newHTTPRoute`. */
  method NewHTTPRoute(gs: GameServer, t: TemplateEngine, opts: seq<HTTPRouteOption>) returns (result: Option<HTTPRoute>)
    ensures result == ApplyAll(opts, gs, t, EmptyRoute(gs))
  {
    var route := new HTTPRouteObject(gs);
    for i := 0 to |opts|
      invariant fresh(route) && fresh(route.annotations)
      invariant ApplyAll(opts, gs, t, EmptyRoute(gs)) == ApplyAll(opts[i..], gs, t, route.Value())
    {
      var ok := Run(opts[i], gs, t, route);
      if !ok {
        return None;
      }
      assert opts[i..][1..] == opts[i + 1..];
    }
    return Some(route.Value());
  }
}
