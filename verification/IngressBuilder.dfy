/** The Ingress options and the builder that applies them in order
    (pkg/reconcilers/ingress_options.go, ingress_reconciler.go). Each option is given twice: as a
    function on Ingress values, and as a method that mutates an Ingress in place and is proved to
    compute that function. */
module IngressBuilder {
  import opened Wrappers
  import opened GoStrings
  import opened GameServers
  import opened CustomAnnotations
  import opened Resources

  const INGRESS_CLASS_ANNOTATION := "kubernetes.io/ingress.class"

  /** The option closures, named by what they capture. */
  datatype IngressOption =
    | WithCustomAnnotations
    | WithCustomAnnotationsTemplate
    | WithIngressRule(mode: string)
    | WithTLS(mode: string)
    | WithTLSCertIssuer(issuer: string)
    | WithIngressClassName(className: string)

  // ---- The options on values ------------------------------------------------------------

  /** TLS termination asked for by the annotation; `None` when it is set but not a boolean. */
  function TerminatesTLS(gs: GameServer): Option<bool> {
    if LookupOr(gs, TERMINATE_TLS, "") == "" then Some(false) else ParseBool(gs.annotations[TERMINATE_TLS])
  }

  /** The annotation that holds the host list: only mode "path" reads the FQDN. */
  function HostAnnotation(mode: string): string {
    if mode == MODE_PATH then FQDN else DOMAIN
  }

  predicate KnownMode(mode: string) {
    mode == MODE_PATH || mode == MODE_DOMAIN
  }

  /** The entries of the host list. */
  function Entries(gs: GameServer, mode: string): seq<string> {
    Split(LookupOr(gs, HostAnnotation(mode), ""), ',')
  }

  function NewIngressRule(host: string, path: string, service: string, port: int): IngressRule {
    IngressRule(TrimSpace(host), [HTTPIngressPath(path, Prefix, service, port)])
  }

  /** The rule for one entry of the host list. */
  function RuleFor(gs: GameServer, mode: string, entry: string): IngressRule {
    if mode == MODE_PATH
    then NewIngressRule(entry, "/" + gs.name, gs.name, StatusPort(gs))
    else NewIngressRule(gs.name + "." + entry, "/", gs.name, StatusPort(gs))
  }

  /** The secret name made up for an entry when no secret is named. */
  function GeneratedSecret(entry: string, name: string): string {
    DotsToDashes(entry + "-" + name + "-tls")
  }

  /** The TLS block for one entry: domain mode does not trim its host. */
  function TLSFor(gs: GameServer, mode: string, entry: string): IngressTLS {
    var secret := LookupOr(gs, TLS_SECRET, "");
    IngressTLS(
      [if mode == MODE_PATH then TrimSpace(entry) else gs.name + "." + entry],
      if secret == "" then GeneratedSecret(entry, gs.name) else secret)
  }

  function RulesOf(gs: GameServer, mode: string): (rules: seq<IngressRule>)
    ensures |rules| == |Entries(gs, mode)|
  {
    var entries := Entries(gs, mode);
    seq(|entries|, i requires 0 <= i < |entries| => RuleFor(gs, mode, entries[i]))
  }

  function TLSOf(gs: GameServer, mode: string): (tls: seq<IngressTLS>)
    ensures |tls| == |Entries(gs, mode)|
  {
    var entries := Entries(gs, mode);
    seq(|entries|, i requires 0 <= i < |entries| => TLSFor(gs, mode, entries[i]))
  }

  /** The rule option needs a known mode and a host annotation that is present and not empty. */
  predicate RulesOk(gs: GameServer, mode: string) {
    KnownMode(mode) && LookupOr(gs, HostAnnotation(mode), "") != ""
  }

  /** The TLS option, when it terminates, needs a host annotation, and a secret annotation that is
      absent or not empty. */
  predicate TLSOk(gs: GameServer, mode: string) {
    match TerminatesTLS(gs)
    case None => false
    case Some(false) => true
    case Some(true) => Lookup(gs, TLS_SECRET) != Some("") && HostAnnotation(mode) in gs.annotations
  }

  /** Whether an option succeeds. It never looks at the Ingress it is given. */
  predicate Succeeds(o: IngressOption, gs: GameServer, t: TemplateEngine) {
    match o
    case WithCustomAnnotations => PlainOk(gs.annotations, CUSTOM_PREFIX)
    case WithCustomAnnotationsTemplate => TemplateOk(gs.annotations, CUSTOM_PREFIX, t)
    case WithIngressRule(mode) => RulesOk(gs, mode)
    case WithTLS(mode) => TLSOk(gs, mode)
    case WithTLSCertIssuer(issuer) =>
      TerminatesTLS(gs).Some? && (TerminatesTLS(gs).value ==> issuer != "")
    case WithIngressClassName(className) => className != ""
  }

  /** What an option that succeeds makes of an Ingress. */
  function Update(o: IngressOption, gs: GameServer, t: TemplateEngine, v: Ingress): Ingress {
    match o
    case WithCustomAnnotations =>
      v.(annotations := v.annotations + Forwarded(gs.annotations, CUSTOM_PREFIX))
    case WithCustomAnnotationsTemplate =>
      v.(annotations := v.annotations + Rendered(gs.annotations, CUSTOM_PREFIX, t, gs.name, StatusPort(gs)))
    case WithIngressRule(mode) => v.(rules := RulesOf(gs, mode))
    case WithTLS(mode) => if TerminatesTLS(gs) == Some(true) then v.(tls := TLSOf(gs, mode)) else v
    case WithTLSCertIssuer(issuer) =>
      if TerminatesTLS(gs) == Some(true) then v.(annotations := v.annotations[CERT_MANAGER_ISSUER := issuer]) else v
    case WithIngressClassName(className) =>
      v.(annotations := v.annotations - {INGRESS_CLASS_ANNOTATION}, className := Some(className))
  }

  /** Applying a list of options, stopping at the first failure. */
  function ApplyAll(opts: seq<IngressOption>, gs: GameServer, t: TemplateEngine, v: Ingress): Option<Ingress> {
    if opts == [] then Some(v)
    else if Succeeds(opts[0], gs, t) then ApplyAll(opts[1..], gs, t, Update(opts[0], gs, t, v))
    else None
  }

  function EmptyIngress(gs: GameServer): Ingress {
    Ingress(gs.namespace, gs.name, GameServerLabels(gs), map[], [], [], None)
  }

  /** The option list of the reconciler: the issuer option only when an issuer is named. */
  function IngressOptions(gs: GameServer): seq<IngressOption> {
    [ WithCustomAnnotations,
      WithCustomAnnotationsTemplate,
      WithIngressRule(RoutingMode(gs)),
      WithTLS(RoutingMode(gs)),
      WithIngressClassName(IngressClassName(gs)) ]
    + if TLSCertIssuer(gs) != "" then [WithTLSCertIssuer(TLSCertIssuer(gs))] else []
  }

  function BuildIngress(gs: GameServer, t: TemplateEngine): Option<Ingress> {
    ApplyAll(IngressOptions(gs), gs, t, EmptyIngress(gs))
  }

  // ---- The options in place -------------------------------------------------------------

  /** An Ingress under construction. */
  class IngressObject {
    const namespace: string
    const name: string
    const labels: map<string, string>
    const annotations: AnnotationMap
    var rules: seq<IngressRule>
    var tls: seq<IngressTLS>
    var className: Option<string>

    constructor (gs: GameServer)
      ensures Value() == EmptyIngress(gs)
      ensures fresh(annotations)
    {
      namespace, name, labels := gs.namespace, gs.name, GameServerLabels(gs);
      annotations := new AnnotationMap();
      rules, tls, className := [], [], None;
    }

    function Value(): Ingress
      reads this, annotations
    {
      Ingress(namespace, name, labels, annotations.m, rules, tls, className)
    }
  }

  method SetIngressRule(mode: string, gs: GameServer, ingress: IngressObject) returns (ok: bool)
    modifies ingress
    ensures ok <==> RulesOk(gs, mode)
    ensures ok ==> ingress.Value() == old(ingress.Value()).(rules := RulesOf(gs, mode))
  {
    var rules: seq<IngressRule> := [];
    if mode == MODE_PATH {
      var fqdns := Lookup(gs, FQDN);
      if fqdns.None? || |fqdns.value| == 0 {
        return false;
      }
      var entries := Split(fqdns.value, ',');
      for i := 0 to |entries|
        invariant |rules| == i && forall j | 0 <= j < i :: rules[j] == RuleFor(gs, mode, entries[j])
      {
        rules := rules + [NewIngressRule(entries[i], "/" + gs.name, gs.name, StatusPort(gs))];
      }
    } else if mode == MODE_DOMAIN {
      var domains := Lookup(gs, DOMAIN);
      if domains.None? || |domains.value| == 0 {
        return false;
      }
      var entries := Split(domains.value, ',');
      for i := 0 to |entries|
        invariant |rules| == i && forall j | 0 <= j < i :: rules[j] == RuleFor(gs, mode, entries[j])
      {
        var host := gs.name + "." + entries[i];
        rules := rules + [NewIngressRule(host, "/", gs.name, StatusPort(gs))];
      }
    } else {
      return false;
    }
    ingress.rules := rules;
    return true;
  }

  /** The loop body of both TLS branches. */
  method NewTLS(entry: string, mode: string, secret: string, gs: GameServer) returns (tls: IngressTLS)
    requires secret == LookupOr(gs, TLS_SECRET, "")
    ensures tls == TLSFor(gs, mode, entry)
  {
    var tlsSecret := secret;
    if secret == "" {
      tlsSecret := GeneratedSecret(entry, gs.name);
    }
    var host := if mode == MODE_PATH then TrimSpace(entry) else gs.name + "." + entry;
    tls := IngressTLS([host], tlsSecret);
  }

  /** A slice of the final length, filled index by index. */
  method FillTLS(entries: seq<string>, mode: string, secret: string, gs: GameServer) returns (tls: array<IngressTLS>)
    requires secret == LookupOr(gs, TLS_SECRET, "")
    ensures fresh(tls) && tls.Length == |entries|
    ensures forall i | 0 <= i < |entries| :: tls[i] == TLSFor(gs, mode, entries[i])
  {
    tls := new IngressTLS[|entries|];
    for i := 0 to |entries|
      invariant forall j | 0 <= j < i :: tls[j] == TLSFor(gs, mode, entries[j])
    {
      tls[i] := NewTLS(entries[i], mode, secret, gs);
    }
  }

  method SetTLS(mode: string, gs: GameServer, ingress: IngressObject) returns (ok: bool)
    modifies ingress
    ensures ok <==> TLSOk(gs, mode)
    ensures ok ==> ingress.Value() == if TerminatesTLS(gs) == Some(true)
                                      then old(ingress.Value()).(tls := TLSOf(gs, mode)) else old(ingress.Value())
  {
    var terminate := Lookup(gs, TERMINATE_TLS);
    if terminate.None? || |terminate.value| == 0 {
      return true;
    }
    var terminateTLS := ParseBool(terminate.value);
    if terminateTLS.None? {
      return false;
    }
    if !terminateTLS.value {
      return true;
    }
    var secret := Lookup(gs, TLS_SECRET);
    if secret.Some? && secret.value == "" {
      return false;
    }
    var hosts := if mode == MODE_PATH then Lookup(gs, FQDN) else Lookup(gs, DOMAIN);
    if hosts.None? {
      return false;
    }
    var tls := FillTLS(Split(hosts.value, ','), mode, LookupOr(gs, TLS_SECRET, ""), gs);
    assert tls[..] == TLSOf(gs, mode);
    ingress.tls := tls[..];
    return true;
  }

  /** Running one option on an Ingress in place. */
  method Run(o: IngressOption, gs: GameServer, t: TemplateEngine, ingress: IngressObject) returns (ok: bool)
    modifies ingress, ingress.annotations
    ensures ok <==> Succeeds(o, gs, t)
    ensures ok ==> ingress.Value() == Update(o, gs, t, old(ingress.Value()))
  {
    match o
    case WithCustomAnnotations =>
      ok := ForwardPlain(gs.annotations, CUSTOM_PREFIX, ingress.annotations);
    case WithCustomAnnotationsTemplate =>
      ok := ForwardRendered(gs.annotations, CUSTOM_PREFIX, t, gs.name, StatusPort(gs), ingress.annotations);
    case WithIngressRule(mode) =>
      ok := SetIngressRule(mode, gs, ingress);
    case WithTLS(mode) =>
      ok := SetTLS(mode, gs, ingress);
    case WithTLSCertIssuer(issuer) =>
      var terminate := Lookup(gs, TERMINATE_TLS);
      if terminate.None? || |terminate.value| == 0 {
        return true;
      }
      var terminateTLS := ParseBool(terminate.value);
      if terminateTLS.None? {
        return false;
      }
      if !terminateTLS.value {
        return true;
      }
      if |issuer| == 0 {
        return false;
      }
      ingress.annotations.m := ingress.annotations.m[CERT_MANAGER_ISSUER := issuer];
      ok := true;
    case WithIngressClassName(className) =>
      if className == "" {
        return false;
      }
      ingress.annotations.m := ingress.annotations.m - {INGRESS_CLASS_ANNOTATION};
      ingress.className := Some(className);
      ok := true;
  }

  /** `newIngress`: a fresh Ingress, mutated by each option in turn, dropped at the first error. */
  method NewIngress(gs: GameServer, t: TemplateEngine, opts: seq<IngressOption>) returns (result: Option<Ingress>)
    ensures result == ApplyAll(opts, gs, t, EmptyIngress(gs))
  {
    var ingress := new IngressObject(gs);
    for i := 0 to |opts|
      invariant fresh(ingress) && fresh(ingress.annotations)
      invariant ApplyAll(opts, gs, t, EmptyIngress(gs)) == ApplyAll(opts[i..], gs, t, ingress.Value())
    {
      var ok := Run(opts[i], gs, t, ingress);
      if !ok {
        return None;
      }
      assert opts[i..][1..] == opts[i + 1..];
    }
    return Some(ingress.Value());
  }
}
