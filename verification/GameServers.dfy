/** The Agones GameServer as the controller reads it (pkg/gameserver). */
module GameServers {
  import opened Wrappers
  import opened GoStrings

  type Annotations = map<string, string>

  /** A status port. Its number is a 32-bit integer that is only ever copied. */
  datatype Port = Port(port: int)

  /** An absent annotation map and an empty one are the same value here. */
  datatype GameServer = GameServer(
    namespace: string,
    name: string,
    annotations: Annotations,
    state: string,
    statusPorts: seq<Port>,
    containerPorts: seq<int>)

  const MODE := "octops.io/gameserver-ingress-mode"
  const DOMAIN := "octops.io/gameserver-ingress-domain"
  const FQDN := "octops.io/gameserver-ingress-fqdn"
  const TERMINATE_TLS := "octops.io/terminate-tls"
  const TLS_SECRET := "octops.io/tls-secret-name"
  const ISSUER := "octops.io/issuer-tls-name"
  const CUSTOM_PREFIX := "octops-"
  const SERVICE_PREFIX := "octops.service-"
  const READY := "octops.io/ingress-ready"
  const CLASS := "octops.io/ingress-class-name"
  const CLASS_LEGACY := "octops-kubernetes.io/ingress.class"
  const BACKEND := "octops.io/router-backend"
  const GATEWAY_NAME := "octops.io/gateway-name"
  const GATEWAY_NAMESPACE := "octops.io/gateway-namespace"
  const GATEWAY_SECTION := "octops.io/gateway-section-name"
  const CERT_MANAGER_ISSUER := "cert-manager.io/cluster-issuer"
  const GAMESERVER_LABEL := "agones.dev/gameserver"
  const CONTROL_PREFIX := "octops.io/"

  const MODE_DOMAIN := "domain"
  const MODE_PATH := "path"
  const BACKEND_INGRESS := "ingress"
  const BACKEND_GATEWAY := "gateway"

  function Lookup(gs: GameServer, annotation: string): Option<string> {
    if annotation in gs.annotations then Some(gs.annotations[annotation]) else None
  }

  function LookupOr(gs: GameServer, annotation: string, default: string): string {
    if annotation in gs.annotations then gs.annotations[annotation] else default
  }

  /** The first status port, or the zero port. */
  function StatusPort(gs: GameServer): int {
    if |gs.statusPorts| > 0 then gs.statusPorts[0].port else 0
  }

  function ContainerPort(gs: GameServer): int {
    if |gs.containerPorts| > 0 then gs.containerPorts[0] else 0
  }

  predicate IsShutdown(gs: GameServer) {
    gs.state == "Shutdown"
  }

  predicate InReconcilableState(gs: GameServer) {
    gs.state in {"Scheduled", "RequestReady", "Ready"}
  }

  function RoutingMode(gs: GameServer): string {
    LookupOr(gs, MODE, MODE_DOMAIN)
  }

  function TLSCertIssuer(gs: GameServer): string {
    LookupOr(gs, ISSUER, "")
  }

  function IngressClassName(gs: GameServer): string {
    LookupOr(gs, CLASS, LookupOr(gs, CLASS_LEGACY, ""))
  }

  function RouterBackend(gs: GameServer): string {
    LookupOr(gs, BACKEND, BACKEND_INGRESS)
  }

  /** The three gates that let an event through to the reconcilers. */
  predicate Eligible(gs: GameServer) {
    MODE in gs.annotations && !IsShutdown(gs) && InReconcilableState(gs)
  }

  /** Whether the ready annotation still has to be written; `None` is a value that does not
      parse. */
  function NeedsReady(gs: GameServer): Option<bool> {
    if READY in gs.annotations && |gs.annotations[READY]| > 0 then
      match ParseBool(gs.annotations[READY])
      case None => None
      case Some(isReady) => Some(!isReady)
    else Some(true)
  }

  /** The ready value parses as true. */
  predicate IsReady(gs: GameServer) {
    NeedsReady(gs) == Some(false)
  }

  /** The ready value is the one the controller writes. */
  predicate IsMarked(gs: GameServer) {
    Lookup(gs, READY) == Some("true")
  }

  function MarkReady(gs: GameServer): GameServer {
    gs.(annotations := gs.annotations[READY := "true"])
  }

  /** A name Kubernetes accepts for the Service the controller names after the game server. */
  predicate WellNamed(name: string) {
    name != "" && '.' !in name && '/' !in name && NoSpace(name)
  }
}
