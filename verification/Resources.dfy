/** The Kubernetes objects the controller creates, reduced to the fields it sets. Owner
    references are not part of this model. */
module Resources {
  import opened Wrappers
  import opened GameServers

  /** The only path type the controller asks for. */
  datatype PathType = Prefix

  // networking.k8s.io/v1 Ingress
  datatype HTTPIngressPath = HTTPIngressPath(path: string, pathType: PathType, service: string, port: int)
  datatype IngressRule = IngressRule(host: string, paths: seq<HTTPIngressPath>)
  datatype IngressTLS = IngressTLS(hosts: seq<string>, secretName: string)
  datatype Ingress = Ingress(
    namespace: string, name: string, labels: map<string, string>, annotations: Annotations,
    rules: seq<IngressRule>, tls: seq<IngressTLS>, className: Option<string>)

  // gateway.networking.k8s.io/v1 HTTPRoute
  datatype ParentRef = ParentRef(name: string, namespace: Option<string>, section: Option<string>)
  datatype PathMatch = PathMatch(kind: PathType, value: string)
  datatype BackendRef = BackendRef(name: string, port: int)
  datatype HTTPRouteRule = HTTPRouteRule(matches: seq<PathMatch>, backendRefs: seq<BackendRef>)
  datatype HTTPRoute = HTTPRoute(
    namespace: string, name: string, labels: map<string, string>, annotations: Annotations,
    parentRefs: seq<ParentRef>, hostnames: seq<string>, rules: seq<HTTPRouteRule>)

  // core/v1 Service
  datatype ServicePort = ServicePort(name: string, port: int, targetPort: int)
  datatype Service = Service(
    namespace: string, name: string, labels: map<string, string>, annotations: Annotations,
    clusterIP: string, ports: seq<ServicePort>, selector: map<string, string>)

  function GameServerLabels(gs: GameServer): map<string, string> {
    map[GAMESERVER_LABEL := gs.name]
  }
}
