/** The builders that the controller's reconcilers plug into the protocol. */
module ControllerBuilders {
  import opened GameServers
  import opened CustomAnnotations
  import opened Protocol
  import IngressBuilder
  import IngressPipeline
  import RouteBuilder
  import Routing
  import ServiceBuilder

  function BuildersOf(t: TemplateEngine): Builders {
    Builders(
      gs => ServiceBuilder.BuildService(gs, t),
      gs => IngressBuilder.BuildIngress(gs, t),
      gs => RouteBuilder.BuildHTTPRoute(gs, t))
  }

  /** What a game server's annotations must satisfy for its Service and its route to be built. */
  predicate WellAnnotated(gs: GameServer, t: TemplateEngine) {
    && TemplateOk(gs.annotations, SERVICE_PREFIX, t)
    && if UsesGateway(gs)
       then && TemplateOk(gs.annotations, CUSTOM_PREFIX, t)
            && LookupOr(gs, GATEWAY_NAME, "") != "" && IngressBuilder.RulesOk(gs, RoutingMode(gs))
       else IngressPipeline.Buildable(gs, t)
  }

  /** The controller can build what it needs for a game server exactly if that is so. */
  lemma BuildsExactly(cfg: Config, gs: GameServer, t: TemplateEngine)
    requires cfg.build == BuildersOf(t)
    ensures cfg.build.service(gs).Some? && RouteBuilds(cfg, gs) <==> WellAnnotated(gs, t)
  {
    Routing.BuildServiceExactly(gs, t);
    if UsesGateway(gs) {
      Routing.BuildHTTPRouteExactly(gs, t);
    } else {
      IngressPipeline.BuildIngressExactly(gs, t);
    }
  }
}
