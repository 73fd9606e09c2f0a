/** The inductive invariant of the protocol: what every action keeps. */
module Invariant {
  import opened Wrappers
  import opened GameServers
  import opened Resources
  import opened Protocol

  // ---- Growth: nothing the server holds is ever changed or removed ------------------------

  predicate Kept<T(==)>(m: map<Key, Stored<T>>, n: map<Key, Stored<T>>) {
    forall k | k in m :: k in n && n[k] == m[k]
  }

  ghost predicate Grows(a: Server, b: Server) {
    && Kept(a.services, b.services)
    && Kept(a.ingresses, b.ingresses)
    && Kept(a.routes, b.routes)
    && forall k :: Versions(a, k) <= Versions(b, k)
  }

  // ---- What is stored -------------------------------------------------------------------

  /** The route object that a game server's backend calls for. */
  predicate RouteHeld(srv: Server, k: Key, gs: GameServer) {
    if UsesGateway(gs) then k in srv.routes else k in srv.ingresses
  }

  /** A pass of `proc` for `gs` may be past its route. */
  predicate Routed(cfg: Config, srv: Server, proc: Proc, k: Key, gs: GameServer) {
    Eligible(gs) && k in srv.services && RouteHeld(srv, k, gs) && (UsesGateway(gs) ==> proc in cfg.gatewayEnabled)
  }

  /** The event a writer worked from. */
  predicate Origin(srv: Server, k: Key, w: Writer) {
    w.Controller? ==> w.version < |Versions(srv, k)| && Eligible(Versions(srv, k)[w.version].gs)
  }

  predicate ServiceOk(cfg: Config, srv: Server, k: Key, s: Stored<Service>) {
    && Origin(srv, k, s.writer)
    && (s.writer.Controller? ==>
          cfg.build.service(Versions(srv, k)[s.writer.version].gs) == Some(s.obj))
  }

  predicate IngressOk(cfg: Config, srv: Server, k: Key, s: Stored<Ingress>) {
    && Origin(srv, k, s.writer)
    && (s.writer.Controller? ==>
          && !UsesGateway(Versions(srv, k)[s.writer.version].gs)
          && cfg.build.ingress(Versions(srv, k)[s.writer.version].gs) == Some(s.obj))
  }

  predicate RouteOk(cfg: Config, srv: Server, k: Key, s: Stored<HTTPRoute>) {
    && Origin(srv, k, s.writer)
    && (s.writer.Controller? ==>
          && UsesGateway(Versions(srv, k)[s.writer.version].gs)
          && s.writer.proc in cfg.gatewayEnabled
          && cfg.build.route(Versions(srv, k)[s.writer.version].gs) == Some(s.obj))
  }

  /** A version the controller wrote: the version before it, which had annotations and no ready value of
      its own, with the ready key set, by a pass whose event came earlier, wanted the ready key, and whose
      Service and route are there. */
  predicate VersionOk(cfg: Config, srv: Server, k: Key, i: nat)
    requires i < |Versions(srv, k)|
  {
    var h := Versions(srv, k);
    && KeyOf(h[i].gs) == k
    && (h[i].writer.Controller? ==>
          && h[i].writer.version < i
          && Marks(h, i) && !IsMarked(h[i - 1].gs) && h[i - 1].gs.annotations != map[]
          && NeedsReady(h[h[i].writer.version].gs) == Some(true)
          && Routed(cfg, srv, h[i].writer.proc, k, h[h[i].writer.version].gs))
  }

  ghost predicate ServerOk(cfg: Config, srv: Server) {
    && (forall k | k in srv.services :: ServiceOk(cfg, srv, k, srv.services[k]))
    && (forall k | k in srv.ingresses :: IngressOk(cfg, srv, k, srv.ingresses[k]))
    && (forall k | k in srv.routes :: RouteOk(cfg, srv, k, srv.routes[k]))
    && (forall k, i: nat | i < |Versions(srv, k)| :: VersionOk(cfg, srv, k, i))
  }

  // ---- Caches and passes ----------------------------------------------------------------

  predicate CacheOk(srv: Server, c: Cache) {
    && c.services <= srv.services.Keys
    && c.ingresses <= srv.ingresses.Keys
    && c.routes <= srv.routes.Keys
    && forall k | k in c.gameServers :: c.gameServers[k] < |Versions(srv, k)|
  }

  /** What holds at each program point of a pass. */
  predicate StageOk(cfg: Config, srv: Server, p: Pass) {
    match p.pc
    case GetService => Eligible(p.gs)
    case CreateService => Eligible(p.gs) && cfg.build.service(p.gs).Some?
    case GetRoute => Eligible(p.gs) && p.key in srv.services
    case CreateRoute =>
      && Eligible(p.gs) && p.key in srv.services && RouteBuilds(cfg, p.gs)
      && (UsesGateway(p.gs) ==> p.proc in cfg.gatewayEnabled)
    case Decide => Routed(cfg, srv, p.proc, p.key, p.gs)
    case ReadGameServer(left) =>
      Routed(cfg, srv, p.proc, p.key, p.gs) && NeedsReady(p.gs) == Some(true)
    case UpdateGameServer(left, copy) =>
      && Routed(cfg, srv, p.proc, p.key, p.gs) && NeedsReady(p.gs) == Some(true)
      && copy < |Versions(srv, p.key)| && Versions(srv, p.key)[copy].gs.annotations != map[]
    case Finished(Succeeded) => Routed(cfg, srv, p.proc, p.key, p.gs) && NeedsReady(p.gs).Some?
    case Finished(Skipped) => !Eligible(p.gs)
    case Finished(_) => Eligible(p.gs)
  }

  /** The event a pass works on is a version of its game server. */
  predicate PassOk(cfg: Config, srv: Server, p: Pass) {
    && p.version < |Versions(srv, p.key)|
    && Versions(srv, p.key)[p.version].gs == p.gs
    && StageOk(cfg, srv, p)
  }

  ghost predicate StateOk(cfg: Config, s: State) {
    && ServerOk(cfg, s.server)
    && (forall proc | proc in s.caches :: CacheOk(s.server, s.caches[proc]))
    && (forall id | id in s.passes :: PassOk(cfg, s.server, s.passes[id]))
  }

  // ---- Growth keeps everything that holds of the rest -------------------------------------

  lemma GrowthKeepsPass(cfg: Config, a: Server, b: Server, p: Pass)
    requires Grows(a, b) && PassOk(cfg, a, p)
    ensures PassOk(cfg, b, p)
  {
    assert Versions(a, p.key) <= Versions(b, p.key);
  }

  lemma GrowthKeepsCache(a: Server, b: Server, c: Cache)
    requires Grows(a, b) && CacheOk(a, c)
    ensures CacheOk(b, c)
  {
    forall k | k in c.gameServers ensures c.gameServers[k] < |Versions(b, k)| {
      assert Versions(a, k) <= Versions(b, k);
    }
  }

  lemma GrowthKeepsVersion(cfg: Config, a: Server, b: Server, k: Key, i: nat)
    requires Grows(a, b) && i < |Versions(a, k)| && VersionOk(cfg, a, k, i)
    ensures i < |Versions(b, k)| && Versions(b, k)[i] == Versions(a, k)[i] && VersionOk(cfg, b, k, i)
  {
    assert Versions(a, k) <= Versions(b, k);
  }

  /** A server that only gained sound objects is sound. */
  lemma GrowthKeepsServer(cfg: Config, a: Server, b: Server)
    requires ServerOk(cfg, a) && Grows(a, b)
    requires forall k | k in b.services && k !in a.services :: ServiceOk(cfg, b, k, b.services[k])
    requires forall k | k in b.ingresses && k !in a.ingresses :: IngressOk(cfg, b, k, b.ingresses[k])
    requires forall k | k in b.routes && k !in a.routes :: RouteOk(cfg, b, k, b.routes[k])
    requires forall k, i: nat | |Versions(a, k)| <= i < |Versions(b, k)| :: VersionOk(cfg, b, k, i)
    ensures ServerOk(cfg, b)
  {
    forall k | k in b.services ensures ServiceOk(cfg, b, k, b.services[k]) {
      assert Versions(a, k) <= Versions(b, k);
    }
    forall k | k in b.ingresses ensures IngressOk(cfg, b, k, b.ingresses[k]) {
      assert Versions(a, k) <= Versions(b, k);
    }
    forall k | k in b.routes ensures RouteOk(cfg, b, k, b.routes[k]) {
      assert Versions(a, k) <= Versions(b, k);
    }
    forall k, i: nat | i < |Versions(b, k)| ensures VersionOk(cfg, b, k, i) {
      if i < |Versions(a, k)| {
        GrowthKeepsVersion(cfg, a, b, k, i);
      }
    }
  }

  // ---- The server's three kinds of change --------------------------------------------------

  lemma AppendGrows(srv: Server, k: Key, v: Version)
    ensures Grows(srv, Append(srv, k, v))
    ensures forall k' :: Versions(Append(srv, k, v), k') == Versions(srv, k') + if k' == k then [v] else []
  {
  }

  lemma AppendKeepsServer(cfg: Config, srv: Server, k: Key, v: Version)
    requires ServerOk(cfg, srv)
    requires VersionOk(cfg, Append(srv, k, v), k, |Versions(srv, k)|)
    ensures Grows(srv, Append(srv, k, v)) && ServerOk(cfg, Append(srv, k, v))
  {
    AppendGrows(srv, k, v);
    GrowthKeepsServer(cfg, srv, Append(srv, k, v));
  }

  lemma CreateServiceKeepsServer(cfg: Config, srv: Server, k: Key, obj: Service, w: Writer)
    requires ServerOk(cfg, srv) && ServiceOk(cfg, srv, k, Stored(obj, w))
    ensures var srv' := srv.(services := Create(srv.services, k, obj, w)); Grows(srv, srv') && ServerOk(cfg, srv')
  {
    GrowthKeepsServer(cfg, srv, srv.(services := Create(srv.services, k, obj, w)));
  }

  lemma CreateIngressKeepsServer(cfg: Config, srv: Server, k: Key, obj: Ingress, w: Writer)
    requires ServerOk(cfg, srv) && IngressOk(cfg, srv, k, Stored(obj, w))
    ensures var srv' := srv.(ingresses := Create(srv.ingresses, k, obj, w)); Grows(srv, srv') && ServerOk(cfg, srv')
  {
    GrowthKeepsServer(cfg, srv, srv.(ingresses := Create(srv.ingresses, k, obj, w)));
  }

  lemma CreateRouteKeepsServer(cfg: Config, srv: Server, k: Key, obj: HTTPRoute, w: Writer)
    requires ServerOk(cfg, srv) && RouteOk(cfg, srv, k, Stored(obj, w))
    ensures var srv' := srv.(routes := Create(srv.routes, k, obj, w)); Grows(srv, srv') && ServerOk(cfg, srv')
  {
    GrowthKeepsServer(cfg, srv, srv.(routes := Create(srv.routes, k, obj, w)));
  }

  // ---- One step of one pass ----------------------------------------------------------------

  lemma StepCreateServiceKeeps(cfg: Config, srv: Server, p: Pass, fault: Fault)
    requires ServerOk(cfg, srv) && PassOk(cfg, srv, p) && p.pc == CreateService
    ensures var srv' := StepCreateService(cfg, srv, p, fault);
            Grows(srv, srv') && ServerOk(cfg, srv') && PassOk(cfg, srv', AfterCreate(p, ServiceKind, GetRoute, fault))
  {
    var obj := cfg.build.service(p.gs).value;
    assert ServiceOk(cfg, srv, p.key, Stored(obj, By(p)));
    CreateServiceKeepsServer(cfg, srv, p.key, obj, By(p));
  }

  lemma StepCreateRouteKeeps(cfg: Config, srv: Server, p: Pass, fault: Fault)
    requires ServerOk(cfg, srv) && PassOk(cfg, srv, p) && p.pc == CreateRoute
    ensures var srv' := StepCreateRoute(cfg, srv, p, fault);
            Grows(srv, srv') && ServerOk(cfg, srv') && PassOk(cfg, srv', AfterCreate(p, RouteKind(p.gs), Decide, fault))
  {
    if UsesGateway(p.gs) {
      var obj := cfg.build.route(p.gs).value;
      assert RouteOk(cfg, srv, p.key, Stored(obj, By(p)));
      CreateRouteKeepsServer(cfg, srv, p.key, obj, By(p));
    } else {
      var obj := cfg.build.ingress(p.gs).value;
      assert IngressOk(cfg, srv, p.key, Stored(obj, By(p)));
      CreateIngressKeepsServer(cfg, srv, p.key, obj, By(p));
    }
  }

  lemma StepPassKeeps(cfg: Config, srv: Server, cache: Cache, p: Pass, fault: Fault)
    requires ServerOk(cfg, srv) && CacheOk(srv, cache) && PassOk(cfg, srv, p)
    ensures var (srv', p') := StepPass(cfg, srv, cache, p, fault);
            Grows(srv, srv') && ServerOk(cfg, srv') && PassOk(cfg, srv', p')
  {
    match p.pc
    case CreateService => StepCreateServiceKeeps(cfg, srv, p, fault);
    case CreateRoute => StepCreateRouteKeeps(cfg, srv, p, fault);
    case UpdateGameServer(left, copy) => StepUpdateKeeps(cfg, srv, p, left, copy, fault);
    case GetService => StepGetServiceKeeps(cfg, srv, cache, p, fault);
    case GetRoute => StepGetRouteKeeps(cfg, srv, cache, p, fault);
    case Decide => StepDecideKeeps(cfg, srv, p);
    case ReadGameServer(left) => StepReadKeeps(cfg, srv, cache, p, left, fault);
    case Finished(_) =>
  }

  lemma StepGetServiceKeeps(cfg: Config, srv: Server, cache: Cache, p: Pass, fault: Fault)
    requires CacheOk(srv, cache) && PassOk(cfg, srv, p) && p.pc == GetService
    ensures PassOk(cfg, srv, StepGetService(cfg, cache, p, fault))
  {
  }

  lemma StepGetRouteKeeps(cfg: Config, srv: Server, cache: Cache, p: Pass, fault: Fault)
    requires CacheOk(srv, cache) && PassOk(cfg, srv, p) && p.pc == GetRoute
    ensures PassOk(cfg, srv, StepGetRoute(cfg, cache, p, fault))
  {
  }

  lemma StepDecideKeeps(cfg: Config, srv: Server, p: Pass)
    requires PassOk(cfg, srv, p) && p.pc == Decide
    ensures PassOk(cfg, srv, StepDecide(cfg, p))
  {
  }

  lemma StepReadKeeps(cfg: Config, srv: Server, cache: Cache, p: Pass, left: nat, fault: Fault)
    requires CacheOk(srv, cache) && PassOk(cfg, srv, p) && p.pc == ReadGameServer(left)
    ensures PassOk(cfg, srv, StepRead(srv, cache, p, left, fault))
  {
  }

  lemma StepUpdateKeeps(cfg: Config, srv: Server, p: Pass, left: nat, copy: nat, fault: Fault)
    requires ServerOk(cfg, srv) && PassOk(cfg, srv, p) && p.pc == UpdateGameServer(left, copy)
    ensures var srv' := StepUpdateServer(srv, p, copy, fault);
            Grows(srv, srv') && ServerOk(cfg, srv') && PassOk(cfg, srv', StepUpdate(srv, p, left, copy, fault))
  {
    if Accepts(srv, p.key, copy, fault) && !IsMarked(Versions(srv, p.key)[copy].gs) {
      assert VersionOk(cfg, srv, p.key, copy);
      var v := Version(MarkReady(Versions(srv, p.key)[copy].gs), By(p));
      AppendGrows(srv, p.key, v);
      AppendKeepsServer(cfg, srv, p.key, v);
    }
  }

  // ---- Every step, every run ---------------------------------------------------------------

  lemma StepKeepsServer(cfg: Config, s: State, a: Action)
    requires StateOk(cfg, s)
    ensures Grows(s.server, Step(cfg, s, a).server) && ServerOk(cfg, Step(cfg, s, a).server)
  {
    var srv := s.server;
    match a
    case ExternalWrite(gs) => AppendKeepsServer(cfg, srv, KeyOf(gs), Version(gs, External));
    case ExternalService(service) =>
      CreateServiceKeepsServer(cfg, srv, (service.namespace, service.name), service, External);
    case ExternalIngress(ingress) =>
      CreateIngressKeepsServer(cfg, srv, (ingress.namespace, ingress.name), ingress, External);
    case ExternalRoute(route) =>
      CreateRouteKeepsServer(cfg, srv, (route.namespace, route.name), route, External);
    case Advance(id, fault) => AdvanceKeepsServer(cfg, s, id, fault);
    case _ =>
  }

  lemma AdvanceKeepsServer(cfg: Config, s: State, id: PassId, fault: Fault)
    requires StateOk(cfg, s)
    ensures var t := Step(cfg, s, Advance(id, fault)); Grows(s.server, t.server) && ServerOk(cfg, t.server)
  {
    if id in s.passes {
      StepPassKeeps(cfg, s.server, CacheOf(s, s.passes[id].proc), s.passes[id], fault);
    }
  }

  lemma DeliveredPassOk(cfg: Config, srv: Server, proc: Proc, key: Key, version: nat)
    requires ServerOk(cfg, srv) && version < |Versions(srv, key)|
    ensures PassOk(cfg, srv, NewPass(proc, version, Versions(srv, key)[version].gs))
  {
    assert VersionOk(cfg, srv, key, version);
  }

  /** A pass is the one it was, or it was just delivered, or it took the step. */
  lemma PassesAfterStep(cfg: Config, s: State, a: Action, id: PassId)
    requires id in Step(cfg, s, a).passes
    ensures
      || (id in s.passes && Step(cfg, s, a).passes[id] == s.passes[id])
      || (a.Deliver? && a.id == id && id !in s.passes && a.version < |Versions(s.server, a.key)|
          && Step(cfg, s, a).server == s.server
          && Step(cfg, s, a).passes[id] == NewPass(a.proc, a.version, Versions(s.server, a.key)[a.version].gs))
      || (a.Advance? && a.id == id && id in s.passes
          && (Step(cfg, s, a).server, Step(cfg, s, a).passes[id])
             == StepPass(cfg, s.server, CacheOf(s, s.passes[id].proc), s.passes[id], a.fault))
  {
  }

  lemma StepKeepsPasses(cfg: Config, s: State, a: Action, id: PassId)
    requires StateOk(cfg, s) && id in Step(cfg, s, a).passes
    ensures PassOk(cfg, Step(cfg, s, a).server, Step(cfg, s, a).passes[id])
  {
    PassesAfterStep(cfg, s, a, id);
    if id in s.passes && Step(cfg, s, a).passes[id] == s.passes[id] {
      StepKeepsServer(cfg, s, a);
      GrowthKeepsPass(cfg, s.server, Step(cfg, s, a).server, s.passes[id]);
    } else if a.Deliver? {
      DeliveredPassOk(cfg, s.server, a.proc, a.key, a.version);
    } else {
      StepPassKeeps(cfg, s.server, CacheOf(s, s.passes[id].proc), s.passes[id], a.fault);
    }
  }

  predicate Sees(a: Action) {
    a.SeeService? || a.SeeIngress? || a.SeeRoute? || a.SeeGameServer?
  }

  lemma OnlySeeingChangesCaches(cfg: Config, s: State, a: Action)
    requires !Sees(a)
    ensures Step(cfg, s, a).caches == s.caches
  {
  }

  lemma SeeingKeepsCaches(cfg: Config, s: State, a: Action, proc: Proc)
    requires StateOk(cfg, s) && Sees(a) && proc in Step(cfg, s, a).caches
    ensures CacheOk(Step(cfg, s, a).server, Step(cfg, s, a).caches[proc])
  {
  }

  lemma StepKeepsCaches(cfg: Config, s: State, a: Action, proc: Proc)
    requires StateOk(cfg, s) && proc in Step(cfg, s, a).caches
    ensures CacheOk(Step(cfg, s, a).server, Step(cfg, s, a).caches[proc])
  {
    if Sees(a) {
      SeeingKeepsCaches(cfg, s, a, proc);
    } else {
      OnlySeeingChangesCaches(cfg, s, a);
      StepKeepsServer(cfg, s, a);
      GrowthKeepsCache(s.server, Step(cfg, s, a).server, s.caches[proc]);
    }
  }

  lemma StepKeeps(cfg: Config, s: State, a: Action)
    requires StateOk(cfg, s)
    ensures StateOk(cfg, Step(cfg, s, a)) && Grows(s.server, Step(cfg, s, a).server)
  {
    StepKeepsServer(cfg, s, a);
    forall proc | proc in Step(cfg, s, a).caches ensures CacheOk(Step(cfg, s, a).server, Step(cfg, s, a).caches[proc]) {
      StepKeepsCaches(cfg, s, a, proc);
    }
    forall id | id in Step(cfg, s, a).passes ensures PassOk(cfg, Step(cfg, s, a).server, Step(cfg, s, a).passes[id]) {
      StepKeepsPasses(cfg, s, a, id);
    }
  }

  lemma InitOk(cfg: Config, s: State)
    requires Init(s)
    ensures StateOk(cfg, s)
  {
  }

  lemma GrowsTransitive(a: Server, b: Server, c: Server)
    requires Grows(a, b) && Grows(b, c)
    ensures Grows(a, c)
  {
    forall k ensures Versions(a, k) <= Versions(c, k) {
      assert Versions(a, k) <= Versions(b, k) <= Versions(c, k);
    }
  }

  /** The invariant holds after every run from a sound state, and the server only grows. */
  lemma {:induction false} RunKeeps(cfg: Config, s: State, acts: seq<Action>)
    requires StateOk(cfg, s)
    ensures StateOk(cfg, Run(cfg, s, acts)) && Grows(s.server, Run(cfg, s, acts).server)
    decreases acts
  {
    if acts != [] {
      StepKeeps(cfg, s, acts[0]);
      RunKeeps(cfg, Step(cfg, s, acts[0]), acts[1..]);
      GrowsTransitive(s.server, Step(cfg, s, acts[0]).server, Run(cfg, s, acts).server);
    }
  }
}
