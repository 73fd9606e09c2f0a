/** The reconcile protocol as a state machine: one API server, controller processes with lagging
    informer caches, any number of passes in flight, outside writers, and calls that may fail.

    Every action is one atomic call, or one event outside the controller. `Step` is total: an
    action that is not enabled leaves the state alone, so a run is any list of actions. */
module Protocol {
  import opened Wrappers
  import opened GameServers
  import opened Resources

  /** Namespace and name. */
  type Key = (string, string)
  type Proc = nat
  type PassId = nat
  type Positive = n: nat | 0 < n witness 1

  function KeyOf(gs: GameServer): Key {
    (gs.namespace, gs.name)
  }

  /** What the reconcilers make of a game server; `None` is an error. The protocol holds for any. */
  datatype Builders = Builders(
    service: GameServer -> Option<Service>,
    ingress: GameServer -> Option<Ingress>,
    route: GameServer -> Option<HTTPRoute>)

  /** `gatewayEnabled`: the processes that were started with the Gateway API backend.
      `retries`: the steps of the conflict backoff (5 in `retry.DefaultRetry`). */
  datatype Config = Config(build: Builders, gatewayEnabled: set<Proc>, retries: Positive)

  // ---- The API server -------------------------------------------------------------------

  /** Who wrote an object: an outside party, or a pass of process `proc` for the event that
      carried the given version of the game server. */
  datatype Writer = External | Controller(proc: Proc, version: nat)

  datatype Stored<T> = Stored(obj: T, writer: Writer)
  datatype Version = Version(gs: GameServer, writer: Writer)

  /** The resource version of a game server is its index in `history`. */
  datatype Server = Server(
    services: map<Key, Stored<Service>>,
    ingresses: map<Key, Stored<Ingress>>,
    routes: map<Key, Stored<HTTPRoute>>,
    history: map<Key, seq<Version>>)

  function Versions(srv: Server, k: Key): seq<Version> {
    if k in srv.history then srv.history[k] else []
  }

  /** The current version of a game server. */
  function LastVersion(srv: Server, k: Key): GameServer
    requires Versions(srv, k) != []
  {
    Versions(srv, k)[|Versions(srv, k)| - 1].gs
  }

  /** Version i is the one before it with the ready key set. */
  predicate Marks(h: seq<Version>, i: nat) {
    0 < i < |h| && h[i].gs == MarkReady(h[i - 1].gs)
  }

  function Append(srv: Server, k: Key, v: Version): Server {
    srv.(history := srv.history[k := Versions(srv, k) + [v]])
  }

  /** A create call: the first object under a key stays, later ones get AlreadyExists. */
  function Create<T>(m: map<Key, Stored<T>>, k: Key, obj: T, writer: Writer): map<Key, Stored<T>> {
    if k in m then m else m[k := Stored(obj, writer)]
  }

  // ---- Caches ---------------------------------------------------------------------------

  /** What a process's informers have seen. Objects other than game servers are never changed, so
      having seen a key is all there is to know. */
  datatype Cache = Cache(services: set<Key>, ingresses: set<Key>, routes: set<Key>, gameServers: map<Key, nat>)

  const EMPTY_CACHE := Cache({}, {}, {}, map[])

  // ---- Passes ---------------------------------------------------------------------------

  datatype Kind = ServiceKind | IngressKind | HTTPRouteKind | GameServerKind
  datatype Reason = Creating | Created | Failed | Warning | Updated
  datatype Event = Event(kind: Kind, reason: Reason)

  /** `Conflict`: the retries ran out and the last conflict is returned. */
  datatype Outcome = Skipped | Succeeded | Errored | Conflict | Panicked

  /** The call a pass makes next. */
  datatype Pc =
    | GetService
    | CreateService
    | GetRoute
    | CreateRoute
    | Decide
    | ReadGameServer(left: nat)
    | UpdateGameServer(left: nat, copy: nat)
    | Finished(outcome: Outcome)

  /** The call is lost before the server acts, or its reply is lost after. */
  datatype Fault = NoFault | Rejected | LostReply

  /** One update call: the version it carried, and the version the server was at. */
  datatype Attempt = Attempt(copy: nat, current: int, fault: Fault)

  /** A run of the handler for one event: `gs` is the version of the game server in the event. */
  datatype Pass = Pass(
    proc: Proc, key: Key, version: nat, gs: GameServer,
    pc: Pc, events: seq<Event>, attempts: seq<Attempt>)

  function NewPass(proc: Proc, version: nat, gs: GameServer): Pass {
    Pass(proc, KeyOf(gs), version, gs, if Eligible(gs) then GetService else Finished(Skipped), [], [])
  }

  predicate UsesGateway(gs: GameServer) {
    RouterBackend(gs) == BACKEND_GATEWAY
  }

  function RouteKind(gs: GameServer): Kind {
    if UsesGateway(gs) then HTTPRouteKind else IngressKind
  }

  function Record(p: Pass, kind: Kind, reason: Reason): Pass {
    p.(events := p.events + [Event(kind, reason)])
  }

  function Goto(p: Pass, pc: Pc): Pass {
    p.(pc := pc)
  }

  function Fail(p: Pass): Pass {
    p.(pc := Finished(Errored))
  }

  function By(p: Pass): Writer {
    Controller(p.proc, p.version)
  }

  /** `ServiceReconciler.Reconcile` up to its create call. */
  function StepGetService(cfg: Config, cache: Cache, p: Pass, fault: Fault): Pass {
    if fault != NoFault then Fail(p)
    else if p.key in cache.services then Goto(p, GetRoute)
    else
      var q := Record(p, ServiceKind, Creating);
      if cfg.build.service(p.gs).None? then Fail(Record(q, ServiceKind, Failed))
      else Goto(q, CreateService)
  }

  /** The end of both create paths: AlreadyExists counts as success. */
  function AfterCreate(p: Pass, kind: Kind, next: Pc, fault: Fault): Pass {
    if fault != NoFault then Fail(Record(p, kind, Failed))
    else Goto(Record(p, kind, Created), next)
  }

  function StepCreateService(cfg: Config, srv: Server, p: Pass, fault: Fault): Server {
    if fault == Rejected || cfg.build.service(p.gs).None? then srv
    else srv.(services := Create(srv.services, p.key, cfg.build.service(p.gs).value, By(p)))
  }

  /** The warnings about TLS annotations that have no effect in gateway mode. */
  function Warn(p: Pass): (q: Pass)
    ensures q == p.(events := q.events)
  {
    var q := if TERMINATE_TLS in p.gs.annotations then Record(p, HTTPRouteKind, Warning) else p;
    if ISSUER in p.gs.annotations then Record(q, HTTPRouteKind, Warning) else q
  }

  predicate RouteCached(cache: Cache, p: Pass) {
    if UsesGateway(p.gs) then p.key in cache.routes else p.key in cache.ingresses
  }

  predicate RouteBuilds(cfg: Config, gs: GameServer) {
    if UsesGateway(gs)
    then cfg.build.route(gs).Some?
    else cfg.build.ingress(gs).Some?
  }

  /** The events at the start of a route's creation. */
  function StartRoute(p: Pass): (q: Pass)
    ensures q == p.(events := q.events)
  {
    if UsesGateway(p.gs) then Warn(Record(p, HTTPRouteKind, Creating)) else Record(p, IngressKind, Creating)
  }

  /** The switch on the backend, and either route reconciler up to its create call. The gateway
      reconciler exists only in processes started with the gateway backend. */
  function StepGetRoute(cfg: Config, cache: Cache, p: Pass, fault: Fault): Pass {
    if UsesGateway(p.gs) && p.proc !in cfg.gatewayEnabled then Fail(p)
    else if fault != NoFault then Fail(p)
    else if RouteCached(cache, p) then Goto(p, Decide)
    else if !RouteBuilds(cfg, p.gs) then Fail(Record(StartRoute(p), RouteKind(p.gs), Failed))
    else Goto(StartRoute(p), CreateRoute)
  }

  function StepCreateRoute(cfg: Config, srv: Server, p: Pass, fault: Fault): Server {
    if fault == Rejected then srv
    else if UsesGateway(p.gs) then
      if cfg.build.route(p.gs).None? then srv
      else srv.(routes := Create(srv.routes, p.key, cfg.build.route(p.gs).value, By(p)))
    else
      if cfg.build.ingress(p.gs).None? then srv
      else srv.(ingresses := Create(srv.ingresses, p.key, cfg.build.ingress(p.gs).value, By(p)))
  }

  /** `GameServerReconciler.MustReconcile`, on the event's version. */
  function StepDecide(cfg: Config, p: Pass): Pass {
    match NeedsReady(p.gs)
    case None => Fail(p)
    case Some(false) => Goto(p, Finished(Succeeded))
    case Some(true) => Goto(p, ReadGameServer(cfg.retries))
  }

  /** The read of the retry loop, from the cache. Writing into the absent annotation map of the
      copy panics. */
  function StepRead(srv: Server, cache: Cache, p: Pass, left: nat, fault: Fault): Pass {
    if fault != NoFault || p.key !in cache.gameServers then Fail(p)
    else
      var copy := cache.gameServers[p.key];
      if copy < |Versions(srv, p.key)| && Versions(srv, p.key)[copy].gs.annotations == map[] then Goto(p, Finished(Panicked))
      else Goto(p, UpdateGameServer(left, copy))
  }

  /** The server accepts an update that carries its current version. */
  predicate Accepts(srv: Server, k: Key, copy: nat, fault: Fault) {
    copy == |Versions(srv, k)| - 1 && fault != Rejected
  }

  /** An accepted update that changes nothing makes no version. */
  function StepUpdateServer(srv: Server, p: Pass, copy: nat, fault: Fault): Server {
    if Accepts(srv, p.key, copy, fault) && !IsMarked(Versions(srv, p.key)[copy].gs)
    then Append(srv, p.key, Version(MarkReady(Versions(srv, p.key)[copy].gs), By(p)))
    else srv
  }

  /** A conflict is retried while steps are left; every other error ends the pass. */
  function StepUpdate(srv: Server, p: Pass, left: nat, copy: nat, fault: Fault): Pass {
    var q := p.(attempts := p.attempts + [Attempt(copy, |Versions(srv, p.key)| - 1, fault)]);
    if fault != NoFault then Fail(q)
    else if copy != |Versions(srv, p.key)| - 1 then
      if left <= 1 then Goto(q, Finished(Conflict)) else Goto(q, ReadGameServer(left - 1))
    else
      var done := Goto(Record(q, GameServerKind, Updated), Finished(Succeeded));
      if CLASS_LEGACY in Versions(srv, p.key)[copy].gs.annotations
      then Record(done, GameServerKind, Updated) else done
  }

  /** The next call of a pass. */
  function StepPass(cfg: Config, srv: Server, cache: Cache, p: Pass, fault: Fault): (Server, Pass) {
    match p.pc
    case GetService => (srv, StepGetService(cfg, cache, p, fault))
    case CreateService => (StepCreateService(cfg, srv, p, fault), AfterCreate(p, ServiceKind, GetRoute, fault))
    case GetRoute => (srv, StepGetRoute(cfg, cache, p, fault))
    case CreateRoute => (StepCreateRoute(cfg, srv, p, fault), AfterCreate(p, RouteKind(p.gs), Decide, fault))
    case Decide => (srv, StepDecide(cfg, p))
    case ReadGameServer(left) => (srv, StepRead(srv, cache, p, left, fault))
    case UpdateGameServer(left, copy) => (StepUpdateServer(srv, p, copy, fault), StepUpdate(srv, p, left, copy, fault))
    case Finished(_) => (srv, p)
  }

  // ---- The whole system -----------------------------------------------------------------

  datatype State = State(server: Server, caches: map<Proc, Cache>, passes: map<PassId, Pass>)

  datatype Action =
    | ExternalWrite(gs: GameServer)
    | ExternalService(service: Service)
    | ExternalIngress(ingress: Ingress)
    | ExternalRoute(route: HTTPRoute)
    | SeeService(proc: Proc, key: Key)
    | SeeIngress(proc: Proc, key: Key)
    | SeeRoute(proc: Proc, key: Key)
    | SeeGameServer(proc: Proc, key: Key, version: nat)
    | Deliver(id: PassId, proc: Proc, key: Key, version: nat)
    | Advance(id: PassId, fault: Fault)

  function CacheOf(s: State, proc: Proc): Cache {
    if proc in s.caches then s.caches[proc] else EMPTY_CACHE
  }

  function Step(cfg: Config, s: State, a: Action): State {
    var srv := s.server;
    match a
    case ExternalWrite(gs) => s.(server := Append(srv, KeyOf(gs), Version(gs, External)))
    case ExternalService(service) =>
      s.(server := srv.(services := Create(srv.services, (service.namespace, service.name), service, External)))
    case ExternalIngress(ingress) =>
      s.(server := srv.(ingresses := Create(srv.ingresses, (ingress.namespace, ingress.name), ingress, External)))
    case ExternalRoute(route) =>
      s.(server := srv.(routes := Create(srv.routes, (route.namespace, route.name), route, External)))
    case SeeService(proc, key) =>
      if key !in srv.services then s else
        var c := CacheOf(s, proc);
        s.(caches := s.caches[proc := c.(services := c.services + {key})])
    case SeeIngress(proc, key) =>
      if key !in srv.ingresses then s else
        var c := CacheOf(s, proc);
        s.(caches := s.caches[proc := c.(ingresses := c.ingresses + {key})])
    case SeeRoute(proc, key) =>
      if key !in srv.routes then s else
        var c := CacheOf(s, proc);
        s.(caches := s.caches[proc := c.(routes := c.routes + {key})])
    case SeeGameServer(proc, key, version) =>
      var c := CacheOf(s, proc);
      if version >= |Versions(srv, key)| || (key in c.gameServers && version < c.gameServers[key]) then s else
        s.(caches := s.caches[proc := c.(gameServers := c.gameServers[key := version])])
    case Deliver(id, proc, key, version) =>
      if id in s.passes || version >= |Versions(srv, key)| then s else
        s.(passes := s.passes[id := NewPass(proc, version, Versions(srv, key)[version].gs)])
    case Advance(id, fault) =>
      if id !in s.passes then s else
        var p := s.passes[id];
        var (srv', p') := StepPass(cfg, srv, CacheOf(s, p.proc), p, fault);
        s.(server := srv', passes := s.passes[id := p'])
  }

  function Run(cfg: Config, s: State, acts: seq<Action>): State
    decreases acts
  {
    if acts == [] then s else Run(cfg, Step(cfg, s, acts[0]), acts[1..])
  }

  /** Before the controller has done anything: whatever is there, outsiders made. */
  predicate Init(s: State) {
    && s.passes == map[] && s.caches == map[]
    && (forall k | k in s.server.services :: s.server.services[k].writer == External)
    && (forall k | k in s.server.ingresses :: s.server.ingresses[k].writer == External)
    && (forall k | k in s.server.routes :: s.server.routes[k].writer == External)
    && (forall k | k in s.server.history ::
          forall i | 0 <= i < |s.server.history[k]| ::
            s.server.history[k][i].writer == External && KeyOf(s.server.history[k][i].gs) == k)
  }

  lemma {:induction false} RunAppend(cfg: Config, s: State, xs: seq<Action>, ys: seq<Action>)
    ensures Run(cfg, s, xs + ys) == Run(cfg, Run(cfg, s, xs), ys)
    decreases xs
  {
    if xs == [] {
      assert xs + ys == ys;
    } else {
      assert (xs + ys)[1..] == xs[1..] + ys;
      RunAppend(cfg, Step(cfg, s, xs[0]), xs[1..], ys);
    }
  }
}
