/** The handler and the reconcilers as the controller runs them (pkg/handlers/gameserver_handler.go,
    pkg/reconcilers). Their contracts say that every execution is a run of the protocol in which the
    shadow pass ends as the code does, so that what is proved of runs holds of the code. */
module Handler {
  import opened Wrappers
  import opened GoStrings
  import opened GameServers
  import opened Protocol
  import opened Invariant
  import opened PassLogs
  import opened Safety
  import opened Cluster
  import opened CustomAnnotations
  import opened ControllerBuilders
  import opened Promises
  import ServiceBuilder
  import IngressBuilder
  import RouteBuilder

  /** The code and its shadow are at the same point, with the same events recorded. */
  ghost predicate At(world: World, recorder: EventRecorder, me: PassId, gs: GameServer, pc: Pc)
    reads world, recorder
  {
    && world.Valid() && me in world.state.passes
    && var p := world.state.passes[me];
       p.gs == gs && p.key == KeyOf(gs) && p.pc == pc && p.events == recorder.events
  }

  class ServiceReconciler {
    const world: World
    const recorder: EventRecorder
    const templates: TemplateEngine

    constructor (world: World, recorder: EventRecorder, templates: TemplateEngine)
      ensures this.world == world && this.recorder == recorder && this.templates == templates
    {
      this.world, this.recorder, this.templates := world, recorder, templates;
    }

    /** The protocol builds what this reconciler builds. */
    ghost predicate Wired() {
      world.cfg.build == BuildersOf(templates)
    }

    method Reconcile(me: PassId, gs: GameServer) returns (ok: bool)
      requires Wired() && At(world, recorder, me, gs, GetService)
      modifies world, recorder
      ensures old(world.trace) < world.trace && SameProc(world, me, old(world.state))
      ensures At(world, recorder, me, gs, if ok then GetRoute else Finished(Errored))
    {
      var r, before, fault := world.GetService(me);
      match r
      case ReadError => return false;
      case Found => return true;
      case NotFound =>
        recorder.Record(ServiceKind, Creating);
        var service := ServiceBuilder.NewService(gs, templates, ServiceBuilder.SERVICE_OPTIONS);
        if service.None? {
          recorder.Record(ServiceKind, Failed);
          return false;
        }
        var created, before', fault' := world.CreateService(me, service.value);
        if created.CreateError? {
          recorder.Record(ServiceKind, Failed);
          return false;
        }
        recorder.Record(ServiceKind, Created);
        return true;
    }
  }

  ghost predicate SameProc(world: World, me: PassId, before: State)
    reads world
  {
    me in before.passes && me in world.state.passes && world.state.passes[me].proc == before.passes[me].proc
  }

  class IngressReconciler {
    const world: World
    const recorder: EventRecorder
    const templates: TemplateEngine

    constructor (world: World, recorder: EventRecorder, templates: TemplateEngine)
      ensures this.world == world && this.recorder == recorder && this.templates == templates
    {
      this.world, this.recorder, this.templates := world, recorder, templates;
    }

    /** The protocol builds what this reconciler builds. */
    ghost predicate Wired() {
      world.cfg.build == BuildersOf(templates)
    }

    method Reconcile(me: PassId, gs: GameServer) returns (ok: bool)
      requires Wired() && At(world, recorder, me, gs, GetRoute) && !UsesGateway(gs)
      modifies world, recorder
      ensures old(world.trace) <= world.trace && SameProc(world, me, old(world.state))
      ensures At(world, recorder, me, gs, if ok then Decide else Finished(Errored))
    {
      var r, before, fault := world.GetRoute(me);
      match r
      case ReadError => return false;
      case Found => return true;
      case NotFound =>
        recorder.Record(IngressKind, Creating);
        var ingress := IngressBuilder.NewIngress(gs, templates, IngressBuilder.IngressOptions(gs));
        if ingress.None? {
          recorder.Record(IngressKind, Failed);
          return false;
        }
        var created, before', fault' := world.CreateIngress(me, ingress.value);
        if created.CreateError? {
          recorder.Record(IngressKind, Failed);
          return false;
        }
        recorder.Record(IngressKind, Created);
        return true;
    }
  }

  /** What a pass records when it starts to create an HTTPRoute. */
  function StartEvents(gs: GameServer): seq<Event> {
    [Event(HTTPRouteKind, Creating)]
    + (if TERMINATE_TLS in gs.annotations then [Event(HTTPRouteKind, Warning)] else [])
    + (if ISSUER in gs.annotations then [Event(HTTPRouteKind, Warning)] else [])
  }

  lemma StartRouteRecords(p: Pass)
    requires UsesGateway(p.gs)
    ensures StartRoute(p).events == p.events + StartEvents(p.gs)
  {
  }

  class GatewayReconciler {
    const world: World
    const recorder: EventRecorder
    const templates: TemplateEngine

    constructor (world: World, recorder: EventRecorder, templates: TemplateEngine)
      ensures this.world == world && this.recorder == recorder && this.templates == templates
    {
      this.world, this.recorder, this.templates := world, recorder, templates;
    }

    /** The protocol builds what this reconciler builds. */
    ghost predicate Wired() {
      world.cfg.build == BuildersOf(templates)
    }

    /** The creation event and the warnings about TLS annotations. */
    method RecordStart(gs: GameServer)
      modifies recorder
      ensures recorder.events == old(recorder.events) + StartEvents(gs)
    {
      recorder.Record(HTTPRouteKind, Creating);
      if Lookup(gs, TERMINATE_TLS).Some? {
        recorder.Record(HTTPRouteKind, Warning);
      }
      if Lookup(gs, ISSUER).Some? {
        recorder.Record(HTTPRouteKind, Warning);
      }
    }

    method Reconcile(me: PassId, gs: GameServer) returns (ok: bool)
      requires Wired() && At(world, recorder, me, gs, GetRoute) && UsesGateway(gs)
      requires world.state.passes[me].proc in world.cfg.gatewayEnabled
      modifies world, recorder
      ensures old(world.trace) <= world.trace && SameProc(world, me, old(world.state))
      ensures At(world, recorder, me, gs, if ok then Decide else Finished(Errored))
    {
      StartRouteRecords(world.state.passes[me]);
      var r, before, fault := world.GetRoute(me);
      match r
      case ReadError => return false;
      case Found => return true;
      case NotFound =>
        RecordStart(gs);
        var route := RouteBuilder.NewHTTPRoute(gs, templates, RouteBuilder.HTTPRouteOptions(gs));
        if route.None? {
          recorder.Record(HTTPRouteKind, Failed);
          return false;
        }
        var created, before', fault' := world.CreateHTTPRoute(me, route.value);
        if created.CreateError? {
          recorder.Record(HTTPRouteKind, Failed);
          return false;
        }
        recorder.Record(HTTPRouteKind, Created);
        return true;
    }
  }

  /** How the game server reconciler ends. */
  datatype Result = Done | Failure | ConflictFailure | Panic

  function OutcomeOf(r: Result): Outcome {
    match r
    case Done => Succeeded
    case Failure => Errored
    case ConflictFailure => Conflict
    case Panic => Panicked
  }

  /** The game server of a pass is ready now, by this pass or because its copy was marked already. */
  ghost predicate WroteReady(world: World, me: PassId)
    reads world
  {
    && me in world.state.passes
    && WroteOrCarried(world.state.server, world.state.passes[me])
    && IsReadyNow(world.state.server, world.state.passes[me].key)
  }

  /** How one attempt at the update ends: done, a conflict to retry, or anything else. */
  datatype AttemptResult = Written(result: GameServer) | Again | Stop(why: Result)

  function UpdatedEvents(result: GameServer): seq<Event> {
    [Event(GameServerKind, Updated)]
    + if CLASS_LEGACY in result.annotations then [Event(GameServerKind, Updated)] else []
  }

  class GameServerReconciler {
    const world: World
    const recorder: EventRecorder

    constructor (world: World, recorder: EventRecorder)
      ensures this.world == world && this.recorder == recorder
    {
      this.world, this.recorder := world, recorder;
    }

    /** `MustReconcile`: the error comes with `must` true. */
    static method MustReconcile(gs: GameServer) returns (must: bool, err: bool)
      ensures err <==> NeedsReady(gs) == None
      ensures must <==> NeedsReady(gs) != Some(false)
      ensures must && !err <==>
              READY !in gs.annotations || gs.annotations[READY] == "" || SpellsFalse(gs.annotations[READY])
      ensures !must <==> READY in gs.annotations && SpellsTrue(gs.annotations[READY])
    {
      var value := Lookup(gs, READY);
      if value.Some? && |value.value| > 0 {
        ParseBoolSpellings(value.value);
        var isReady := ParseBool(value.value);
        if isReady.None? {
          return true, true;
        }
        return !isReady.value, false;
      }
      return true, false;
    }

    method Reconcile(me: PassId, gs: GameServer) returns (r: Result)
      requires At(world, recorder, me, gs, Decide)
      modifies world, recorder
      ensures old(world.trace) <= world.trace
      ensures At(world, recorder, me, gs, Finished(OutcomeOf(r)))
      ensures r.Done? ==> NeedsReady(gs) == Some(false) || WroteReady(world, me)
    {
      world.Local(me);
      var must, err := MustReconcile(gs);
      if err {
        return Failure;
      }
      if !must {
        return Done;
      }
      r := RetryOnConflict(me, gs);
    }

    /** How an attempt leaves the shadow. */
    ghost predicate Attempted(me: PassId, gs: GameServer, left: nat, r: AttemptResult)
      reads world, recorder
    {
      match r
      case Again => left > 0 && At(world, recorder, me, gs, if left == 1 then Finished(Conflict) else ReadGameServer(left - 1))
      case Stop(why) => !why.Done? && At(world, recorder, me, gs, Finished(OutcomeOf(why)))
      case Written(result) =>
        && world.Valid() && me in world.state.passes
        && WroteReady(world, me)
        && var p := world.state.passes[me];
           && p.gs == gs && p.key == KeyOf(gs) && p.pc == Finished(Succeeded)
           && p.events == recorder.events + UpdatedEvents(result)
    }

    /** The function that is retried: read, set the key on a copy, update. */
    method Attempt(me: PassId, gs: GameServer, left: nat) returns (r: AttemptResult)
      requires left > 0 && At(world, recorder, me, gs, ReadGameServer(left))
      modifies world
      ensures old(world.trace) <= world.trace && Attempted(me, gs, left, r)
    {
      var copy, before, fault := world.GetGameServer(me);
      if copy.NoCopy? {
        return Stop(Failure);
      }
      if copy.gs.annotations == map[] {
        return Stop(Panic);
      }
      r := Push(me, gs, left, copy.version, copy.gs.(annotations := copy.gs.annotations[READY := "true"]));
    }

    method Push(me: PassId, gs: GameServer, left: nat, version: nat, deepCopy: GameServer) returns (r: AttemptResult)
      requires left > 0 && At(world, recorder, me, gs, Pc.UpdateGameServer(left, version))
      requires version < |Versions(world.state.server, KeyOf(gs))|
      requires deepCopy == MarkReady(Versions(world.state.server, KeyOf(gs))[version].gs)
      modifies world
      ensures old(world.trace) <= world.trace && Attempted(me, gs, left, r)
    {
      ghost var p := world.state.passes[me];
      var updated, before, fault := world.UpdateGameServer(me, version, deepCopy);
      assert PassAfterUpdate(updated, p, deepCopy, world.state.passes[me]);
      match updated {
        case UpdatedNow =>
          assert WroteReady(world, me);
          return Written(deepCopy);
        case UpdateError => return Stop(Failure);
        case ConflictError => return Again;
      }
    }

    /** The rest of `reconcile`: the bounded retry of client-go, and the events of a success. */
    method RetryOnConflict(me: PassId, gs: GameServer) returns (r: Result)
      requires At(world, recorder, me, gs, ReadGameServer(world.cfg.retries))
      modifies world, recorder
      ensures old(world.trace) <= world.trace
      ensures At(world, recorder, me, gs, Finished(OutcomeOf(r)))
      ensures r.Done? ==> WroteReady(world, me)
    {
      var left: nat := world.cfg.retries;
      while left > 0
        invariant old(world.trace) <= world.trace
        invariant At(world, recorder, me, gs, if left > 0 then ReadGameServer(left) else Finished(Conflict))
      {
        var attempt := Attempt(me, gs, left);
        match attempt {
          case Written(result) =>
            RecordUpdated(result);
            return Done;
          case Stop(why) =>
            return why;
          case Again =>
            left := left - 1;
        }
      }
      return ConflictFailure;
    }

    /** The event of an update, and one more for the deprecated annotation. */
    method RecordUpdated(result: GameServer)
      modifies recorder
      ensures recorder.events == old(recorder.events) + UpdatedEvents(result)
    {
      recorder.Record(GameServerKind, Updated);
      if CLASS_LEGACY in result.annotations {
        recorder.Record(GameServerKind, Updated);
      }
    }
  }

  /** What success leaves: the Service; the HTTPRoute if the backend annotation says gateway and the
      Ingress if it is absent or says anything else; and the value "true" in the ready annotation of the
      current version, unless the event's own value spells true. */
  predicate Achieved(srv: Server, gs: GameServer) {
    var k, a := (gs.namespace, gs.name), gs.annotations;
    && k in srv.services
    && (if BACKEND in a && a[BACKEND] == "gateway" then k in srv.routes else k in srv.ingresses)
    && ((READY in a && SpellsTrue(a[READY]))
        || (k in srv.history && |srv.history[k]| > 0
            && var current := srv.history[k][|srv.history[k]| - 1].gs.annotations;
               READY in current && current[READY] == "true"))
  }

  lemma SuccessIsAchieved(srv: Server, gs: GameServer)
    requires HasServiceAndRoute(srv, KeyOf(gs), gs)
    requires NeedsReady(gs) == Some(false) || IsReadyNow(srv, KeyOf(gs))
    ensures Achieved(srv, gs)
  {
    ReadyExactly(gs);
  }

  lemma SuccessIsRouted(cfg: Config, start: State, trace: seq<Action>, me: PassId)
    requires StateOk(cfg, start) && me in Run(cfg, start, trace).passes
    ensures var s := Run(cfg, start, trace);
            s.passes[me].pc == Finished(Succeeded) ==> HasServiceAndRoute(s.server, s.passes[me].key, s.passes[me].gs)
  {
    RunKeeps(cfg, start, trace);
    var s := Run(cfg, start, trace);
    assert PassOk(cfg, s.server, s.passes[me]);
  }

  /** How a call of the handler for one event ends. */
  datatype EventReturn = ReturnsNil | ReturnsError | Panics

  class GameServerEventHandler {
    const world: World
    const recorder: EventRecorder
    const proc: Proc
    const serviceReconciler: ServiceReconciler
    const ingressReconciler: IngressReconciler
    const gatewayReconciler: GatewayReconciler?
    const gameServerReconciler: GameServerReconciler

    ghost predicate Wired()
    {
      && serviceReconciler.world == ingressReconciler.world == gameServerReconciler.world == world
      && serviceReconciler.recorder == ingressReconciler.recorder == gameServerReconciler.recorder == recorder
      && (gatewayReconciler != null <==> proc in world.cfg.gatewayEnabled)
      && (gatewayReconciler != null ==> gatewayReconciler.world == world && gatewayReconciler.recorder == recorder)
      && serviceReconciler.Wired() && ingressReconciler.Wired() && (gatewayReconciler != null ==> gatewayReconciler.Wired())
    }

    /** The gateway reconciler exists only when the gateway backend is enabled. */
    constructor (world: World, recorder: EventRecorder, templates: TemplateEngine, proc: Proc)
      requires world.cfg.build == BuildersOf(templates)
      ensures Wired() && this.world == world && this.recorder == recorder && this.proc == proc
    {
      this.world, this.recorder, this.proc := world, recorder, proc;
      serviceReconciler := new ServiceReconciler(world, recorder, templates);
      ingressReconciler := new IngressReconciler(world, recorder, templates);
      gameServerReconciler := new GameServerReconciler(world, recorder);
      if proc in world.cfg.gatewayEnabled {
        gatewayReconciler := new GatewayReconciler(world, recorder, templates);
      } else {
        gatewayReconciler := null;
      }
    }

    /** `Reconcile`: whatever happens around it, its execution extends the run of the protocol, at
        whose end the shadow of this pass is finished with the outcome the code returns and the
        events the code recorded. */
    method Reconcile(me: PassId, gs: GameServer) returns (r: Result)
      requires Wired() && world.Valid() && recorder.events == [] && me in world.state.passes
      requires exists version :: world.state.passes[me] == NewPass(proc, version, gs)
      modifies world, recorder
      ensures world.Valid() && old(world.trace) <= world.trace
      ensures At(world, recorder, me, gs, Finished(if Eligible(gs) then OutcomeOf(r) else Skipped))
      ensures Eligible(gs) && r.Done? ==>
              && HasServiceAndRoute(world.state.server, KeyOf(gs), gs)
              && (NeedsReady(gs) == Some(false) || WroteReady(world, me))
      ensures !Eligible(gs) ==> r.Done? && world.trace == old(world.trace) && recorder.events == []
      ensures world.trace == old(world.trace) <==>
              !(MODE in gs.annotations && (gs.state == "Scheduled" || gs.state == "RequestReady" || gs.state == "Ready"))
      ensures r.Done? && MODE in gs.annotations
              && (gs.state == "Scheduled" || gs.state == "RequestReady" || gs.state == "Ready") ==>
              Achieved(world.state.server, gs)
    {
      GatesExactly(gs);
      if Lookup(gs, MODE).None? {
        return Done;
      }
      if IsShutdown(gs) {
        return Done;
      }
      if !InReconcilableState(gs) {
        return Done;
      }
      var ok := serviceReconciler.Reconcile(me, gs);
      if !ok {
        return Failure;
      }
      if RouterBackend(gs) == BACKEND_GATEWAY {
        if gatewayReconciler == null {
          world.Local(me);
          return Failure;
        }
        ok := gatewayReconciler.Reconcile(me, gs);
      } else {
        ok := ingressReconciler.Reconcile(me, gs);
      }
      if !ok {
        return Failure;
      }
      r := gameServerReconciler.Reconcile(me, gs);
      SuccessIsRouted(world.cfg, world.start, world.trace, me);
      if r.Done? {
        SuccessIsAchieved(world.state.server, gs);
      }
    }

    /** `OnAdd` and `OnUpdate`: an error is logged, never returned to the queue; a panic is not caught. */
    method OnEvent(me: PassId, gs: GameServer) returns (r: EventReturn)
      requires Wired() && world.Valid() && recorder.events == [] && me in world.state.passes
      requires exists version :: world.state.passes[me] == NewPass(proc, version, gs)
      modifies world, recorder
      ensures world.Valid() && old(world.trace) <= world.trace
      ensures me in world.state.passes && world.state.passes[me].pc.Finished?
      ensures r == if world.state.passes[me].pc.outcome == Panicked then Panics else ReturnsNil
    {
      var result := Reconcile(me, gs);
      if result.Panic? {
        return Panics;
      }
      return ReturnsNil;
    }
  }
}
