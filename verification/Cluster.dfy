/** The world the controller's code runs in: the calls of pkg/stores and the recorder of pkg/record.
    The world moves between calls, and records how it moved as a run of the protocol. */
module Cluster {
  import opened Wrappers
  import opened GameServers
  import opened Resources
  import opened Protocol
  import opened Invariant
  import opened PassLogs
  import opened Safety

  datatype ReadAnswer = Found | NotFound | ReadError
  datatype CreateAnswer = CreatedNow | AlreadyExists | CreateError
  datatype CopyAnswer = Copy(version: nat, gs: GameServer) | NoCopy
  datatype UpdateAnswer = UpdatedNow | ConflictError | UpdateError

  /** The API server, all caches, and every pass in flight, that of the running code included: the
      state keeps a shadow of each pass, which the code never reads. The methods are the calls of
      pkg/stores: other parties act first, then the call takes effect, unless it fails. */
  class World {
    const cfg: Config
    ghost const start: State
    var state: State
    ghost var trace: seq<Action>

    constructor (cfg: Config, start: State)
      requires StateOk(cfg, start)
      ensures this.cfg == cfg && this.start == start && state == start && trace == [] && Valid()
    {
      this.cfg, this.start, state, trace := cfg, start, start, [];
    }

    /** The state is what the trace of actions led to. */
    ghost predicate Valid()
      reads this
    {
      StateOk(cfg, start) && state == Run(cfg, start, trace)
    }

    /** One action. */
    method Do(a: Action)
      requires Valid()
      modifies this
      ensures Valid() && trace == old(trace) + [a] && state == Step(cfg, old(state), a)
    {
      RunAppend(cfg, start, trace, [a]);
      state := Step(cfg, state, a);
      trace := trace + [a];
    }

    /** One action of anyone but pass `me`. */
    method Other(me: PassId, a: Action)
      requires Valid() && me in state.passes && !(a.Advance? && a.id == me)
      modifies this
      ensures Valid() && trace == old(trace) + [a] && Grows(old(state.server), state.server)
      ensures me in state.passes && state.passes[me] == old(state.passes[me])
    {
      RunKeeps(cfg, start, trace);
      OthersLeavePass(cfg, state, a, me);
      Do(a);
    }

    /** Anyone but pass `me` does anything. */
    method Interfere(me: PassId)
      requires Valid() && me in state.passes
      modifies this
      ensures Valid() && old(trace) <= trace && Grows(old(state.server), state.server)
      ensures me in state.passes && state.passes[me] == old(state.passes[me])
    {
      var steps: nat :| 0 <= steps;
      for i := 0 to steps
        invariant Valid() && old(trace) <= trace && Grows(old(state.server), state.server)
        invariant me in state.passes && state.passes[me] == old(state.passes[me])
      {
        var a: Action := *;
        if !(a.Advance? && a.id == me) {
          ghost var before := state.server;
          Other(me, a);
          GrowsTransitive(old(state.server), before, state.server);
        }
      }
    }

    /** The last thing that happened is a call of pass `me`, made in state `before`, which others reached
        from `first` without touching the pass. */
    ghost predicate Called(me: PassId, first: State, before: State, fault: Fault)
      reads this
    {
      && trace != [] && before == Run(cfg, start, trace[..|trace| - 1]) && trace[|trace| - 1] == Advance(me, fault)
      && me in first.passes && me in before.passes && before.passes[me] == first.passes[me]
      && Grows(first.server, before.server)
    }

    /** So the state is that one after the call. */
    lemma CallIsStep(me: PassId, first: State, before: State, fault: Fault)
      requires Valid() && Called(me, first, before, fault)
      ensures StateOk(cfg, before) && state == Step(cfg, before, Advance(me, fault))
    {
      var n := |trace| - 1;
      assert trace == trace[..n] + [trace[n]];
      RunAppend(cfg, start, trace[..n], [trace[n]]);
      RunKeeps(cfg, start, trace[..n]);
    }

    /** A read of the Service cache. */
    method GetService(me: PassId) returns (r: ReadAnswer, ghost before: State, ghost fault: Fault)
      requires Valid() && me in state.passes && state.passes[me].pc == Pc.GetService
      modifies this
      ensures Valid() && old(trace) < trace && me in state.passes
      ensures Called(me, old(state), before, fault)
      ensures var cache := CacheOf(before, old(state.passes[me]).proc);
              && state.passes[me] == StepGetService(cfg, cache, old(state.passes[me]), fault)
              && r == if fault != NoFault then ReadError
                      else if old(state.passes[me]).key in cache.services then Found else NotFound
    {
      Interfere(me);
      var f: Fault := *;
      var p := state.passes[me];
      var c := CacheOf(state, p.proc);
      r := if f != NoFault then ReadError else if p.key in c.services then Found else NotFound;
      before, fault := state, f;
      Do(Advance(me, f));
    }

    /** A read of the cache for the route of a pass. */
    method GetRoute(me: PassId) returns (r: ReadAnswer, ghost before: State, ghost fault: Fault)
      requires Valid() && me in state.passes && state.passes[me].pc == Pc.GetRoute
      requires UsesGateway(state.passes[me].gs) ==> state.passes[me].proc in cfg.gatewayEnabled
      modifies this
      ensures Valid() && old(trace) <= trace && me in state.passes
      ensures Called(me, old(state), before, fault)
      ensures var cache := CacheOf(before, old(state.passes[me]).proc);
              && state.passes[me] == StepGetRoute(cfg, cache, old(state.passes[me]), fault)
              && r == if fault != NoFault then ReadError
                      else if RouteCached(cache, old(state.passes[me])) then Found else NotFound
    {
      Interfere(me);
      var f: Fault := *;
      var p := state.passes[me];
      var c := CacheOf(state, p.proc);
      r := if f != NoFault then ReadError else if RouteCached(c, p) then Found else NotFound;
      before, fault := state, f;
      Do(Advance(me, f));
    }

    /** What a create call answers. */
    static function Answer(fault: Fault, existed: bool): CreateAnswer {
      if fault != NoFault then CreateError else if existed then AlreadyExists else CreatedNow
    }

    /** A create call for a Service. */
    method CreateService(me: PassId, service: Service) returns (r: CreateAnswer, ghost before: State, ghost fault: Fault)
      requires Valid() && me in state.passes && state.passes[me].pc == Pc.CreateService
      requires cfg.build.service(state.passes[me].gs) == Some(service)
      modifies this
      ensures Valid() && old(trace) <= trace && me in state.passes
      ensures Called(me, old(state), before, fault)
      ensures state.passes[me] == AfterCreate(old(state.passes[me]), ServiceKind, Pc.GetRoute, fault)
      ensures var p := old(state.passes[me]);
              && r == Answer(fault, p.key in before.server.services)
              && state.server.services == if fault == Rejected then before.server.services
                                    else Create(before.server.services, p.key, service, By(p))
    {
      Interfere(me);
      var f: Fault := *;
      var p := state.passes[me];
      r := Answer(f, p.key in state.server.services);
      before, fault := state, f;
      var server := if f == Rejected then state.server
                    else state.server.(services := Create(state.server.services, p.key, service, By(p)));
      Commit(me, server, AfterCreate(p, ServiceKind, Pc.GetRoute, f), f);
    }

    /** A create call for an Ingress. */
    method CreateIngress(me: PassId, ingress: Ingress) returns (r: CreateAnswer, ghost before: State, ghost fault: Fault)
      requires Valid() && me in state.passes && state.passes[me].pc == Pc.CreateRoute
      requires !UsesGateway(state.passes[me].gs)
      requires cfg.build.ingress(state.passes[me].gs) == Some(ingress)
      modifies this
      ensures Valid() && old(trace) <= trace && me in state.passes
      ensures Called(me, old(state), before, fault)
      ensures state.passes[me] == AfterCreate(old(state.passes[me]), IngressKind, Decide, fault)
      ensures var p := old(state.passes[me]);
              && r == Answer(fault, p.key in before.server.ingresses)
              && state.server.ingresses == if fault == Rejected then before.server.ingresses
                                    else Create(before.server.ingresses, p.key, ingress, By(p))
    {
      Interfere(me);
      var f: Fault := *;
      var p := state.passes[me];
      r := Answer(f, p.key in state.server.ingresses);
      before, fault := state, f;
      var server := if f == Rejected then state.server
                    else state.server.(ingresses := Create(state.server.ingresses, p.key, ingress, By(p)));
      Commit(me, server, AfterCreate(p, IngressKind, Decide, f), f);
    }

    /** A create call for an HTTPRoute. */
    method CreateHTTPRoute(me: PassId, route: HTTPRoute) returns (r: CreateAnswer, ghost before: State, ghost fault: Fault)
      requires Valid() && me in state.passes && state.passes[me].pc == Pc.CreateRoute
      requires UsesGateway(state.passes[me].gs)
      requires cfg.build.route(state.passes[me].gs) == Some(route)
      modifies this
      ensures Valid() && old(trace) <= trace && me in state.passes
      ensures Called(me, old(state), before, fault)
      ensures state.passes[me] == AfterCreate(old(state.passes[me]), HTTPRouteKind, Decide, fault)
      ensures var p := old(state.passes[me]);
              && r == Answer(fault, p.key in before.server.routes)
              && state.server.routes == if fault == Rejected then before.server.routes
                                    else Create(before.server.routes, p.key, route, By(p))
    {
      Interfere(me);
      var f: Fault := *;
      var p := state.passes[me];
      r := Answer(f, p.key in state.server.routes);
      before, fault := state, f;
      var server := if f == Rejected then state.server
                    else state.server.(routes := Create(state.server.routes, p.key, route, By(p)));
      Commit(me, server, AfterCreate(p, HTTPRouteKind, Decide, f), f);
    }

    /** The effect of a writing call, which is the step of the caller's shadow. */
    method Commit(me: PassId, server: Server, shadow: Pass, fault: Fault)
      requires Valid() && me in state.passes
      requires (server, shadow)
            == StepPass(cfg, state.server, CacheOf(state, state.passes[me].proc), state.passes[me], fault)
      modifies this
      ensures Valid() && trace == old(trace) + [Advance(me, fault)]
      ensures state == Step(cfg, old(state), Advance(me, fault))
      ensures me in state.passes && state.server == server && state.passes[me] == shadow
    {
      RunAppend(cfg, start, trace, [Advance(me, fault)]);
      state := state.(server := server, passes := state.passes[me := shadow]);
      trace := trace + [Advance(me, fault)];
    }

    /** A decision that makes no call, on the ready value or on a disabled gateway: the shadow follows. */
    method Local(me: PassId)
      requires Valid() && me in state.passes
      requires var p := state.passes[me];
               p.pc == Decide || (p.pc == Pc.GetRoute && UsesGateway(p.gs) && p.proc !in cfg.gatewayEnabled)
      modifies this
      ensures Valid() && old(trace) <= trace && me in state.passes
      ensures var p := old(state.passes[me]);
              state.passes[me] == if p.pc == Decide then StepDecide(cfg, p) else Fail(p)
    {
      Do(Advance(me, NoFault));
    }

    /** What the caches hold of game servers are versions the server has. */
    lemma CachedCopyExists(me: PassId)
      requires Valid() && me in state.passes
      ensures var p := state.passes[me];
              var c := CacheOf(state, p.proc);
              p.key in c.gameServers ==> c.gameServers[p.key] < |Versions(state.server, p.key)|
    {
      RunKeeps(cfg, start, trace);
    }

    /** A read of the game server cache. */
    method GetGameServer(me: PassId) returns (r: CopyAnswer, ghost before: State, ghost fault: Fault)
      requires Valid() && me in state.passes && state.passes[me].pc.ReadGameServer?
      modifies this
      ensures Valid() && old(trace) <= trace && me in state.passes
      ensures Called(me, old(state), before, fault)
      ensures var p, seen := old(state.passes[me]), CacheOf(before, old(state.passes[me]).proc).gameServers;
              match r
              case NoCopy => state.passes[me] == Fail(p) && (fault != NoFault || p.key !in seen)
              case Copy(version, gs) =>
                && fault == NoFault && p.key in seen && version == seen[p.key]
                && version < |Versions(state.server, state.passes[me].key)|
                && gs == Versions(state.server, state.passes[me].key)[version].gs
                && state.passes[me] == Goto(old(state.passes[me]),
                     if gs.annotations == map[] then Finished(Panicked)
                     else Pc.UpdateGameServer(old(state.passes[me]).pc.left, version))
    {
      Interfere(me);
      var f: Fault := *;
      var p := state.passes[me];
      var c := CacheOf(state, p.proc);
      CachedCopyExists(me);
      before, fault := state, f;
      if f != NoFault || p.key !in c.gameServers {
        r := NoCopy;
      } else {
        r := Copy(c.gameServers[p.key], Versions(state.server, p.key)[c.gameServers[p.key]].gs);
      }
      Do(Advance(me, f));
    }

    /** An update call: refused as a conflict unless it carries the current version. */
    method UpdateGameServer(me: PassId, version: nat, gs: GameServer) returns (r: UpdateAnswer, ghost before: State, ghost fault: Fault)
      requires Valid() && me in state.passes && state.passes[me].pc.UpdateGameServer?
      requires version == state.passes[me].pc.copy && version < |Versions(state.server, state.passes[me].key)|
      requires gs == MarkReady(Versions(state.server, state.passes[me].key)[version].gs)
      modifies this
      ensures Valid() && old(trace) <= trace && me in state.passes
      ensures Called(me, old(state), before, fault)
      ensures ServerAfterUpdate(r, old(state.passes[me]), version, gs, fault, before.server, state.server)
      ensures PassAfterUpdate(r, old(state.passes[me]), gs, state.passes[me])
      ensures r.UpdatedNow? ==> WroteOrCarried(state.server, state.passes[me])
    {
      Interfere(me);
      var f: Fault := *;
      var p := state.passes[me];
      before, fault := state, f;
      r := UpdateAnswerOf(|Versions(state.server, p.key)| - 1, version, f);
      UpdateIsStep(cfg, state.server, CacheOf(state, p.proc), p, version, gs, f);
      Commit(me, Pushed(state.server, p, version, gs, f), StepUpdate(state.server, p, p.pc.left, version, f), f);
    }
  }

  /** The server after an update call that carries gs with the number of a version. */
  function Pushed(srv: Server, p: Pass, version: nat, gs: GameServer, fault: Fault): Server
    requires version < |Versions(srv, p.key)|
  {
    var h := Versions(srv, p.key);
    if version == |h| - 1 && fault != Rejected && gs != h[version].gs then Append(srv, p.key, Version(gs, By(p))) else srv
  }

  /** It is the step of the pass, with both halves of what that means. */
  lemma UpdateIsStep(cfg: Config, srv: Server, cache: Cache, p: Pass, version: nat, gs: GameServer, fault: Fault)
    requires p.pc.UpdateGameServer? && version == p.pc.copy && version < |Versions(srv, p.key)|
    requires gs == MarkReady(Versions(srv, p.key)[version].gs)
    ensures var srv', q := Pushed(srv, p, version, gs, fault), StepUpdate(srv, p, p.pc.left, version, fault);
            var r := UpdateAnswerOf(|Versions(srv, p.key)| - 1, version, fault);
            && (srv', q) == StepPass(cfg, srv, cache, p, fault)
            && ServerAfterUpdate(r, p, version, gs, fault, srv, srv') && PassAfterUpdate(r, p, gs, q)
            && (r.UpdatedNow? ==> WroteOrCarried(srv', q))
  {
    PushedIsUpdate(srv, p, version, gs, fault);
    ServerUpdates(srv, p, version, fault);
    PassUpdates(srv, p, p.pc.left, version, fault);
    UpdateWrites(srv, p, p.pc.left, version, fault);
  }

  lemma PushedIsUpdate(srv: Server, p: Pass, version: nat, gs: GameServer, fault: Fault)
    requires version < |Versions(srv, p.key)| && gs == MarkReady(Versions(srv, p.key)[version].gs)
    ensures Pushed(srv, p, version, gs, fault) == StepUpdateServer(srv, p, version, fault)
  {
    var current := Versions(srv, p.key)[version].gs;
    if IsMarked(current) {
      assert current.annotations[READY := "true"] == current.annotations;
    }
  }

  function UpdateAnswerOf(current: nat, version: nat, fault: Fault): UpdateAnswer {
    if fault != NoFault then UpdateError else if version != current then ConflictError else UpdatedNow
  }

  /** The server's half of an update: a success carried the current version and appended what it carries,
      unless that changes nothing; a conflict means an older copy. */
  predicate ServerAfterUpdate(r: UpdateAnswer, p: Pass, version: nat, gs: GameServer, fault: Fault, a: Server, b: Server) {
    var h, h' := Versions(a, p.key), Versions(b, p.key);
    match r
    case UpdatedNow =>
      && version == |h| - 1 && IsReadyNow(b, p.key)
      && h' == h + if IsMarked(h[version].gs) then [] else [Version(gs, By(p))]
    case ConflictError => fault == NoFault && version < |h| - 1 && b == a
    case UpdateError => fault != NoFault
  }

  lemma ServerUpdates(srv: Server, p: Pass, version: nat, fault: Fault)
    requires version < |Versions(srv, p.key)|
    ensures var gs := MarkReady(Versions(srv, p.key)[version].gs);
            ServerAfterUpdate(UpdateAnswerOf(|Versions(srv, p.key)| - 1, version, fault), p, version, gs, fault,
              srv, StepUpdateServer(srv, p, version, fault))
  {
    if Accepts(srv, p.key, version, fault) {
      AcceptedIsReady(srv, p, version, fault);
    }
  }

  /** The pass's half: where it goes on, and what it records. */
  predicate PassAfterUpdate(r: UpdateAnswer, p: Pass, gs: GameServer, q: Pass)
    requires p.pc.UpdateGameServer?
  {
    && q.gs == p.gs && q.key == p.key && By(q) == By(p)
    && match r
       case UpdatedNow =>
         && q.pc == Finished(Succeeded)
         && q.events == p.events + [Event(GameServerKind, Updated)]
                        + if CLASS_LEGACY in gs.annotations then [Event(GameServerKind, Updated)] else []
       case UpdateError => q.pc == Finished(Errored) && q.events == p.events
       case ConflictError =>
         && q.events == p.events
         && q.pc == if p.pc.left <= 1 then Finished(Conflict) else ReadGameServer(p.pc.left - 1)
  }

  lemma PassUpdates(srv: Server, p: Pass, left: nat, version: nat, fault: Fault)
    requires version < |Versions(srv, p.key)| && p.pc == Pc.UpdateGameServer(left, version)
    ensures PassAfterUpdate(UpdateAnswerOf(|Versions(srv, p.key)| - 1, version, fault), p,
              MarkReady(Versions(srv, p.key)[version].gs), StepUpdate(srv, p, left, version, fault))
  {
    LegacyKeyIsNotReadyKey();
  }

  lemma OthersLeavePass(cfg: Config, s: State, a: Action, me: PassId)
    requires StateOk(cfg, s) && me in s.passes && !(a.Advance? && a.id == me)
    ensures Grows(s.server, Step(cfg, s, a).server)
    ensures me in Step(cfg, s, a).passes && Step(cfg, s, a).passes[me] == s.passes[me]
  {
    StepKeeps(cfg, s, a);
    PassesAfterStep(cfg, s, a, me);
  }

  lemma LegacyKeyIsNotReadyKey()
    ensures CLASS_LEGACY != READY
  {
    assert CLASS_LEGACY[6] != READY[6];
  }

  /** `pkg/record`: the events of one run of the handler, in order. */
  class EventRecorder {
    var events: seq<Event>

    constructor ()
      ensures events == []
    {
      events := [];
    }

    method Record(kind: Kind, reason: Reason)
      modifies this
      ensures events == old(events) + [Event(kind, reason)]
    {
      events := events + [Event(kind, reason)];
    }
  }
}
