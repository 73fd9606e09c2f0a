/** What the event `Created` says of the pass that records it, and what it does not. */
module Creations {
  import opened GameServers
  import opened Resources
  import opened Protocol
  import opened Invariant
  import opened PassLogs
  import opened Convergence
  import opened Readiness

  /** The create call of a pass for a kind of object. */
  predicate AtCreate(p: Pass, kind: Kind) {
    if kind == ServiceKind then p.pc == CreateService else p.pc == CreateRoute && kind == RouteKind(p.gs)
  }

  predicate Recorded(p: Pass, kind: Kind) {
    Event(kind, Created) in p.events
  }

  /** A create call makes the object if and only if the call reaches the server and the key is free; it
      records `Created` if and only if the call does not fail. */
  lemma CreateCallExactly(cfg: Config, srv: Server, cache: Cache, p: Pass, fault: Fault, kind: Kind)
    requires PassOk(cfg, srv, p) && AtCreate(p, kind) && kind != GameServerKind
    ensures var (srv', q) := StepPass(cfg, srv, cache, p, fault);
            && (srv' != srv <==> fault != Rejected && !Held(srv, p.key, kind))
            && (q.events == p.events + [Event(kind, Created)] <==> fault == NoFault)
            && (fault != NoFault ==> q.events == p.events + [Event(kind, Failed)])
  {
    if kind == ServiceKind {
      CreateServiceExactly(cfg, srv, p, fault);
    } else {
      CreateRouteExactly(cfg, srv, p, fault);
    }
    assert (p.events + [Event(kind, Created)])[|p.events|] != (p.events + [Event(kind, Failed)])[|p.events|];
  }

  lemma CreateServiceExactly(cfg: Config, srv: Server, p: Pass, fault: Fault)
    requires cfg.build.service(p.gs).Some?
    ensures StepCreateService(cfg, srv, p, fault) != srv <==> fault != Rejected && !Held(srv, p.key, ServiceKind)
  {
    var srv' := StepCreateService(cfg, srv, p, fault);
    if fault != Rejected && p.key !in srv.services {
      assert p.key in srv'.services;
    }
  }

  lemma CreateRouteExactly(cfg: Config, srv: Server, p: Pass, fault: Fault)
    requires RouteBuilds(cfg, p.gs)
    ensures StepCreateRoute(cfg, srv, p, fault) != srv <==> fault != Rejected && !Held(srv, p.key, RouteKind(p.gs))
  {
    var srv' := StepCreateRoute(cfg, srv, p, fault);
    if fault != Rejected && !Held(srv, p.key, RouteKind(p.gs)) {
      assert Held(srv', p.key, RouteKind(p.gs));
    }
  }

  // ---- Over runs ------------------------------------------------------------------------------------

  /** The action is a create call of pass `id` that does not fail. */
  predicate Creates(s: State, a: Action, id: PassId, kind: Kind) {
    a == Advance(id, NoFault) && id in s.passes && AtCreate(s.passes[id], kind)
  }

  predicate HasRecorded(s: State, id: PassId, kind: Kind) {
    id in s.passes && Recorded(s.passes[id], kind)
  }

  lemma StepPassRecordsExactly(cfg: Config, srv: Server, cache: Cache, p: Pass, fault: Fault, kind: Kind)
    requires kind != GameServerKind
    ensures Recorded(StepPass(cfg, srv, cache, p, fault).1, kind)
            <==> Recorded(p, kind) || (fault == NoFault && AtCreate(p, kind))
  {
    match p.pc
    case CreateService =>
    case CreateRoute =>
    case _ => NothingElseIsCreated(cfg, srv, cache, p, fault);
  }

  lemma StepRecordsExactly(cfg: Config, s: State, a: Action, id: PassId, kind: Kind)
    requires kind != GameServerKind
    ensures HasRecorded(Step(cfg, s, a), id, kind) <==> HasRecorded(s, id, kind) || Creates(s, a, id, kind)
  {
    if a.Advance? && a.id == id && id in s.passes {
      StepPassRecordsExactly(cfg, s.server, CacheOf(s, s.passes[id].proc), s.passes[id], a.fault, kind);
    } else if id in Step(cfg, s, a).passes {
      PassesAfterStep(cfg, s, a, id);
    }
  }

  /** In every run, a pass has recorded `Created` for a kind of object if and only if one of its create
      calls for it did not fail, whether or not that call made the object. */
  lemma {:induction false} RecordsExactly(cfg: Config, s: State, acts: seq<Action>, id: PassId, kind: Kind)
    requires kind != GameServerKind && !HasRecorded(s, id, kind)
    ensures HasRecorded(Run(cfg, s, acts), id, kind)
            <==> exists j: nat :: j < |acts| && Creates(Run(cfg, s, acts[..j]), acts[j], id, kind)
    decreases |acts|
  {
    if acts != [] {
      var n := |acts| - 1;
      var init := acts[..n];
      var t := Run(cfg, s, init);
      RecordsExactly(cfg, s, init, id, kind);
      assert acts == init + [acts[n]] && [acts[n]] == [acts[n]] + [];
      RunAppend(cfg, s, init, [acts[n]]);
      RunCons(cfg, t, acts[n], []);
      StepRecordsExactly(cfg, t, acts[n], id, kind);
      ExtendWitness(cfg, s, acts, id, kind);
    }
  }

  lemma ExtendWitness(cfg: Config, s: State, acts: seq<Action>, id: PassId, kind: Kind)
    requires acts != []
    ensures var n := |acts| - 1;
            (exists j: nat :: j < |acts| && Creates(Run(cfg, s, acts[..j]), acts[j], id, kind)) <==>
            || (exists j: nat :: j < n && Creates(Run(cfg, s, acts[..n][..j]), acts[..n][j], id, kind))
            || Creates(Run(cfg, s, acts[..n]), acts[n], id, kind)
  {
    var n := |acts| - 1;
    forall j: nat | j < n ensures acts[..n][..j] == acts[..j] && acts[..n][j] == acts[j] {
    }
    if j: nat :| j < n && Creates(Run(cfg, s, acts[..n][..j]), acts[..n][j], id, kind) {
      assert Creates(Run(cfg, s, acts[..j]), acts[j], id, kind);
    }
    if j: nat :| j < |acts| && Creates(Run(cfg, s, acts[..j]), acts[j], id, kind) {
      if j < n {
        assert Creates(Run(cfg, s, acts[..n][..j]), acts[..n][j], id, kind);
      }
    }
  }

  // ---- A run that records without creating -----------------------------------------------------------

  /** Somebody else has made the Service already, and the process has not seen it. */
  function OutsideServiceFirst(svc: Service, gs: GameServer): seq<Action> {
    [ExternalService(svc), ExternalWrite(gs), Deliver(0, 0, KeyOf(gs), 0), Advance(0, NoFault), Advance(0, NoFault)]
  }

  /** The pass records `Creating` and `Created`, and the Service is still the other's. */
  lemma CreatedByAnother(cfg: Config, svc: Service, gs: GameServer)
    requires (svc.namespace, svc.name) == KeyOf(gs) && Eligible(gs) && cfg.build.service(gs).Some?
    ensures var t := Run(cfg, EMPTY_STATE, OutsideServiceFirst(svc, gs));
            && Init(EMPTY_STATE) && 0 in t.passes
            && t.passes[0].events == [Event(ServiceKind, Creating), Event(ServiceKind, Created)]
            && KeyOf(gs) in t.server.services && t.server.services[KeyOf(gs)] == Stored(svc, External)
  {
    var acts := OutsideServiceFirst(svc, gs);
    var a := Step(cfg, EMPTY_STATE, acts[0]);
    var b := Step(cfg, a, acts[1]);
    var c := Step(cfg, b, acts[2]);
    assert Versions(b.server, KeyOf(gs)) == [Version(gs, External)];
    TwoSteps(cfg, EMPTY_STATE, acts[0], acts[1]);
    assert acts == [acts[0], acts[1]] + ([acts[2]] + [acts[3], acts[4]]);
    RunAppend(cfg, EMPTY_STATE, [acts[0], acts[1]], [acts[2]] + [acts[3], acts[4]]);
    RunCons(cfg, b, acts[2], [acts[3], acts[4]]);
    TwoSteps(cfg, c, acts[3], acts[4]);
    assert [] + [Event(ServiceKind, Creating)] == [Event(ServiceKind, Creating)];
    assert [Event(ServiceKind, Creating)] + [Event(ServiceKind, Created)] == [Event(ServiceKind, Creating), Event(ServiceKind, Created)];
  }
}
