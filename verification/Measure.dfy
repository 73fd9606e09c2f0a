/** A measure of what a game server still lacks, and the writes that lower it. */
module Measure {
  import opened GameServers
  import opened Protocol
  import opened Invariant
  import opened Convergence

  function One(b: bool): nat {
    if b then 1 else 0
  }

  predicate Unready(srv: Server, k: Key) {
    Versions(srv, k) == [] || !IsReady(LastVersion(srv, k))
  }

  /** What a game server with the given backend still lacks. */
  function Missing(srv: Server, k: Key, gateway: bool): nat {
    One(k !in srv.services) + One(if gateway then k !in srv.routes else k !in srv.ingresses) + One(Unready(srv, k))
  }

  /** No outside party changes the ready key in this step. */
  predicate LeavesReadyKey(s: State, a: Action, k: Key) {
    a.ExternalWrite? && KeyOf(a.gs) == k ==>
      var h := Versions(s.server, k); h != [] && Lookup(a.gs, READY) == Lookup(h[|h| - 1].gs, READY)
  }

  predicate LeavesReadyKeyThroughout(cfg: Config, s: State, acts: seq<Action>, k: Key)
    decreases acts
  {
    acts == [] || (LeavesReadyKey(s, acts[0], k) && LeavesReadyKeyThroughout(cfg, Step(cfg, s, acts[0]), acts[1..], k))
  }

  /** Who an action acts for. */
  datatype Party = Outside | Passes

  /** The calls of a pass that count, told from the call and the server alone: a create of an absent
      object that reaches the server, and an accepted update of a version that is not ready. */
  predicate EffectiveCall(srv: Server, p: Pass, fault: Fault, k: Key, gateway: bool) {
    p.key == k && fault != Rejected &&
    match p.pc
    case CreateService => k !in srv.services
    case CreateRoute => UsesGateway(p.gs) == gateway && if gateway then k !in srv.routes else k !in srv.ingresses
    case UpdateGameServer(_, copy) => copy == |Versions(srv, k)| - 1 && Unready(srv, k)
    case _ => false
  }

  /** The same for any action of a party. */
  predicate Effective(s: State, a: Action, k: Key, gateway: bool, party: Party) {
    var srv := s.server;
    match a
    case ExternalService(service) =>
      party == Outside && (service.namespace, service.name) == k && k !in srv.services
    case ExternalIngress(ingress) =>
      party == Outside && (ingress.namespace, ingress.name) == k && !gateway && k !in srv.ingresses
    case ExternalRoute(route) =>
      party == Outside && (route.namespace, route.name) == k && gateway && k !in srv.routes
    case Advance(id, fault) =>
      party == Passes && id in s.passes && EffectiveCall(srv, s.passes[id], fault, k, gateway)
    case _ => false
  }

  /** The effective writes of one party in a run. */
  function Writes(cfg: Config, s: State, acts: seq<Action>, k: Key, gateway: bool, party: Party): nat
    decreases acts
  {
    if acts == [] then 0
    else One(Effective(s, acts[0], k, gateway, party)) + Writes(cfg, Step(cfg, s, acts[0]), acts[1..], k, gateway, party)
  }

  lemma SameReadyKey(a: GameServer, b: GameServer)
    requires Lookup(a, READY) == Lookup(b, READY)
    ensures NeedsReady(a) == NeedsReady(b)
  {
  }

  lemma ExternalLeavesReady(srv: Server, gs: GameServer, k: Key)
    requires KeyOf(gs) == k ==>
             Versions(srv, k) != [] && Lookup(gs, READY) == Lookup(Versions(srv, k)[|Versions(srv, k)| - 1].gs, READY)
    ensures Unready(Append(srv, KeyOf(gs), Version(gs, External)), k) <==> Unready(srv, k)
  {
    AppendGrows(srv, KeyOf(gs), Version(gs, External));
    if KeyOf(gs) == k {
      SameReadyKey(gs, Versions(srv, k)[|Versions(srv, k)| - 1].gs);
    }
  }

  lemma UpdateMakesReady(srv: Server, p: Pass, copy: nat, fault: Fault, k: Key)
    ensures Unready(StepUpdateServer(srv, p, copy, fault), k)
            <==> Unready(srv, k) && !(p.key == k && copy == |Versions(srv, k)| - 1 && fault != Rejected)
  {
    if Accepts(srv, p.key, copy, fault) {
      var gs := Versions(srv, p.key)[copy].gs;
      AppendGrows(srv, p.key, Version(MarkReady(gs), By(p)));
      MarkedIsReady(gs);
    }
  }

  /** One step lowers what is missing by exactly one if it is an effective write, and leaves it alone
      otherwise; no step is effective for both parties. */
  lemma MissingStep(cfg: Config, s: State, a: Action, k: Key, gateway: bool)
    requires StateOk(cfg, s) && LeavesReadyKey(s, a, k)
    ensures Missing(Step(cfg, s, a).server, k, gateway)
         == Missing(s.server, k, gateway) - One(Effective(s, a, k, gateway, Outside)) - One(Effective(s, a, k, gateway, Passes))
  {
    match a
    case ExternalWrite(gs) => ExternalLeavesReady(s.server, gs, k);
    case Advance(id, fault) => MissingAdvance(cfg, s, id, fault, k, gateway);
    case _ => MissingOther(cfg, s, a, k, gateway);
  }

  lemma MissingOther(cfg: Config, s: State, a: Action, k: Key, gateway: bool)
    requires !a.ExternalWrite? && !a.Advance?
    ensures Missing(Step(cfg, s, a).server, k, gateway)
         == Missing(s.server, k, gateway) - One(Effective(s, a, k, gateway, Outside))
  {
  }

  lemma MissingAdvance(cfg: Config, s: State, id: PassId, fault: Fault, k: Key, gateway: bool)
    requires StateOk(cfg, s)
    ensures Missing(Step(cfg, s, Advance(id, fault)).server, k, gateway)
         == Missing(s.server, k, gateway) - One(id in s.passes && EffectiveCall(s.server, s.passes[id], fault, k, gateway))
  {
    if id in s.passes {
      MissingPassStep(cfg, s.server, CacheOf(s, s.passes[id].proc), s.passes[id], fault, k, gateway);
    }
  }

  lemma MissingPassStep(cfg: Config, srv: Server, cache: Cache, p: Pass, fault: Fault, k: Key, gateway: bool)
    requires PassOk(cfg, srv, p)
    ensures Missing(StepPass(cfg, srv, cache, p, fault).0, k, gateway)
         == Missing(srv, k, gateway) - One(EffectiveCall(srv, p, fault, k, gateway))
  {
    match p.pc
    case CreateService => MissingCreateService(cfg, srv, p, fault, k, gateway);
    case CreateRoute => MissingCreateRoute(cfg, srv, p, fault, k, gateway);
    case UpdateGameServer(left, copy) => MissingUpdate(srv, p, copy, fault, k, gateway);
    case _ =>
  }

  lemma MissingCreateService(cfg: Config, srv: Server, p: Pass, fault: Fault, k: Key, gateway: bool)
    requires p.pc.CreateService? && cfg.build.service(p.gs).Some?
    ensures Missing(StepCreateService(cfg, srv, p, fault), k, gateway)
         == Missing(srv, k, gateway) - One(EffectiveCall(srv, p, fault, k, gateway))
  {
  }

  lemma MissingCreateRoute(cfg: Config, srv: Server, p: Pass, fault: Fault, k: Key, gateway: bool)
    requires p.pc.CreateRoute? && RouteBuilds(cfg, p.gs)
    ensures Missing(StepCreateRoute(cfg, srv, p, fault), k, gateway)
         == Missing(srv, k, gateway) - One(EffectiveCall(srv, p, fault, k, gateway))
  {
  }

  lemma MissingUpdate(srv: Server, p: Pass, copy: nat, fault: Fault, k: Key, gateway: bool)
    requires p.pc.UpdateGameServer? && p.pc.copy == copy
    ensures Missing(StepUpdateServer(srv, p, copy, fault), k, gateway)
         == Missing(srv, k, gateway) - One(EffectiveCall(srv, p, fault, k, gateway))
  {
    UpdateMakesReady(srv, p, copy, fault, k);
  }

  /** The measure over whole runs, with stale caches, faults, any number of passes and any other
      outside writes: what is missing at the end and the effective writes of both parties add up to
      what was missing at the start. So the passes together never make more than three. */
  lemma {:induction false} MissingRun(cfg: Config, s: State, acts: seq<Action>, k: Key, gateway: bool)
    requires StateOk(cfg, s) && LeavesReadyKeyThroughout(cfg, s, acts, k)
    ensures Missing(Run(cfg, s, acts).server, k, gateway)
            + Writes(cfg, s, acts, k, gateway, Passes) + Writes(cfg, s, acts, k, gateway, Outside)
         == Missing(s.server, k, gateway) <= 3
    decreases acts
  {
    if acts != [] {
      MissingStep(cfg, s, acts[0], k, gateway);
      StepKeeps(cfg, s, acts[0]);
      MissingRun(cfg, Step(cfg, s, acts[0]), acts[1..], k, gateway);
    }
  }
}
