/** Convergence among other passes: without leader election, overlapping passes are the normal case. */
module Contention {
  import opened GameServers
  import opened Protocol
  import opened Invariant
  import opened Safety
  import opened Convergence

  /** None of the pass's own calls fails. */
  predicate NoOwnFaults(acts: seq<Action>, id: PassId) {
    forall a | a in acts :: a.Advance? && a.id == id ==> a.fault == NoFault
  }

  /** A pass that cannot but settle its game server: only the controller has written it since the version
      of the event, the cache is not behind that version, and what the pass needs it can come by. */
  predicate Bound(cfg: Config, s: State, id: PassId) {
    && id in s.passes
    && var p, c := s.passes[id], CacheOf(s, s.passes[id].proc);
       && OnlyMarks(Versions(s.server, p.key), p.version + 1)
       && NeedsReady(p.gs).Some? && Eligible(p.gs)
       && (UsesGateway(p.gs) ==> p.proc in cfg.gatewayEnabled)
       && Provided(cfg, c, p.key, p.gs)
       && p.key in c.gameServers && p.version <= c.gameServers[p.key]
       && Underway(s.server, p)
  }

  /** Where the pass may be: it has not failed, and its copy is not older than its event. */
  predicate Underway(srv: Server, p: Pass) {
    match p.pc
    case UpdateGameServer(_, copy) => p.version <= copy
    case Finished(outcome) => (outcome == Succeeded || outcome == Conflict) && SettledNow(srv, p.key)
    case _ => true
  }

  /** The current version asks for the backend of the event, and is ready if it is newer. */
  lemma CurrentFollowsEvent(h: seq<Version>, e: nat)
    requires e < |h| && OnlyMarks(h, e + 1)
    ensures UsesGateway(h[|h| - 1].gs) == UsesGateway(h[e].gs)
    ensures e < |h| - 1 ==> IsReady(h[|h| - 1].gs)
    ensures forall i | e < i < |h| :: h[i].gs.annotations != map[] && IsReady(h[i].gs)
  {
    MarkedKeepBackend(h, e + 1, |h| - 1);
    forall i | e < i < |h| ensures h[i].gs.annotations != map[] && IsReady(h[i].gs) {
      MarkedVersion(h, i);
    }
  }

  // ---- Others ---------------------------------------------------------------------------------------

  lemma CacheLearns(cfg: Config, s: State, a: Action, proc: Proc, k: Key)
    ensures var c, d := CacheOf(s, proc), CacheOf(Step(cfg, s, a), proc);
            && c.services <= d.services && c.ingresses <= d.ingresses && c.routes <= d.routes
            && (k in c.gameServers ==> k in d.gameServers && c.gameServers[k] <= d.gameServers[k])
  {
    if !Sees(a) {
      OnlySeeingChangesCaches(cfg, s, a);
    }
  }

  /** Everything about the pass but its program point survives a step of anyone. */
  lemma BoundSurvives(cfg: Config, s: State, a: Action, id: PassId, p: Pass)
    requires StateOk(cfg, s) && Bound(cfg, s, id) && (a.ExternalWrite? ==> KeyOf(a.gs) != s.passes[id].key)
    requires id in Step(cfg, s, a).passes && p == Step(cfg, s, a).passes[id]
    requires p == s.passes[id].(pc := p.pc, events := p.events, attempts := p.attempts)
    requires Underway(Step(cfg, s, a).server, p)
    ensures Bound(cfg, Step(cfg, s, a), id)
  {
    StepMarksOnly(cfg, s, a, p.key);
    var h, h' := Versions(s.server, p.key), Versions(Step(cfg, s, a).server, p.key);
    assert PassOk(cfg, s.server, s.passes[id]);
    MarksCompose(h[..p.version + 1], h, h');
    CacheLearns(cfg, s, a, p.proc, p.key);
  }

  lemma OthersKeepBound(cfg: Config, s: State, a: Action, id: PassId)
    requires StateOk(cfg, s) && Bound(cfg, s, id) && (a.ExternalWrite? ==> KeyOf(a.gs) != s.passes[id].key)
    requires id in Step(cfg, s, a).passes && Step(cfg, s, a).passes[id] == s.passes[id]
    ensures Bound(cfg, Step(cfg, s, a), id)
  {
    var p := s.passes[id];
    if p.pc.Finished? {
      StepKeepsSettled(cfg, s, a, p.key);
    }
    BoundSurvives(cfg, s, a, id, p);
  }

  // ---- The pass itself ------------------------------------------------------------------------------

  /** Once its route is there, the game server is settled as soon as its current version is ready. */
  lemma RoutedAndReadyIsSettled(cfg: Config, srv: Server, p: Pass)
    requires p.version < |Versions(srv, p.key)| && Versions(srv, p.key)[p.version].gs == p.gs
    requires OnlyMarks(Versions(srv, p.key), p.version + 1) && Routed(cfg, srv, p.proc, p.key, p.gs)
    requires IsReady(LastVersion(srv, p.key))
    ensures SettledNow(srv, p.key)
  {
    CurrentFollowsEvent(Versions(srv, p.key), p.version);
  }

  lemma DecideKeepsUnderway(cfg: Config, srv: Server, p: Pass)
    requires PassOk(cfg, srv, p) && p.pc == Decide && NeedsReady(p.gs).Some?
    requires OnlyMarks(Versions(srv, p.key), p.version + 1)
    ensures Underway(srv, StepDecide(cfg, p))
  {
    if IsReady(p.gs) {
      CurrentFollowsEvent(Versions(srv, p.key), p.version);
      RoutedAndReadyIsSettled(cfg, srv, p);
    }
  }

  lemma ReadKeepsUnderway(cfg: Config, srv: Server, cache: Cache, p: Pass, left: nat)
    requires PassOk(cfg, srv, p) && CacheOk(srv, cache) && p.pc == ReadGameServer(left) && Eligible(p.gs)
    requires OnlyMarks(Versions(srv, p.key), p.version + 1)
    requires p.key in cache.gameServers && p.version <= cache.gameServers[p.key]
    ensures Underway(srv, StepRead(srv, cache, p, left, NoFault))
  {
    CurrentFollowsEvent(Versions(srv, p.key), p.version);
    assert MODE in p.gs.annotations;
  }

  lemma UpdateKeepsUnderway(cfg: Config, srv: Server, p: Pass, left: nat, copy: nat)
    requires ServerOk(cfg, srv) && PassOk(cfg, srv, p) && p.pc == UpdateGameServer(left, copy) && p.version <= copy
    requires OnlyMarks(Versions(srv, p.key), p.version + 1)
    ensures Underway(StepUpdateServer(srv, p, copy, NoFault), StepUpdate(srv, p, left, copy, NoFault))
  {
    if copy == |Versions(srv, p.key)| - 1 {
      SuccessSettles(cfg, srv, p, left, copy);
    } else {
      CurrentFollowsEvent(Versions(srv, p.key), p.version);
      RoutedAndReadyIsSettled(cfg, srv, p);
    }
  }

  lemma SuccessSettles(cfg: Config, srv: Server, p: Pass, left: nat, copy: nat)
    requires ServerOk(cfg, srv) && PassOk(cfg, srv, p) && p.pc == UpdateGameServer(left, copy)
    requires OnlyMarks(Versions(srv, p.key), p.version + 1) && copy == |Versions(srv, p.key)| - 1
    ensures SettledNow(StepUpdateServer(srv, p, copy, NoFault), p.key)
  {
    var srv' := StepUpdateServer(srv, p, copy, NoFault);
    AcceptedIsReady(srv, p, copy, NoFault);
    MarkedIsReady(LastVersion(srv', p.key));
    AppendedMarks(srv, p, copy);
    RoutedAndReadyIsSettled(cfg, srv', p);
  }

  lemma AppendedMarks(srv: Server, p: Pass, copy: nat)
    requires copy == |Versions(srv, p.key)| - 1 && OnlyMarks(Versions(srv, p.key), p.version + 1)
    ensures var srv' := StepUpdateServer(srv, p, copy, NoFault);
            && Versions(srv, p.key) <= Versions(srv', p.key) && OnlyMarks(Versions(srv', p.key), p.version + 1)
            && srv' == srv.(history := srv'.history)
  {
    if !IsMarked(Versions(srv, p.key)[copy].gs) {
      AppendGrows(srv, p.key, Version(MarkReady(Versions(srv, p.key)[copy].gs), By(p)));
    }
  }

  lemma OwnStepKeepsUnderway(cfg: Config, srv: Server, cache: Cache, p: Pass)
    requires ServerOk(cfg, srv) && PassOk(cfg, srv, p) && CacheOk(srv, cache) && Underway(srv, p)
    requires OnlyMarks(Versions(srv, p.key), p.version + 1)
    requires NeedsReady(p.gs).Some? && Eligible(p.gs) && (UsesGateway(p.gs) ==> p.proc in cfg.gatewayEnabled)
    requires Provided(cfg, cache, p.key, p.gs)
    requires p.key in cache.gameServers && p.version <= cache.gameServers[p.key]
    ensures var (srv', q) := StepPass(cfg, srv, cache, p, NoFault);
            && Underway(srv', q) && q == p.(pc := q.pc, events := q.events, attempts := q.attempts)
  {
    match p.pc
    case Decide => DecideKeepsUnderway(cfg, srv, p);
    case ReadGameServer(left) => ReadKeepsUnderway(cfg, srv, cache, p, left);
    case UpdateGameServer(left, copy) => UpdateKeepsUnderway(cfg, srv, p, left, copy);
    case _ =>
  }

  lemma StepKeepsBound(cfg: Config, s: State, a: Action, id: PassId)
    requires StateOk(cfg, s) && Bound(cfg, s, id) && (a.ExternalWrite? ==> KeyOf(a.gs) != s.passes[id].key)
    requires a.Advance? && a.id == id ==> a.fault == NoFault
    ensures Bound(cfg, Step(cfg, s, a), id) && Step(cfg, s, a).passes[id].key == s.passes[id].key
  {
    var p := s.passes[id];
    if a.Advance? && a.id == id {
      CacheIsOk(cfg, s, p.proc);
      OwnStepKeepsUnderway(cfg, s.server, CacheOf(s, p.proc), p);
      BoundSurvives(cfg, s, a, id, Step(cfg, s, a).passes[id]);
    } else {
      OthersLeaveIt(cfg, s, a, id);
      OthersKeepBound(cfg, s, a, id);
    }
  }

  lemma CacheIsOk(cfg: Config, s: State, proc: Proc)
    requires StateOk(cfg, s)
    ensures CacheOk(s.server, CacheOf(s, proc))
  {
  }

  lemma OthersLeaveIt(cfg: Config, s: State, a: Action, id: PassId)
    requires id in s.passes && !(a.Advance? && a.id == id)
    ensures id in Step(cfg, s, a).passes && Step(cfg, s, a).passes[id] == s.passes[id]
  {
  }

  lemma {:induction false} RunKeepsBound(cfg: Config, s: State, acts: seq<Action>, id: PassId)
    requires StateOk(cfg, s) && Bound(cfg, s, id) && NoOutsideWrites(acts, s.passes[id].key) && NoOwnFaults(acts, id)
    ensures Bound(cfg, Run(cfg, s, acts), id) && Run(cfg, s, acts).passes[id].key == s.passes[id].key
    decreases acts
  {
    if acts != [] {
      assert acts[0] in acts && forall a | a in acts[1..] :: a in acts;
      StepKeeps(cfg, s, acts[0]);
      StepKeepsBound(cfg, s, acts[0], id);
      RunKeepsBound(cfg, Step(cfg, s, acts[0]), acts[1..], id);
    }
  }

  /** Convergence among others: take a pass at its start, for an event since which only the controller has
      written the game server, with a cache that is not behind that event. In every run without outside
      writes to the game server in which the pass's own calls do not fail and it gets as many as its rank,
      whatever the other passes, the caches and the faults do, the game server ends settled: ready, with the
      Service and the route it asks for. It does not matter whether this pass or another made it so. */
  lemma ConvergesAmongOthers(cfg: Config, s: State, acts: seq<Action>, id: PassId)
    requires StateOk(cfg, s) && Bound(cfg, s, id) && s.passes[id].pc == GetService
    requires NoOutsideWrites(acts, s.passes[id].key) && NoOwnFaults(acts, id)
    requires Calls(acts, id) >= Rank(cfg, s.passes[id])
    ensures SettledNow(Run(cfg, s, acts).server, s.passes[id].key)
  {
    RunKeepsBound(cfg, s, acts, id);
    PassesEnd(cfg, s, acts, id);
  }

  /** An up-to-date pass of an eligible game server is bound in this sense. */
  lemma UpToDateIsBound(cfg: Config, s: State, id: PassId)
    requires StateOk(cfg, s) && CanConverge(cfg, s, id) && UpToDate(s, id)
    requires s.passes[id].version == |Versions(s.server, s.passes[id].key)| - 1
    requires Provided(cfg, CacheOf(s, s.passes[id].proc), s.passes[id].key, s.passes[id].gs)
    ensures Bound(cfg, s, id)
  {
    assert PassOk(cfg, s.server, s.passes[id]);
  }
}
