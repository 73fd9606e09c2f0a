/** Progress: passes end, undisturbed passes converge, converged game servers stay quiet. */
module Convergence {
  import opened Wrappers
  import opened GameServers
  import opened Protocol
  import opened Invariant
  import opened Safety

  // ---- Every pass ends -------------------------------------------------------------------------

  /** A bound on the calls a pass still makes. */
  function Rank(cfg: Config, p: Pass): nat {
    match p.pc
    case GetService => 2 * cfg.retries + 7
    case CreateService => 2 * cfg.retries + 6
    case GetRoute => 2 * cfg.retries + 5
    case CreateRoute => 2 * cfg.retries + 4
    case Decide => 2 * cfg.retries + 3
    case ReadGameServer(left) => 2 * left + 2
    case UpdateGameServer(left, _) => 2 * left + 1
    case Finished(_) => 0
  }

  lemma StepLowersRank(cfg: Config, srv: Server, cache: Cache, p: Pass, fault: Fault)
    requires !p.pc.Finished?
    ensures Rank(cfg, StepPass(cfg, srv, cache, p, fault).1) < Rank(cfg, p)
  {
  }

  function Calls(acts: seq<Action>, id: PassId): nat {
    if acts == [] then 0
    else (if acts[0].Advance? && acts[0].id == id then 1 else 0) + Calls(acts[1..], id)
  }

  /** In every run, whatever the other passes, the outside and the faults do, a pass that has been
      given as many calls as its rank is finished; a new pass has rank at most 2 * retries + 7. */
  lemma {:induction false} PassesEnd(cfg: Config, s: State, acts: seq<Action>, id: PassId)
    requires id in s.passes && Rank(cfg, s.passes[id]) <= Calls(acts, id)
    ensures id in Run(cfg, s, acts).passes && Run(cfg, s, acts).passes[id].pc.Finished?
    decreases acts
  {
    if acts != [] {
      var t := Step(cfg, s, acts[0]);
      PassesAfterStep(cfg, s, acts[0], id);
      if !s.passes[id].pc.Finished? && acts[0].Advance? && acts[0].id == id {
        StepLowersRank(cfg, s.server, CacheOf(s, s.passes[id].proc), s.passes[id], acts[0].fault);
      }
      PassesEnd(cfg, t, acts[1..], id);
    }
  }

  // ---- One undisturbed pass ----------------------------------------------------------------------

  lemma AdvanceLowersRank(cfg: Config, s: State, id: PassId)
    requires id in s.passes && !s.passes[id].pc.Finished?
    ensures var t := Step(cfg, s, Advance(id, NoFault));
            id in t.passes && Rank(cfg, t.passes[id]) < Rank(cfg, s.passes[id])
  {
    StepLowersRank(cfg, s.server, CacheOf(s, s.passes[id].proc), s.passes[id], NoFault);
  }

  /** Running one pass alone, without faults, to its end. */
  function Drive(cfg: Config, s: State, id: PassId): State
    requires id in s.passes
    decreases Rank(cfg, s.passes[id])
  {
    if s.passes[id].pc.Finished? then s
    else
      AdvanceLowersRank(cfg, s, id);
      Drive(cfg, Step(cfg, s, Advance(id, NoFault)), id)
  }

  function Solo(id: PassId, n: nat): seq<Action> {
    if n == 0 then [] else [Advance(id, NoFault)] + Solo(id, n - 1)
  }

  lemma RunCons(cfg: Config, s: State, a: Action, rest: seq<Action>)
    ensures Run(cfg, s, [a] + rest) == Run(cfg, Step(cfg, s, a), rest)
  {
    assert ([a] + rest)[1..] == rest;
  }

  /** Driving a pass is a run, of at most its rank. */
  lemma {:induction false} DriveIsRun(cfg: Config, s: State, id: PassId) returns (n: nat)
    requires id in s.passes
    ensures n <= Rank(cfg, s.passes[id]) && Drive(cfg, s, id) == Run(cfg, s, Solo(id, n))
    decreases Rank(cfg, s.passes[id])
  {
    if s.passes[id].pc.Finished? {
      n := 0;
    } else {
      var t := Step(cfg, s, Advance(id, NoFault));
      AdvanceLowersRank(cfg, s, id);
      var m := DriveIsRun(cfg, t, id);
      n := m + 1;
      RunCons(cfg, s, Advance(id, NoFault), Solo(id, m));
    }
  }

  /** What a process's caches know about one key is current. */
  predicate Synced(s: State, proc: Proc, k: Key) {
    var c := CacheOf(s, proc);
    && (k in c.services <==> k in s.server.services)
    && (k in c.ingresses <==> k in s.server.ingresses)
    && (k in c.routes <==> k in s.server.routes)
    && k in c.gameServers && c.gameServers[k] == |Versions(s.server, k)| - 1
  }

  /** The state after a step of pass `id` that touches nothing else. */
  predicate OnlyPass(s: State, t: State, id: PassId) {
    && id in s.passes && id in t.passes
    && t.caches == s.caches && t.server.history == s.server.history
    && t.passes[id].proc == s.passes[id].proc && t.passes[id].key == s.passes[id].key
    && t.passes[id].gs == s.passes[id].gs
  }

  /** A process can come by the Service and the route of a game server: it has seen it, or builds it. */
  predicate Provided(cfg: Config, c: Cache, k: Key, gs: GameServer) {
    && (k in c.services || cfg.build.service(gs).Some?)
    && ((if UsesGateway(gs) then k in c.routes else k in c.ingresses) || RouteBuilds(cfg, gs))
  }

  lemma ServicePhase(cfg: Config, s: State, id: PassId) returns (t: State)
    requires id in s.passes && s.passes[id].pc == GetService
    requires CacheOk(s.server, CacheOf(s, s.passes[id].proc))
    requires s.passes[id].key in CacheOf(s, s.passes[id].proc).services || cfg.build.service(s.passes[id].gs).Some?
    ensures OnlyPass(s, t, id) && t.passes[id].pc == GetRoute && Drive(cfg, t, id) == Drive(cfg, s, id)
    ensures t.server.ingresses == s.server.ingresses && t.server.routes == s.server.routes
    ensures s.passes[id].key in t.server.services
    ensures CachesRoute(t, id)
  {
    t := Step(cfg, s, Advance(id, NoFault));
    if t.passes[id].pc.CreateService? {
      t := Step(cfg, t, Advance(id, NoFault));
    }
  }

  /** What the cache has seen of the route of a pass is there. */
  predicate CachesRoute(s: State, id: PassId)
    requires id in s.passes
  {
    var p := s.passes[id];
    RouteCached(CacheOf(s, p.proc), p) ==> RouteHeld(s.server, p.key, p.gs)
  }

  lemma RoutePhase(cfg: Config, s: State, id: PassId) returns (t: State)
    requires id in s.passes && s.passes[id].pc == GetRoute
    requires UsesGateway(s.passes[id].gs) ==> s.passes[id].proc in cfg.gatewayEnabled
    requires CachesRoute(s, id)
    requires RouteCached(CacheOf(s, s.passes[id].proc), s.passes[id]) || RouteBuilds(cfg, s.passes[id].gs)
    ensures OnlyPass(s, t, id) && t.passes[id].pc == Decide && Drive(cfg, t, id) == Drive(cfg, s, id)
    ensures t.server.services == s.server.services && RouteHeld(t.server, s.passes[id].key, s.passes[id].gs)
    ensures if UsesGateway(s.passes[id].gs) then t.server.ingresses == s.server.ingresses
            else t.server.routes == s.server.routes
  {
    t := Step(cfg, s, Advance(id, NoFault));
    if t.passes[id].pc.CreateRoute? {
      t := Step(cfg, t, Advance(id, NoFault));
    }
  }

  /** How a pass ends once its route is there: if the event's ready value is absent, empty or false
      it appends the current version with the ready key set, unless it is set there already; if it is
      true it writes nothing; if it does not parse it errs. */
  predicate Settled(before: Server, t: State, id: PassId) {
    && id in t.passes
    && var p := t.passes[id];
       match NeedsReady(p.gs)
       case None => p.pc == Finished(Errored) && t.server.history == before.history
       case Some(false) => p.pc == Finished(Succeeded) && t.server.history == before.history
       case Some(true) =>
         && p.pc == Finished(Succeeded) && IsReadyNow(t.server, p.key)
         && var h := Versions(before, p.key);
            && h != []
            && Versions(t.server, p.key) == h + if IsMarked(h[|h| - 1].gs) then [] else [Version(MarkReady(h[|h| - 1].gs), By(p))]
  }

  lemma ReadyPhase(cfg: Config, s: State, id: PassId) returns (t: State)
    requires id in s.passes && s.passes[id].pc == Decide
    requires CachesCurrent(s, id)
    ensures t == Drive(cfg, s, id) && OnlyPassAndHistory(s, t, id) && Settled(s.server, t, id)
  {
    var a := Step(cfg, s, Advance(id, NoFault));
    assert Drive(cfg, s, id) == Drive(cfg, a, id);
    t := a;
    if NeedsReady(s.passes[id].gs) == Some(true) {
      var b := Step(cfg, a, Advance(id, NoFault));
      assert Drive(cfg, a, id) == Drive(cfg, b, id);
      t := Step(cfg, b, Advance(id, NoFault));
      assert Drive(cfg, b, id) == Drive(cfg, t, id);
    }
    assert t.passes[id].pc.Finished?;
  }

  /** The cache holds the current version of a pass's game server, and it has annotations. */
  predicate CachesCurrent(s: State, id: PassId)
    requires id in s.passes
  {
    var p, c := s.passes[id], CacheOf(s, s.passes[id].proc);
    var h := Versions(s.server, p.key);
    && h != [] && h[|h| - 1].gs.annotations != map[]
    && p.key in c.gameServers && c.gameServers[p.key] == |h| - 1
  }

  predicate OnlyPassAndHistory(s: State, t: State, id: PassId) {
    && id in s.passes && id in t.passes && t.passes[id].gs == s.passes[id].gs && t.passes[id].key == s.passes[id].key
    && t.server == s.server.(history := t.server.history)
  }

  /** State t is s after a pass that got everything its event asks for, and made no route of the other
      kind. */
  predicate Converged(s: State, t: State, id: PassId) {
    && id in s.passes && id in t.passes && t.passes[id].gs == s.passes[id].gs && t.passes[id].key == s.passes[id].key
    && HasServiceAndRoute(t.server, s.passes[id].key, s.passes[id].gs)
    && Settled(s.server, t, id)
    && if UsesGateway(s.passes[id].gs) then t.server.ingresses == s.server.ingresses else t.server.routes == s.server.routes
  }

  /** A pass at its start, on any caches, with the gateway if it needs it. */
  predicate CanRoute(cfg: Config, s: State, id: PassId) {
    && id in s.passes && s.passes[id].pc == GetService
    && CacheOk(s.server, CacheOf(s, s.passes[id].proc))
    && (UsesGateway(s.passes[id].gs) ==> s.passes[id].proc in cfg.gatewayEnabled)
  }

  /** The same, with the current version of its game server in the cache. */
  predicate CanConverge(cfg: Config, s: State, id: PassId) {
    CanRoute(cfg, s, id) && CachesCurrent(s, id)
  }

  /** Convergence: an undisturbed pass whose cache holds the current version of its game server, and
      may be behind on everything else, ends with the Service and the route its event asks for, and
      settles the ready key; of the other kind of route it makes nothing. */
  lemma Converges(cfg: Config, s: State, id: PassId)
    requires CanConverge(cfg, s, id)
    requires Provided(cfg, CacheOf(s, s.passes[id].proc), s.passes[id].key, s.passes[id].gs)
    ensures Converged(s, Drive(cfg, s, id), id)
  {
    var b := RoutedPhase(cfg, s, id);
    CurrentIsKept(s, b, id);
    var c := ReadyPhase(cfg, b, id);
    PhasesCompose(s, b, c, id);
  }

  /** State b is s after a pass of s got its Service and its route. */
  predicate GotRouted(s: State, b: State, id: PassId) {
    && OnlyPass(s, b, id) && b.passes[id].pc == Decide
    && HasServiceAndRoute(b.server, s.passes[id].key, s.passes[id].gs)
    && if UsesGateway(s.passes[id].gs) then b.server.ingresses == s.server.ingresses else b.server.routes == s.server.routes
  }

  lemma RoutedPhase(cfg: Config, s: State, id: PassId) returns (b: State)
    requires CanRoute(cfg, s, id)
    requires Provided(cfg, CacheOf(s, s.passes[id].proc), s.passes[id].key, s.passes[id].gs)
    ensures GotRouted(s, b, id) && Drive(cfg, b, id) == Drive(cfg, s, id)
  {
    var a := ServicePhase(cfg, s, id);
    b := RoutePhase(cfg, a, id);
  }

  lemma PhasesCompose(s: State, b: State, c: State, id: PassId)
    requires GotRouted(s, b, id) && OnlyPassAndHistory(b, c, id) && Settled(b.server, c, id)
    ensures Converged(s, c, id)
  {
  }

  lemma CurrentIsKept(s: State, t: State, id: PassId)
    requires OnlyPass(s, t, id) && CachesCurrent(s, id)
    ensures CachesCurrent(t, id) && Versions(t.server, t.passes[id].key) == Versions(s.server, s.passes[id].key)
  {
  }

  // ---- Recovery -----------------------------------------------------------------------------------

  /** A process gets an event with a version of a game server, sees a version of it in its cache, and
      handles the event undisturbed. */
  function Handle(id: PassId, proc: Proc, k: Key, seen: nat, version: nat, n: nat): seq<Action> {
    [Deliver(id, proc, k, version), SeeGameServer(proc, k, seen)] + Solo(id, n)
  }

  /** The state before the event is handled. */
  function Delivered(cfg: Config, s: State, id: PassId, proc: Proc, k: Key, seen: nat, version: nat): State {
    Step(cfg, Step(cfg, s, Deliver(id, proc, k, version)), SeeGameServer(proc, k, seen))
  }

  /** State t is s with the event delivered and the version seen. */
  ghost predicate ReadyToHandle(cfg: Config, s: State, t: State, id: PassId, proc: Proc, k: Key, seen: nat, version: nat) {
    && version < |Versions(s.server, k)|
    && StateOk(cfg, t) && t.server == s.server && CanRoute(cfg, t, id)
    && t.passes[id] == NewPass(proc, version, Versions(s.server, k)[version].gs) && t.passes[id].key == k
    && CacheOf(t, proc) == CacheOf(s, proc).(gameServers := CacheOf(s, proc).gameServers[k := seen])
  }

  lemma DeliveredIsReady(cfg: Config, s: State, id: PassId, proc: Proc, k: Key, seen: nat, version: nat)
    requires StateOk(cfg, s) && id !in s.passes
    requires version < |Versions(s.server, k)| && seen < |Versions(s.server, k)|
    requires k in CacheOf(s, proc).gameServers ==> CacheOf(s, proc).gameServers[k] <= seen
    requires Eligible(Versions(s.server, k)[version].gs)
    requires UsesGateway(Versions(s.server, k)[version].gs) ==> proc in cfg.gatewayEnabled
    ensures ReadyToHandle(cfg, s, Delivered(cfg, s, id, proc, k, seen, version), id, proc, k, seen, version)
  {
    StepKeeps(cfg, s, Deliver(id, proc, k, version));
    StepKeeps(cfg, Step(cfg, s, Deliver(id, proc, k, version)), SeeGameServer(proc, k, seen));
    assert VersionOk(cfg, s.server, k, version);
  }

  /** Handling is a run. */
  lemma HandleIsDrive(cfg: Config, s: State, id: PassId, proc: Proc, k: Key, seen: nat, version: nat) returns (n: nat)
    requires id in Delivered(cfg, s, id, proc, k, seen, version).passes
    ensures Run(cfg, s, Handle(id, proc, k, seen, version, n)) == Drive(cfg, Delivered(cfg, s, id, proc, k, seen, version), id)
  {
    n := DriveIsRun(cfg, Delivered(cfg, s, id, proc, k, seen, version), id);
    var see, deliver := SeeGameServer(proc, k, seen), Deliver(id, proc, k, version);
    assert Handle(id, proc, k, seen, version, n) == [deliver] + ([see] + Solo(id, n));
    RunCons(cfg, s, deliver, [see] + Solo(id, n));
    RunCons(cfg, Step(cfg, s, deliver), see, Solo(id, n));
  }

  /** What one event of a game server takes to be handled by a process. */
  predicate CanHandle(cfg: Config, s: State, gs: GameServer, proc: Proc) {
    && Eligible(gs) && Provided(cfg, CacheOf(s, proc), KeyOf(gs), gs)
    && (UsesGateway(gs) ==> proc in cfg.gatewayEnabled)
  }

  lemma ReadyConverges(cfg: Config, s: State, t: State, id: PassId, proc: Proc, k: Key, version: nat)
    requires Versions(s.server, k) != [] && LastVersion(s.server, k).annotations != map[]
    requires ReadyToHandle(cfg, s, t, id, proc, k, |Versions(s.server, k)| - 1, version)
    requires Provided(cfg, CacheOf(s, proc), k, t.passes[id].gs)
    ensures Converged(t, Drive(cfg, t, id), id)
  {
    Converges(cfg, t, id);
  }

  /** One handled event, from any sound state. */
  lemma HandledConverges(cfg: Config, s: State, id: PassId, proc: Proc, k: Key, version: nat)
    returns (acts: seq<Action>, t: State, u: State)
    requires StateOk(cfg, s) && id !in s.passes && version < |Versions(s.server, k)|
    requires CanHandle(cfg, s, Versions(s.server, k)[version].gs, proc)
    requires LastVersion(s.server, k).annotations != map[]
    ensures u == Run(cfg, s, acts) && Converged(t, u, id) && NoOutside(acts)
    ensures ReadyToHandle(cfg, s, t, id, proc, k, |Versions(s.server, k)| - 1, version)
  {
    var last := |Versions(s.server, k)| - 1;
    SeenIsPast(cfg, s, proc, k);
    DeliveredIsReady(cfg, s, id, proc, k, last, version);
    t := Delivered(cfg, s, id, proc, k, last, version);
    var n := HandleIsDrive(cfg, s, id, proc, k, last, version);
    acts, u := Handle(id, proc, k, last, version, n), Drive(cfg, t, id);
    ReadyConverges(cfg, s, t, id, proc, k, version);
    HandleIsInside(id, proc, k, last, version, n);
  }

  lemma SeenIsPast(cfg: Config, s: State, proc: Proc, k: Key)
    requires StateOk(cfg, s)
    ensures k in CacheOf(s, proc).gameServers ==> CacheOf(s, proc).gameServers[k] < |Versions(s.server, k)|
  {
  }

  /** Nobody outside the controller acts. */
  predicate NoOutside(acts: seq<Action>) {
    forall a | a in acts :: !a.ExternalWrite? && !a.ExternalService? && !a.ExternalIngress? && !a.ExternalRoute?
  }

  lemma HandleIsInside(id: PassId, proc: Proc, k: Key, seen: nat, version: nat, n: nat)
    ensures NoOutside(Handle(id, proc, k, seen, version, n))
  {
    SoloIsInside(id, n);
  }

  lemma {:induction false} SoloIsInside(id: PassId, n: nat)
    ensures forall a | a in Solo(id, n) :: a == Advance(id, NoFault)
  {
    if n > 0 {
      SoloIsInside(id, n - 1);
    }
  }

  /** Recovery: whatever the other passes, the faults and the caches have been, from every sound state
      whose current version is eligible, buildable and has a ready value that parses, some continuation
      settles the game server: any process of its backend need only catch up and handle one event. */
  lemma Recovers(cfg: Config, s: State, id: PassId, proc: Proc, k: Key) returns (acts: seq<Action>)
    requires StateOk(cfg, s) && id !in s.passes && Versions(s.server, k) != []
    requires CanHandle(cfg, s, LastVersion(s.server, k), proc) && NeedsReady(LastVersion(s.server, k)).Some?
    ensures NoOutside(acts) && SettledNow(Run(cfg, s, acts).server, k)
  {
    var xs, t, u := HandledConverges(cfg, s, id, proc, k, |Versions(s.server, k)| - 1);
    acts := xs;
    ConvergedIsSettled(t, u, id);
  }

  // ---- Quiet --------------------------------------------------------------------------------------

  /** A pass that will write nothing: its process has seen the Service and the route, and its event
      was ready, or not parseable. */
  predicate Quiet(s: State, id: PassId) {
    && id in s.passes
    && var p, c := s.passes[id], CacheOf(s, s.passes[id].proc);
       && p.key in c.services && RouteCached(c, p) && NeedsReady(p.gs) != Some(true)
       && (p.pc.GetService? || p.pc.GetRoute? || p.pc.Decide? || p.pc.Finished?)
  }

  /** A quiet pass stays quiet under every action, and its own calls leave the server alone. */
  lemma QuietStep(cfg: Config, s: State, a: Action, id: PassId)
    requires Quiet(s, id)
    ensures Quiet(Step(cfg, s, a), id)
    ensures a.Advance? && a.id == id ==> Step(cfg, s, a).server == s.server
  {
    CachesOnlyLearn(cfg, s, a, s.passes[id].proc);
    PassesAfterStep(cfg, s, a, id);
  }

  lemma CachesOnlyLearn(cfg: Config, s: State, a: Action, proc: Proc)
    ensures var c, d := CacheOf(s, proc), CacheOf(Step(cfg, s, a), proc);
            c.services <= d.services && c.ingresses <= d.ingresses && c.routes <= d.routes
  {
  }

  /** In every run after it became quiet, none of the pass's calls changes the server. */
  lemma {:induction false} QuietRun(cfg: Config, s: State, acts: seq<Action>, id: PassId, i: nat)
    requires Quiet(s, id) && i < |acts|
    ensures acts[i].Advance? && acts[i].id == id ==>
            Run(cfg, s, acts[..i + 1]).server == Run(cfg, s, acts[..i]).server
    decreases acts
  {
    QuietStep(cfg, s, acts[0], id);
    if i == 0 {
      assert acts[..1] == [acts[0]];
    } else {
      QuietRun(cfg, Step(cfg, s, acts[0]), acts[1..], id, i - 1);
      assert acts[..i + 1][1..] == acts[1..][..i] && acts[..i][1..] == acts[1..][..i - 1];
    }
  }

  /** The current version is ready, and the Service and the route it asks for are there. */
  predicate SettledNow(srv: Server, k: Key) {
    var h := Versions(srv, k);
    h != [] && IsReady(h[|h| - 1].gs) && HasServiceAndRoute(srv, k, h[|h| - 1].gs)
  }

  /** A pass delivered for the current version of a settled game server, to a process with synced
      caches, is quiet. */
  lemma SettledIsQuiet(cfg: Config, s: State, id: PassId, proc: Proc, k: Key)
    requires StateOk(cfg, s) && id !in s.passes && SettledNow(s.server, k) && Synced(s, proc, k)
    ensures Quiet(Step(cfg, s, Deliver(id, proc, k, |Versions(s.server, k)| - 1)), id)
  {
    var h := Versions(s.server, k);
    assert VersionOk(cfg, s.server, k, |h| - 1);
  }

  lemma MarkedIsReady(gs: GameServer)
    ensures IsMarked(MarkReady(gs)) && (IsMarked(gs) ==> IsReady(gs)) && IsReady(MarkReady(gs))
  {
  }

  predicate NoOutsideWrites(acts: seq<Action>, k: Key) {
    forall a | a in acts :: a.ExternalWrite? ==> KeyOf(a.gs) != k
  }

  /** Setting the ready key does not change the backend. */
  lemma MarkingKeepsBackend(gs: GameServer)
    ensures UsesGateway(MarkReady(gs)) == UsesGateway(gs)
  {
    assert |BACKEND| == |READY| + 1;
  }

  /** From version n on, the controller wrote them all. */
  predicate OnlyMarks(h: seq<Version>, n: nat) {
    forall i | n <= i < |h| :: Marks(h, i) && h[i].writer.Controller?
  }

  /** The server's only change to a game server that nobody outside writes is the ready key. */
  lemma StepMarksOnly(cfg: Config, s: State, a: Action, k: Key)
    requires a.ExternalWrite? ==> KeyOf(a.gs) != k
    ensures var h, h' := Versions(s.server, k), Versions(Step(cfg, s, a).server, k);
            h <= h' && |h'| <= |h| + 1 && OnlyMarks(h', |h|)
  {
  }

  lemma MarksCompose(h: seq<Version>, g: seq<Version>, h': seq<Version>)
    requires h <= g <= h' && OnlyMarks(g, |h|) && OnlyMarks(h', |g|)
    ensures OnlyMarks(h', |h|)
  {
    forall i | |h| <= i < |g| ensures Marks(h', i) && h'[i].writer.Controller? {
      assert h'[i] == g[i] && h'[i - 1] == g[i - 1];
    }
  }

  /** In a run in which nobody outside writes a game server, its new versions are all marked ones. */
  lemma {:induction false} OnlyMarked(cfg: Config, s: State, acts: seq<Action>, k: Key)
    requires NoOutsideWrites(acts, k)
    ensures Versions(s.server, k) <= Versions(Run(cfg, s, acts).server, k)
    ensures OnlyMarks(Versions(Run(cfg, s, acts).server, k), |Versions(s.server, k)|)
    decreases acts
  {
    if acts != [] {
      var t := Step(cfg, s, acts[0]);
      StepMarksOnly(cfg, s, acts[0], k);
      assert forall a | a in acts[1..] :: a in acts;
      OnlyMarked(cfg, t, acts[1..], k);
      MarksCompose(Versions(s.server, k), Versions(t.server, k), Versions(Run(cfg, s, acts).server, k));
    }
  }

  /** What marking makes of a version, and leaves of it. */
  lemma MarkedVersion(h: seq<Version>, i: nat)
    requires Marks(h, i)
    ensures IsMarked(h[i].gs) && IsReady(h[i].gs) && h[i].gs.annotations != map[]
    ensures UsesGateway(h[i].gs) == UsesGateway(h[i - 1].gs)
  {
    MarkedIsReady(h[i - 1].gs);
    MarkingKeepsBackend(h[i - 1].gs);
    assert READY in h[i].gs.annotations;
  }

  /** Marked versions keep the backend of the last one before them. */
  lemma {:induction false} MarkedKeepBackend(h: seq<Version>, n: nat, i: nat)
    requires 0 < n <= i + 1 <= |h| && OnlyMarks(h, n)
    ensures UsesGateway(h[i].gs) == UsesGateway(h[n - 1].gs)
  {
    if n <= i {
      MarkedVersion(h, i);
      MarkedKeepBackend(h, n, i - 1);
    }
  }

  lemma StepKeepsSettled(cfg: Config, s: State, a: Action, k: Key)
    requires StateOk(cfg, s) && SettledNow(s.server, k)
    requires a.ExternalWrite? ==> KeyOf(a.gs) != k
    ensures SettledNow(Step(cfg, s, a).server, k)
  {
    var h, h' := Versions(s.server, k), Versions(Step(cfg, s, a).server, k);
    StepKeeps(cfg, s, a);
    StepMarksOnly(cfg, s, a, k);
    if |h'| > |h| {
      MarkedVersion(h', |h|);
    }
  }

  lemma {:induction false} RunKeepsSettled(cfg: Config, s: State, acts: seq<Action>, k: Key)
    requires StateOk(cfg, s) && SettledNow(s.server, k) && NoOutsideWrites(acts, k)
    ensures StateOk(cfg, Run(cfg, s, acts)) && SettledNow(Run(cfg, s, acts).server, k)
    decreases acts
  {
    if acts != [] {
      StepKeeps(cfg, s, acts[0]);
      StepKeepsSettled(cfg, s, acts[0], k);
      assert forall a | a in acts[1..] :: a in acts;
      RunKeepsSettled(cfg, Step(cfg, s, acts[0]), acts[1..], k);
    }
  }

  /** The pass's event carries the current version, and its ready value parses. */
  predicate UpToDate(s: State, id: PassId)
    requires id in s.passes
  {
    var p := s.passes[id];
    var h := Versions(s.server, p.key);
    h != [] && h[|h| - 1].gs == p.gs && NeedsReady(p.gs).Some?
  }

  /** Converging for the current version, with a ready value that parses, settles. */
  lemma ConvergedIsSettled(s: State, t: State, id: PassId)
    requires Converged(s, t, id) && UpToDate(s, id)
    ensures SettledNow(t.server, s.passes[id].key)
  {
    MarkedIsReady(s.passes[id].gs);
    MarkingKeepsBackend(s.passes[id].gs);
  }

  /** In no run from v does a call of the pass change the server. */
  ghost predicate NeverWrites(cfg: Config, v: State, id: PassId) {
    forall more: seq<Action>, i: nat | i < |more| && more[i].Advance? && more[i].id == id ::
      Run(cfg, v, more[..i + 1]).server == Run(cfg, v, more[..i]).server
  }

  lemma QuietNeverWrites(cfg: Config, v: State, id: PassId)
    requires Quiet(v, id)
    ensures NeverWrites(cfg, v, id)
  {
    forall more: seq<Action>, i: nat | i < |more| && more[i].Advance? && more[i].id == id
      ensures Run(cfg, v, more[..i + 1]).server == Run(cfg, v, more[..i]).server
    {
      QuietRun(cfg, v, more, id, i);
    }
  }

  /** A settled game server stays so, and new passes for its current version never write, in every run
      without outside writes to it. */
  lemma SettledStaysQuiet(cfg: Config, t: State, k: Key, acts: seq<Action>, u: State, id: PassId, proc: Proc)
    requires StateOk(cfg, t) && SettledNow(t.server, k) && NoOutsideWrites(acts, k)
    requires u == Run(cfg, t, acts) && id !in u.passes && Synced(u, proc, k)
    ensures NeverWrites(cfg, Step(cfg, u, Deliver(id, proc, k, |Versions(u.server, k)| - 1)), id)
  {
    RunKeepsSettled(cfg, t, acts, k);
    SettledIsQuiet(cfg, u, id, proc, k);
    QuietNeverWrites(cfg, Step(cfg, u, Deliver(id, proc, k, |Versions(u.server, k)| - 1)), id);
  }

  lemma ConvergesToSettled(cfg: Config, s: State, id: PassId) returns (t: State)
    requires StateOk(cfg, s) && CanConverge(cfg, s, id) && UpToDate(s, id)
    requires Provided(cfg, CacheOf(s, s.passes[id].proc), s.passes[id].key, s.passes[id].gs)
    ensures t == Drive(cfg, s, id) && StateOk(cfg, t) && SettledNow(t.server, s.passes[id].key)
  {
    var n := DriveIsRun(cfg, s, id);
    t := Drive(cfg, s, id);
    RunKeeps(cfg, s, Solo(id, n));
    Converges(cfg, s, id);
    ConvergedIsSettled(s, t, id);
  }

  /** Convergence for good: after one undisturbed pass for the current version, and any run in which
      nobody outside writes that game server, whatever the other passes and the faults do, a new pass
      for its current version on synced caches never changes the server, however that goes on. */
  lemma StaysConverged(cfg: Config, s: State, id: PassId, acts: seq<Action>, u: State, id': PassId, proc: Proc, k: Key)
    requires StateOk(cfg, s) && CanConverge(cfg, s, id) && UpToDate(s, id) && k == s.passes[id].key
    requires Provided(cfg, CacheOf(s, s.passes[id].proc), s.passes[id].key, s.passes[id].gs)
    requires NoOutsideWrites(acts, k) && u == Run(cfg, Drive(cfg, s, id), acts)
    requires id' !in u.passes && Synced(u, proc, k)
    ensures NeverWrites(cfg, Step(cfg, u, Deliver(id', proc, k, |Versions(u.server, k)| - 1)), id')
  {
    var t := ConvergesToSettled(cfg, s, id);
    SettledStaysQuiet(cfg, t, k, acts, u, id', proc);
  }
}
