/** What the ready key says of the game server that carries it, and what it does not. */
module Readiness {
  import opened Wrappers
  import opened GameServers
  import opened Resources
  import opened Protocol
  import opened Invariant
  import opened Safety
  import opened Convergence

  // ---- When it can be relied on -------------------------------------------------------------------

  /** Outside parties may keep a true ready value, but never introduce one. */
  predicate NoReadyFromOutside(srv: Server, k: Key) {
    var h := Versions(srv, k);
    forall i | 0 <= i < |h| :: h[i].writer.External? && IsReady(h[i].gs) ==> i > 0 && IsReady(h[i - 1].gs)
  }

  /** A reader may rely on the key: in every run in which all versions of a game server ask for one
      backend and nobody outside introduces a true ready value, each ready version has its Service and
      the route of its own backend. */
  lemma ReadyMeansRouted(cfg: Config, s: State, acts: seq<Action>, k: Key, gateway: bool, i: nat)
    requires Init(s) && i < |Versions(Run(cfg, s, acts).server, k)|
    requires SameBackend(Run(cfg, s, acts).server, k, gateway) && NoReadyFromOutside(Run(cfg, s, acts).server, k)
    requires IsReady(Versions(Run(cfg, s, acts).server, k)[i].gs)
    ensures HasServiceAndRoute(Run(cfg, s, acts).server, k, Versions(Run(cfg, s, acts).server, k)[i].gs)
  {
    InitOk(cfg, s);
    RunKeeps(cfg, s, acts);
    ReadyVersionIsRouted(cfg, Run(cfg, s, acts).server, k, gateway, i);
  }

  lemma {:induction false} ReadyVersionIsRouted(cfg: Config, srv: Server, k: Key, gateway: bool, i: nat)
    requires ServerOk(cfg, srv) && i < |Versions(srv, k)|
    requires SameBackend(srv, k, gateway) && NoReadyFromOutside(srv, k)
    requires IsReady(Versions(srv, k)[i].gs)
    ensures HasServiceAndRoute(srv, k, Versions(srv, k)[i].gs)
  {
    assert VersionOk(cfg, srv, k, i);
    if Versions(srv, k)[i].writer.External? {
      ReadyVersionIsRouted(cfg, srv, k, gateway, i - 1);
    }
  }

  // ---- When it misleads -----------------------------------------------------------------------------

  /** The current version is ready and lacks its Service or its route. */
  predicate Misled(srv: Server, k: Key) {
    Versions(srv, k) != [] && IsReady(LastVersion(srv, k)) && !HasServiceAndRoute(srv, k, LastVersion(srv, k))
  }

  /** An event that makes its process write the ready key, for a backend that is no longer asked for. */
  predicate StaleBackend(cfg: Config, srv: Server, k: Key, e: nat, proc: Proc) {
    var h := Versions(srv, k);
    && e < |h| && Eligible(h[e].gs) && NeedsReady(h[e].gs) == Some(true)
    && UsesGateway(h[e].gs) != UsesGateway(h[|h| - 1].gs) && (UsesGateway(h[e].gs) ==> proc in cfg.gatewayEnabled)
  }

  /** If the passes alone make the ready key mislead, an event for another backend made them, on a version
      that had annotations and lacked its route. */
  lemma MisledByStaleBackend(cfg: Config, s: State, acts: seq<Action>, k: Key) returns (e: nat, proc: Proc)
    requires StateOk(cfg, s) && Versions(s.server, k) != [] && !IsReady(LastVersion(s.server, k))
    requires NoOutsideWrites(acts, k) && Misled(Run(cfg, s, acts).server, k)
    ensures StaleBackend(cfg, s.server, k, e, proc)
    ensures LastVersion(s.server, k).annotations != map[] && !RouteHeld(s.server, k, LastVersion(s.server, k))
  {
    RunKeeps(cfg, s, acts);
    OnlyMarked(cfg, s, acts, k);
    var srv := Run(cfg, s, acts).server;
    var h, h' := Versions(s.server, k), Versions(srv, k);
    var i := |h'| - 1;
    assert i >= |h|;
    assert VersionOk(cfg, srv, k, i) && VersionOk(cfg, srv, k, |h|);
    e, proc := h'[i].writer.version, h'[i].writer.proc;
    forall j | |h| <= j < |h'| ensures IsReady(h'[j].gs) {
      MarkedVersion(h', j);
    }
    MarkedKeepBackend(h', |h|, i);
  }

  /** Conversely, such an event, handled, makes it mislead. */
  lemma StaleBackendMisleads(cfg: Config, s: State, id: PassId, k: Key, e: nat, proc: Proc) returns (acts: seq<Action>)
    requires StateOk(cfg, s) && id !in s.passes && StaleBackend(cfg, s.server, k, e, proc)
    requires CanHandle(cfg, s, Versions(s.server, k)[e].gs, proc)
    requires LastVersion(s.server, k).annotations != map[] && !RouteHeld(s.server, k, LastVersion(s.server, k))
    ensures NoOutside(acts) && Misled(Run(cfg, s, acts).server, k)
  {
    var xs, t, u := HandledConverges(cfg, s, id, proc, k, e);
    acts := xs;
    ConvergedForStaleMisleads(t, u, id, k);
  }

  lemma ConvergedForStaleMisleads(t: State, u: State, id: PassId, k: Key)
    requires Converged(t, u, id) && t.passes[id].key == k && NeedsReady(t.passes[id].gs) == Some(true)
    requires Versions(t.server, k) != []
    requires UsesGateway(t.passes[id].gs) != UsesGateway(LastVersion(t.server, k))
    requires !RouteHeld(t.server, k, LastVersion(t.server, k))
    ensures Misled(u.server, k)
  {
    MarkedIsReady(LastVersion(t.server, k));
    MarkingKeepsBackend(LastVersion(t.server, k));
  }

  // ---- Outsiders can provide what cannot be built -----------------------------------------------------

  /** Somebody else makes the Service, or a route, and a process sees it. */
  function OutsideService(k: Key, proc: Proc): seq<Action> {
    [ExternalService(Service(k.0, k.1, map[], map[], "", [], map[])), SeeService(proc, k)]
  }

  function OutsideRoute(k: Key, gateway: bool, proc: Proc): seq<Action> {
    if gateway then [ExternalRoute(HTTPRoute(k.0, k.1, map[], map[], [], [], [])), SeeRoute(proc, k)]
    else [ExternalIngress(Ingress(k.0, k.1, map[], map[], [], [], None)), SeeIngress(proc, k)]
  }

  function Outsiders(k: Key, gateway: bool, proc: Proc): seq<Action> {
    OutsideService(k, proc) + OutsideRoute(k, gateway, proc)
  }

  lemma TwoSteps(cfg: Config, s: State, a: Action, b: Action)
    ensures Run(cfg, s, [a, b]) == Step(cfg, Step(cfg, s, a), b)
  {
    assert [a, b] == [a] + [b] && [b] == [b] + [];
    RunCons(cfg, s, a, [b]);
    RunCons(cfg, Step(cfg, s, a), b, []);
  }

  lemma OutsideServiceProvides(cfg: Config, s: State, k: Key, proc: Proc)
    ensures var t := Run(cfg, s, OutsideService(k, proc));
            && t.passes == s.passes && t.server == s.server.(services := t.server.services)
            && CacheOf(t, proc) == CacheOf(s, proc).(services := CacheOf(s, proc).services + {k})
  {
    var acts := OutsideService(k, proc);
    TwoSteps(cfg, s, acts[0], acts[1]);
  }

  lemma OutsideRouteProvides(cfg: Config, s: State, k: Key, gateway: bool, proc: Proc)
    ensures var t := Run(cfg, s, OutsideRoute(k, gateway, proc));
            && t.passes == s.passes
            && t.server == (if gateway then s.server.(routes := t.server.routes) else s.server.(ingresses := t.server.ingresses))
            && CacheOf(t, proc) == if gateway then CacheOf(s, proc).(routes := CacheOf(s, proc).routes + {k})
                                   else CacheOf(s, proc).(ingresses := CacheOf(s, proc).ingresses + {k})
  {
    var acts := OutsideRoute(k, gateway, proc);
    TwoSteps(cfg, s, acts[0], acts[1]);
  }

  lemma OutsidersProvide(cfg: Config, s: State, k: Key, gateway: bool, proc: Proc) returns (t: State)
    requires StateOk(cfg, s)
    ensures t == Run(cfg, s, Outsiders(k, gateway, proc)) && StateOk(cfg, t)
    ensures t.passes == s.passes && t.server.history == s.server.history
    ensures if gateway then t.server.ingresses == s.server.ingresses else t.server.routes == s.server.routes
    ensures var c := CacheOf(t, proc);
            && c.gameServers == CacheOf(s, proc).gameServers
            && k in c.services && if gateway then k in c.routes else k in c.ingresses
  {
    t := Run(cfg, s, Outsiders(k, gateway, proc));
    RunKeeps(cfg, s, Outsiders(k, gateway, proc));
    RunAppend(cfg, s, OutsideService(k, proc), OutsideRoute(k, gateway, proc));
    OutsideServiceProvides(cfg, s, k, proc);
    OutsideRouteProvides(cfg, Run(cfg, s, OutsideService(k, proc)), k, gateway, proc);
  }

  lemma OutsidersDoNotWrite(k: Key, gateway: bool, proc: Proc, acts: seq<Action>, k': Key)
    requires NoOutside(acts)
    ensures NoOutsideWrites(Outsiders(k, gateway, proc) + acts, k')
  {
  }

  // ---- Exactly ------------------------------------------------------------------------------------------

  /** What can make the ready key mislead: it does so already, or it is not set, and the current version,
      which can be marked, lacks a route while an event for the other backend can still be handled. */
  ghost predicate CanMislead(cfg: Config, srv: Server, k: Key)
    requires Versions(srv, k) != []
  {
    var current := LastVersion(srv, k);
    if IsReady(current) then !HasServiceAndRoute(srv, k, current)
    else
      && current.annotations != map[] && !RouteHeld(srv, k, current)
      && exists e, proc :: StaleBackend(cfg, srv, k, e, proc)
  }

  lemma StaleBackendCanMislead(cfg: Config, s: State, k: Key, e: nat, proc: Proc) returns (acts: seq<Action>)
    requires StateOk(cfg, s) && StaleBackend(cfg, s.server, k, e, proc)
    requires LastVersion(s.server, k).annotations != map[] && !RouteHeld(s.server, k, LastVersion(s.server, k))
    ensures NoOutsideWrites(acts, k) && Misled(Run(cfg, s, acts).server, k)
  {
    var gs := Versions(s.server, k)[e].gs;
    assert VersionOk(cfg, s.server, k, e);
    var t := OutsidersProvide(cfg, s, k, UsesGateway(gs), proc);
    var id := FreshPass(t.passes);
    var more := StaleBackendMisleads(cfg, t, id, k, e, proc);
    acts := Outsiders(k, UsesGateway(gs), proc) + more;
    OutsidersDoNotWrite(k, UsesGateway(gs), proc, more, k);
    RunAppend(cfg, s, Outsiders(k, UsesGateway(gs), proc), more);
  }

  /** Misleading, exactly: from a sound state, some continuation without outside writes to the game server
      leaves its current version ready without its Service or its route if and only if `CanMislead`. */
  lemma MisleadsExactly(cfg: Config, s: State, k: Key)
    requires StateOk(cfg, s) && Versions(s.server, k) != []
    ensures (exists acts :: NoOutsideWrites(acts, k) && Misled(Run(cfg, s, acts).server, k))
            <==> CanMislead(cfg, s.server, k)
  {
    if acts :| NoOutsideWrites(acts, k) && Misled(Run(cfg, s, acts).server, k) {
      if !IsReady(LastVersion(s.server, k)) {
        var e, proc := MisledByStaleBackend(cfg, s, acts, k);
      } else if HasServiceAndRoute(s.server, k, LastVersion(s.server, k)) {
        RunKeepsSettled(cfg, s, acts, k);
      }
    }
    if CanMislead(cfg, s.server, k) {
      if IsReady(LastVersion(s.server, k)) {
        assert NoOutsideWrites([], k) && Run(cfg, s, []) == s;
      } else {
        var e, proc :| StaleBackend(cfg, s.server, k, e, proc);
        var acts := StaleBackendCanMislead(cfg, s, k, e, proc);
      }
    }
  }

  /** There is always another pass to deliver. */
  lemma FreshPass(passes: map<PassId, Pass>) returns (id: PassId)
    ensures id !in passes
  {
    id := Above(passes.Keys);
  }

  lemma {:induction false} Above(ids: set<PassId>) returns (n: nat)
    ensures forall i | i in ids :: i < n
  {
    if ids == {} {
      n := 0;
    } else {
      var i :| i in ids;
      var m := Above(ids - {i});
      n := if m > i then m else i + 1;
      assert forall j | j in ids :: j == i || j in ids - {i};
    }
  }

  // ---- A run that misleads ---------------------------------------------------------------------------

  const EMPTY_STATE := State(Server(map[], map[], map[], map[]), map[], map[])

  /** A pass for an Ingress is delivered, the game server then asks for the gateway, and the pass goes on. */
  function SwitchedBackend(a: GameServer, b: GameServer): seq<Action> {
    [ExternalWrite(a), Deliver(0, 0, KeyOf(a), 0), ExternalWrite(b), SeeGameServer(0, KeyOf(a), 1)]
  }

  /** It writes the ready key for the Ingress on a version that asks for an HTTPRoute and has none. */
  lemma SwitchedBackendMisleads(cfg: Config, a: GameServer, b: GameServer) returns (n: nat)
    requires KeyOf(a) == KeyOf(b) && CanHandle(cfg, EMPTY_STATE, a, 0) && NeedsReady(a) == Some(true)
    requires !UsesGateway(a) && UsesGateway(b) && b.annotations != map[]
    ensures Init(EMPTY_STATE)
    ensures var srv := Run(cfg, EMPTY_STATE, SwitchedBackend(a, b) + Solo(0, n)).server;
            Misled(srv, KeyOf(a)) && LastVersion(srv, KeyOf(a)) == MarkReady(b) && KeyOf(a) !in srv.routes
  {
    var t := Run(cfg, EMPTY_STATE, SwitchedBackend(a, b));
    SwitchedState(cfg, a, b);
    n := DriveIsRun(cfg, t, 0);
    RunAppend(cfg, EMPTY_STATE, SwitchedBackend(a, b), Solo(0, n));
    Converges(cfg, t, 0);
    ConvergedForStaleMisleads(t, Drive(cfg, t, 0), 0, KeyOf(a));
  }

  lemma SwitchedState(cfg: Config, a: GameServer, b: GameServer)
    requires KeyOf(a) == KeyOf(b) && Eligible(a)
    ensures var t := Run(cfg, EMPTY_STATE, SwitchedBackend(a, b));
            && t.server == EMPTY_STATE.server.(history := map[KeyOf(a) := [Version(a, External), Version(b, External)]])
            && t.caches == map[0 := Cache({}, {}, {}, map[KeyOf(a) := 1])]
            && t.passes == map[0 := NewPass(0, 0, a)]
  {
    var k := KeyOf(a);
    var s1 := Step(cfg, EMPTY_STATE, ExternalWrite(a));
    var va, vb := Version(a, External), Version(b, External);
    assert [] + [va] == [va] && [va] + [vb] == [va, vb];
    assert s1.server.history == map[k := [va]];
    var s2 := Step(cfg, s1, Deliver(0, 0, k, 0));
    assert s2.passes == map[0 := NewPass(0, 0, a)];
    var s3 := Step(cfg, s2, ExternalWrite(b));
    assert s3.server.history == map[k := [va, vb]];
    var acts := SwitchedBackend(a, b);
    RunCons(cfg, EMPTY_STATE, acts[0], acts[1..]);
    RunCons(cfg, s1, acts[1], acts[2..]);
    RunCons(cfg, s2, acts[2], acts[3..]);
    RunCons(cfg, s3, acts[3], []);
    assert acts == [acts[0]] + acts[1..] && acts[1..] == [acts[1]] + acts[2..]
        && acts[2..] == [acts[2]] + acts[3..] && acts[3..] == [acts[3]] + [];
  }
}
