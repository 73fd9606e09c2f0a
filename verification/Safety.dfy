/** Safety over whole runs: any number of passes and processes, stale caches, failing calls and
    outside writers. */
module Safety {
  import opened Wrappers
  import opened GameServers
  import opened Protocol
  import opened Invariant

  // ---- Readiness ------------------------------------------------------------------------------

  /** The pass whose next call, under `fault`, writes the ready key. */
  predicate WritesReady(s: State, id: PassId, fault: Fault) {
    && id in s.passes && s.passes[id].pc.UpdateGameServer?
    && Accepts(s.server, s.passes[id].key, s.passes[id].pc.copy, fault)
  }

  predicate HasServiceAndRoute(srv: Server, k: Key, gs: GameServer) {
    k in srv.services && RouteHeld(srv, k, gs)
  }

  /** Whenever a pass writes the ready key, the server already holds the Service and the kind of
      route that the pass's event asks for, and holds them ever after. */
  lemma ReadyImpliesRouted(cfg: Config, s: State, before: seq<Action>, id: PassId, fault: Fault, after: seq<Action>)
    requires Init(s)
    requires WritesReady(Run(cfg, s, before), id, fault)
    ensures var now := Run(cfg, s, before);
            var p := now.passes[id];
            var written := Step(cfg, now, Advance(id, fault));
            && IsReadyNow(written.server, p.key)
            && HasServiceAndRoute(now.server, p.key, p.gs)
            && HasServiceAndRoute(written.server, p.key, p.gs)
            && HasServiceAndRoute(Run(cfg, written, after).server, p.key, p.gs)
  {
    InitOk(cfg, s);
    RunKeeps(cfg, s, before);
    var now := Run(cfg, s, before);
    WriterIsRouted(cfg, now, id, fault);
    StepKeeps(cfg, now, Advance(id, fault));
    var written := Step(cfg, now, Advance(id, fault));
    RunKeeps(cfg, written, after);
    GrowthKeepsBoth(now.server, written.server, now.passes[id].key, now.passes[id].gs);
    GrowthKeepsBoth(written.server, Run(cfg, written, after).server, now.passes[id].key, now.passes[id].gs);
  }

  /** The current version of a game server has the ready value "true". */
  predicate IsReadyNow(srv: Server, k: Key) {
    Versions(srv, k) != [] && IsMarked(LastVersion(srv, k))
  }

  lemma WriterIsRouted(cfg: Config, s: State, id: PassId, fault: Fault)
    requires StateOk(cfg, s) && WritesReady(s, id, fault)
    ensures HasServiceAndRoute(s.server, s.passes[id].key, s.passes[id].gs)
    ensures IsReadyNow(Step(cfg, s, Advance(id, fault)).server, s.passes[id].key)
  {
    var p := s.passes[id];
    assert PassOk(cfg, s.server, p);
    AcceptedIsReady(s.server, p, p.pc.copy, fault);
  }

  lemma AcceptedIsReady(srv: Server, p: Pass, copy: nat, fault: Fault)
    requires Accepts(srv, p.key, copy, fault)
    ensures IsReadyNow(StepUpdateServer(srv, p, copy, fault), p.key)
  {
    if !IsMarked(Versions(srv, p.key)[copy].gs) {
      AppendGrows(srv, p.key, Version(MarkReady(Versions(srv, p.key)[copy].gs), By(p)));
    }
  }

  lemma GrowthKeepsBoth(a: Server, b: Server, k: Key, gs: GameServer)
    requires Grows(a, b) && HasServiceAndRoute(a, k, gs)
    ensures HasServiceAndRoute(b, k, gs)
  {
  }

  // ---- No lost updates --------------------------------------------------------------------------

  /** A game server without its ready key. */
  function BesidesReady(gs: GameServer): GameServer {
    gs.(annotations := gs.annotations - {READY})
  }

  /** The last version an outside party wrote, up to index i. */
  function LastExternal(h: seq<Version>, i: nat): (j: nat)
    requires i < |h|
    ensures j <= i && forall l | j < l <= i :: h[l].writer != External
  {
    if i == 0 || h[i].writer == External then i else LastExternal(h, i - 1)
  }

  /** No lost updates, whatever the caches showed: every version the controller wrote is the version
      just before it with the ready key set, so that apart from the ready key every version equals
      the last one an outside party wrote. */
  lemma NoLostUpdates(cfg: Config, s: State, acts: seq<Action>, k: Key, i: nat)
    requires Init(s) && i < |Versions(Run(cfg, s, acts).server, k)|
    ensures var h := Versions(Run(cfg, s, acts).server, k);
            && (h[i].writer.Controller? ==> i > 0 && h[i].gs == MarkReady(h[i - 1].gs))
            && h[LastExternal(h, i)].writer == External
            && BesidesReady(h[i].gs) == BesidesReady(h[LastExternal(h, i)].gs)
  {
    InitOk(cfg, s);
    RunKeeps(cfg, s, acts);
    LastExternalAgrees(cfg, Run(cfg, s, acts).server, k, i);
    assert VersionOk(cfg, Run(cfg, s, acts).server, k, i);
  }

  lemma {:induction false} LastExternalAgrees(cfg: Config, srv: Server, k: Key, i: nat)
    requires ServerOk(cfg, srv) && i < |Versions(srv, k)|
    ensures var h := Versions(srv, k);
            && h[LastExternal(h, i)].writer == External
            && BesidesReady(h[i].gs) == BesidesReady(h[LastExternal(h, i)].gs)
  {
    var h := Versions(srv, k);
    assert VersionOk(cfg, srv, k, i);
    if h[i].writer != External {
      LastExternalAgrees(cfg, srv, k, i - 1);
      var m := h[i - 1].gs.annotations;
      assert m[READY := "true"] - {READY} == m - {READY};
    }
  }

  // ---- First writer wins ------------------------------------------------------------------------

  /** Objects are never changed or removed once they are there. */
  lemma FirstWriterWins(cfg: Config, s: State, xs: seq<Action>, ys: seq<Action>, k: Key)
    requires Init(s)
    ensures var a, b := Run(cfg, s, xs).server, Run(cfg, s, xs + ys).server;
            && (k in a.services ==> k in b.services && b.services[k] == a.services[k])
            && (k in a.ingresses ==> k in b.ingresses && b.ingresses[k] == a.ingresses[k])
            && (k in a.routes ==> k in b.routes && b.routes[k] == a.routes[k])
            && Versions(a, k) <= Versions(b, k)
  {
    InitOk(cfg, s);
    RunKeeps(cfg, s, xs);
    RunKeeps(cfg, Run(cfg, s, xs), ys);
    RunAppend(cfg, s, xs, ys);
  }

  /** In any run at most one step creates the Service, at most one the Ingress and at most one the
      HTTPRoute of a key. */
  lemma AtMostOneCreate(cfg: Config, s: State, acts: seq<Action>, i: nat, j: nat, k: Key)
    requires Init(s) && i < j < |acts|
    ensures var at, then_, later, next := Run(cfg, s, acts[..i]).server, Run(cfg, s, acts[..i + 1]).server,
                                          Run(cfg, s, acts[..j]).server, Run(cfg, s, acts[..j + 1]).server;
            && !(k !in at.services && k in then_.services && k !in later.services && k in next.services)
            && !(k !in at.ingresses && k in then_.ingresses && k !in later.ingresses && k in next.ingresses)
            && !(k !in at.routes && k in then_.routes && k !in later.routes && k in next.routes)
  {
    assert acts[..j] == acts[..i + 1] + acts[i + 1..j];
    FirstWriterWins(cfg, s, acts[..i + 1], acts[i + 1..j], k);
  }

  // ---- Backends -----------------------------------------------------------------------------------

  /** No outside party makes routes under the key. */
  predicate NoOutsideRoutes(acts: seq<Action>, k: Key) {
    forall a | a in acts ::
      && (a.ExternalIngress? ==> (a.ingress.namespace, a.ingress.name) != k)
      && (a.ExternalRoute? ==> (a.route.namespace, a.route.name) != k)
  }

  predicate RoutesAreOurs(srv: Server, k: Key) {
    && (k in srv.ingresses ==> srv.ingresses[k].writer.Controller?)
    && (k in srv.routes ==> srv.routes[k].writer.Controller?)
  }

  lemma {:induction false} RunKeepsRoutesOurs(cfg: Config, s: State, acts: seq<Action>, k: Key)
    requires RoutesAreOurs(s.server, k) && NoOutsideRoutes(acts, k)
    ensures RoutesAreOurs(Run(cfg, s, acts).server, k)
    decreases acts
  {
    if acts != [] {
      StepKeepsRoutesOurs(cfg, s, acts[0], k);
      assert forall a | a in acts[1..] :: a in acts;
      RunKeepsRoutesOurs(cfg, Step(cfg, s, acts[0]), acts[1..], k);
    }
  }

  lemma StepKeepsRoutesOurs(cfg: Config, s: State, a: Action, k: Key)
    requires RoutesAreOurs(s.server, k) && NoOutsideRoutes([a], k)
    ensures RoutesAreOurs(Step(cfg, s, a).server, k)
  {
    assert a in [a];
    if a.Advance? && a.id in s.passes {
      StepPassKeepsRoutesOurs(cfg, s.server, CacheOf(s, s.passes[a.id].proc), s.passes[a.id], a.fault, k);
    }
  }

  lemma StepPassKeepsRoutesOurs(cfg: Config, srv: Server, cache: Cache, p: Pass, fault: Fault, k: Key)
    requires RoutesAreOurs(srv, k)
    ensures RoutesAreOurs(StepPass(cfg, srv, cache, p, fault).0, k)
  {
  }

  /** Every version of the game server asks for the same backend. */
  ghost predicate SameBackend(srv: Server, k: Key, gateway: bool) {
    forall i | 0 <= i < |Versions(srv, k)| :: UsesGateway(Versions(srv, k)[i].gs) == gateway
  }

  /** Backend exclusivity: if nobody else makes routes under the key and the backend annotation
      never changes, no run holds an Ingress and an HTTPRoute for it, and what it holds is of the
      kind asked for. */
  lemma BackendExclusive(cfg: Config, s: State, acts: seq<Action>, k: Key, gateway: bool)
    requires Init(s) && k !in s.server.ingresses && k !in s.server.routes
    requires NoOutsideRoutes(acts, k)
    requires SameBackend(Run(cfg, s, acts).server, k, gateway)
    ensures var srv := Run(cfg, s, acts).server;
            if gateway then k !in srv.ingresses else k !in srv.routes
  {
    InitOk(cfg, s);
    RunKeeps(cfg, s, acts);
    RunKeepsRoutesOurs(cfg, s, acts, k);
  }

  /** With the gateway backend disabled in every process, a game server that asks for it gets no
      Ingress, no HTTPRoute and no ready write in any run. */
  lemma DisabledGatewayDoesNothing(cfg: Config, s: State, acts: seq<Action>, k: Key, i: nat)
    requires Init(s) && k !in s.server.ingresses && k !in s.server.routes
    requires NoOutsideRoutes(acts, k)
    requires SameBackend(Run(cfg, s, acts).server, k, true) && cfg.gatewayEnabled == {}
    ensures var srv := Run(cfg, s, acts).server;
            k !in srv.ingresses && k !in srv.routes
            && (i < |Versions(srv, k)| ==> Versions(srv, k)[i].writer == External)
  {
    BackendExclusive(cfg, s, acts, k, true);
    InitOk(cfg, s);
    RunKeeps(cfg, s, acts);
    RunKeepsRoutesOurs(cfg, s, acts, k);
    if i < |Versions(Run(cfg, s, acts).server, k)| {
      assert VersionOk(cfg, Run(cfg, s, acts).server, k, i);
    }
  }

  // ---- A ready value that does not parse ------------------------------------------------------------

  /** If outside parties only ever write a ready value that does not parse, the controller never
      overwrites it in any run. */
  lemma UnparseableStays(cfg: Config, s: State, acts: seq<Action>, k: Key, i: nat)
    requires Init(s) && i < |Versions(Run(cfg, s, acts).server, k)|
    requires var h := Versions(Run(cfg, s, acts).server, k);
             forall j | 0 <= j < |h| && h[j].writer == External :: NeedsReady(h[j].gs) == None
    ensures Versions(Run(cfg, s, acts).server, k)[i].writer == External
  {
    InitOk(cfg, s);
    RunKeeps(cfg, s, acts);
    NeverWritten(cfg, Run(cfg, s, acts).server, k, i);
  }

  lemma {:induction false} NeverWritten(cfg: Config, srv: Server, k: Key, i: nat)
    requires ServerOk(cfg, srv) && i < |Versions(srv, k)|
    requires var h := Versions(srv, k);
             forall j | 0 <= j < |h| && h[j].writer == External :: NeedsReady(h[j].gs) == None
    ensures Versions(srv, k)[i].writer == External
  {
    assert VersionOk(cfg, srv, k, i);
    if Versions(srv, k)[i].writer.Controller? {
      NeverWritten(cfg, srv, k, Versions(srv, k)[i].writer.version);
    }
  }
}
