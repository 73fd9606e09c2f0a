/** The write into an absent annotation map: exactly when it panics a pass. */
module Panics {
  import opened Wrappers
  import opened GameServers
  import opened Protocol
  import opened Invariant
  import opened Convergence
  import opened Readiness

  const PANICKED := Finished(Panicked)

  /** Version i of a game server has no annotations. */
  predicate Bare(srv: Server, k: Key, i: nat) {
    i < |Versions(srv, k)| && Versions(srv, k)[i].gs.annotations == map[]
  }

  /** The action is a read of pass `id`, and the cached copy it gets has no annotations. */
  predicate ReadsBare(s: State, a: Action, id: PassId) {
    && a == Advance(id, NoFault) && id in s.passes && s.passes[id].pc.ReadGameServer?
    && var p := s.passes[id];
       var seen := CacheOf(s, p.proc).gameServers;
       p.key in seen && Bare(s.server, p.key, seen[p.key])
  }

  predicate HasPanicked(s: State, id: PassId) {
    id in s.passes && s.passes[id].pc == PANICKED
  }

  /** Step by step: a pass that has not panicked does so exactly by such a read, and a panic is final. */
  lemma StepPanicsExactly(cfg: Config, s: State, a: Action, id: PassId)
    ensures HasPanicked(Step(cfg, s, a), id) <==> HasPanicked(s, id) || ReadsBare(s, a, id)
  {
    if a.Advance? && a.id == id && id in s.passes {
      StepPassPanicsExactly(cfg, s.server, CacheOf(s, s.passes[id].proc), s.passes[id], a.fault);
    } else if id in Step(cfg, s, a).passes {
      PassesAfterStep(cfg, s, a, id);
    }
  }

  lemma StepPassPanicsExactly(cfg: Config, srv: Server, cache: Cache, p: Pass, fault: Fault)
    ensures StepPass(cfg, srv, cache, p, fault).1.pc == PANICKED <==>
            || p.pc == PANICKED
            || (p.pc.ReadGameServer? && fault == NoFault
                && p.key in cache.gameServers && Bare(srv, p.key, cache.gameServers[p.key]))
  {
  }

  lemma {:induction false} PanicHasRead(cfg: Config, s: State, acts: seq<Action>, id: PassId) returns (j: nat)
    requires !HasPanicked(s, id) && HasPanicked(Run(cfg, s, acts), id)
    ensures j < |acts| && ReadsBare(Run(cfg, s, acts[..j]), acts[j], id)
    decreases acts
  {
    StepPanicsExactly(cfg, s, acts[0], id);
    if ReadsBare(s, acts[0], id) {
      j := 0;
    } else {
      var i := PanicHasRead(cfg, Step(cfg, s, acts[0]), acts[1..], id);
      j := i + 1;
      assert acts[..j] == [acts[0]] + acts[1..][..i];
      RunCons(cfg, s, acts[0], acts[1..][..i]);
    }
  }

  lemma {:induction false} PanicIsFinal(cfg: Config, s: State, acts: seq<Action>, id: PassId)
    requires HasPanicked(s, id)
    ensures HasPanicked(Run(cfg, s, acts), id)
    decreases acts
  {
    if acts != [] {
      StepPanicsExactly(cfg, s, acts[0], id);
      PanicIsFinal(cfg, Step(cfg, s, acts[0]), acts[1..], id);
    }
  }

  /** In every run, a pass has panicked if and only if at some moment it read, without a fault, a cached
      copy that has no annotations. */
  lemma PanicsExactly(cfg: Config, s: State, acts: seq<Action>, id: PassId)
    requires !HasPanicked(s, id)
    ensures HasPanicked(Run(cfg, s, acts), id)
            <==> exists j: nat :: j < |acts| && ReadsBare(Run(cfg, s, acts[..j]), acts[j], id)
  {
    if HasPanicked(Run(cfg, s, acts), id) {
      var j := PanicHasRead(cfg, s, acts, id);
    }
    if j: nat :| j < |acts| && ReadsBare(Run(cfg, s, acts[..j]), acts[j], id) {
      var t := Run(cfg, s, acts[..j]);
      StepPanicsExactly(cfg, t, acts[j], id);
      assert acts == acts[..j] + acts[j..] && acts[j..] == [acts[j]] + acts[j + 1..];
      RunAppend(cfg, s, acts[..j], acts[j..]);
      RunCons(cfg, t, acts[j], acts[j + 1..]);
      PanicIsFinal(cfg, Step(cfg, t, acts[j]), acts[j + 1..], id);
    }
  }

  /** In every run, a pass panics only if some version of its game server has no annotations: one that
      has carried an annotation in every version never panics a pass. */
  lemma PanicNeedsBare(cfg: Config, s: State, acts: seq<Action>, id: PassId)
    requires Init(s) && HasPanicked(Run(cfg, s, acts), id)
    ensures exists i :: Bare(Run(cfg, s, acts).server, Run(cfg, s, acts).passes[id].key, i)
  {
    InitOk(cfg, s);
    var j, k, i := PanicReads(cfg, s, acts, id);
    RunSplits(cfg, s, acts, j);
    assert Versions(Run(cfg, s, acts[..j]).server, k) <= Versions(Run(cfg, s, acts).server, k);
    assert Bare(Run(cfg, s, acts).server, k, i);
  }

  /** The read that panicked a pass, with the key and the version read. */
  lemma PanicReads(cfg: Config, s: State, acts: seq<Action>, id: PassId) returns (j: nat, k: Key, i: nat)
    requires !HasPanicked(s, id) && HasPanicked(Run(cfg, s, acts), id)
    ensures j < |acts| && ReadsBare(Run(cfg, s, acts[..j]), acts[j], id)
    ensures k == Run(cfg, s, acts[..j]).passes[id].key == Run(cfg, s, acts).passes[id].key
    ensures var r := Run(cfg, s, acts[..j]); i == CacheOf(r, r.passes[id].proc).gameServers[k] && Bare(r.server, k, i)
  {
    j := PanicHasRead(cfg, s, acts, id);
    var r := Run(cfg, s, acts[..j]);
    k := r.passes[id].key;
    i := CacheOf(r, r.passes[id].proc).gameServers[k];
    assert acts == acts[..j] + acts[j..];
    RunAppend(cfg, s, acts[..j], acts[j..]);
    KeyIsKept(cfg, r, acts[j..], id);
  }

  lemma {:induction false} KeyIsKept(cfg: Config, s: State, acts: seq<Action>, id: PassId)
    requires id in s.passes
    ensures id in Run(cfg, s, acts).passes && Run(cfg, s, acts).passes[id].key == s.passes[id].key
    decreases acts
  {
    if acts != [] {
      PassesAfterStep(cfg, s, acts[0], id);
      KeyIsKept(cfg, Step(cfg, s, acts[0]), acts[1..], id);
    }
  }

  lemma RunSplits(cfg: Config, s: State, acts: seq<Action>, j: nat)
    requires StateOk(cfg, s) && j <= |acts|
    ensures StateOk(cfg, Run(cfg, s, acts[..j]))
    ensures Grows(Run(cfg, s, acts[..j]).server, Run(cfg, s, acts).server)
  {
    assert acts == acts[..j] + acts[j..];
    RunAppend(cfg, s, acts[..j], acts[j..]);
    RunKeeps(cfg, s, acts[..j]);
    RunKeeps(cfg, Run(cfg, s, acts[..j]), acts[j..]);
  }

  // ---- Which states can come to it ----------------------------------------------------------------

  /** The cache of a process is not past version i. */
  predicate MayRead(s: State, k: Key, i: nat, proc: Proc) {
    k in CacheOf(s, proc).gameServers ==> CacheOf(s, proc).gameServers[k] <= i
  }

  /** A process may yet read version i, which has no annotations, in a pass for version e. */
  predicate CanPanic(cfg: Config, s: State, k: Key, i: nat, e: nat, proc: Proc) {
    && Bare(s.server, k, i) && e < |Versions(s.server, k)|
    && MayRead(s, k, i, proc)
    && var gs := Versions(s.server, k)[e].gs;
       Eligible(gs) && NeedsReady(gs) == Some(true) && (UsesGateway(gs) ==> proc in cfg.gatewayEnabled)
  }

  /** Caches never go back to older versions. */
  lemma {:induction false} CacheMovesOn(cfg: Config, s: State, acts: seq<Action>, proc: Proc, k: Key)
    ensures var c, d := CacheOf(s, proc).gameServers, CacheOf(Run(cfg, s, acts), proc).gameServers;
            k in c ==> k in d && c[k] <= d[k]
    decreases acts
  {
    if acts != [] {
      CacheStepsOn(cfg, s, acts[0], proc, k);
      CacheMovesOn(cfg, Step(cfg, s, acts[0]), acts[1..], proc, k);
    }
  }

  lemma CacheStepsOn(cfg: Config, s: State, a: Action, proc: Proc, k: Key)
    ensures var c, d := CacheOf(s, proc).gameServers, CacheOf(Step(cfg, s, a), proc).gameServers;
            k in c ==> k in d && c[k] <= d[k]
  {
    if !Sees(a) {
      OnlySeeingChangesCaches(cfg, s, a);
    }
  }

  /** A new pass panics only where that was possible at the start. */
  lemma PanicWasPossible(cfg: Config, s: State, acts: seq<Action>, id: PassId, k: Key) returns (i: nat, e: nat, proc: Proc)
    requires StateOk(cfg, s) && id !in s.passes && NoOutsideWrites(acts, k)
    requires HasPanicked(Run(cfg, s, acts), id) && Run(cfg, s, acts).passes[id].key == k
    ensures CanPanic(cfg, s, k, i, e, proc)
  {
    var j, k', i' := PanicReads(cfg, s, acts, id);
    RunSplits(cfg, s, acts, j);
    var r := Run(cfg, s, acts[..j]);
    var p := r.passes[id];
    i, e, proc := i', p.version, p.proc;
    assert forall a | a in acts[..j] :: a in acts;
    OnlyMarked(cfg, s, acts[..j], k);
    CacheMovesOn(cfg, s, acts[..j], proc, k);
    PossibleAtRead(cfg, s, r, id, k, i);
  }

  /** What a read of version i shows of an earlier state, if only marked versions came since. */
  lemma PossibleAtRead(cfg: Config, s: State, r: State, id: PassId, k: Key, i: nat)
    requires StateOk(cfg, r) && id in r.passes && r.passes[id].key == k && r.passes[id].pc.ReadGameServer?
    requires Bare(r.server, k, i) && MayRead(s, k, i, r.passes[id].proc)
    requires var h, h' := Versions(s.server, k), Versions(r.server, k);
             h <= h' && OnlyMarks(h', |h|)
    ensures CanPanic(cfg, s, k, i, r.passes[id].version, r.passes[id].proc)
  {
    var h, h' := Versions(s.server, k), Versions(r.server, k);
    assert PassOk(cfg, r.server, r.passes[id]);
    forall v | |h| <= v < |h'| ensures IsReady(h'[v].gs) && h'[v].gs.annotations != map[] {
      MarkedVersion(h', v);
    }
  }

  /** Where it is possible, handling the event does it. */
  lemma PossiblePanics(cfg: Config, s: State, id: PassId, k: Key, i: nat, e: nat, proc: Proc) returns (acts: seq<Action>)
    requires StateOk(cfg, s) && id !in s.passes && CanPanic(cfg, s, k, i, e, proc)
    requires CanHandle(cfg, s, Versions(s.server, k)[e].gs, proc)
    ensures NoOutside(acts) && HasPanicked(Run(cfg, s, acts), id) && Run(cfg, s, acts).passes[id].key == k
  {
    DeliveredIsReady(cfg, s, id, proc, k, i, e);
    var t := Delivered(cfg, s, id, proc, k, i, e);
    var n := HandleIsDrive(cfg, s, id, proc, k, i, e);
    acts := Handle(id, proc, k, i, e, n);
    HandleIsInside(id, proc, k, i, e, n);
    ReadyPanics(cfg, s, t, id, proc, k, i, e);
  }

  lemma ReadyPanics(cfg: Config, s: State, t: State, id: PassId, proc: Proc, k: Key, i: nat, e: nat)
    requires ReadyToHandle(cfg, s, t, id, proc, k, i, e) && Bare(s.server, k, i)
    requires Provided(cfg, CacheOf(s, proc), k, t.passes[id].gs)
    requires NeedsReady(t.passes[id].gs) == Some(true)
    ensures HasPanicked(Drive(cfg, t, id), id) && Drive(cfg, t, id).passes[id].key == k
  {
    var b := RoutedPhase(cfg, t, id);
    PanicPhase(cfg, b, id);
  }

  lemma PanicPhase(cfg: Config, s: State, id: PassId)
    requires id in s.passes && s.passes[id].pc == Decide && NeedsReady(s.passes[id].gs) == Some(true)
    requires var p, seen := s.passes[id], CacheOf(s, s.passes[id].proc).gameServers;
             p.key in seen && Bare(s.server, p.key, seen[p.key])
    ensures HasPanicked(Drive(cfg, s, id), id) && Drive(cfg, s, id).passes[id].key == s.passes[id].key
  {
    var a := Step(cfg, s, Advance(id, NoFault));
    assert Drive(cfg, s, id) == Drive(cfg, a, id);
    var b := Step(cfg, a, Advance(id, NoFault));
    assert Drive(cfg, a, id) == Drive(cfg, b, id);
    assert b.passes[id].pc == PANICKED;
  }

  lemma PossibleComesTrue(cfg: Config, s: State, id: PassId, k: Key, i: nat, e: nat, proc: Proc) returns (acts: seq<Action>)
    requires StateOk(cfg, s) && id !in s.passes && CanPanic(cfg, s, k, i, e, proc)
    ensures NoOutsideWrites(acts, k) && HasPanicked(Run(cfg, s, acts), id) && Run(cfg, s, acts).passes[id].key == k
  {
    var gs := Versions(s.server, k)[e].gs;
    assert VersionOk(cfg, s.server, k, e);
    var t := OutsidersProvide(cfg, s, k, UsesGateway(gs), proc);
    var more := PossiblePanics(cfg, t, id, k, i, e, proc);
    acts := Outsiders(k, UsesGateway(gs), proc) + more;
    OutsidersDoNotWrite(k, UsesGateway(gs), proc, more, k);
    RunAppend(cfg, s, Outsiders(k, UsesGateway(gs), proc), more);
  }

  /** Panics, exactly: from a sound state, some continuation without outside writes to the game server
      panics a new pass for it if and only if it has a version without annotations which some process may
      still read, and an eligible version whose ready key is to be written, which that process handles. */
  lemma CanPanicExactly(cfg: Config, s: State, k: Key, id: PassId)
    requires StateOk(cfg, s) && id !in s.passes
    ensures (exists acts :: && NoOutsideWrites(acts, k) && HasPanicked(Run(cfg, s, acts), id)
                            && Run(cfg, s, acts).passes[id].key == k)
            <==> exists i, e, proc :: CanPanic(cfg, s, k, i, e, proc)
  {
    if acts :| NoOutsideWrites(acts, k) && HasPanicked(Run(cfg, s, acts), id) && Run(cfg, s, acts).passes[id].key == k {
      var i, e, proc := PanicWasPossible(cfg, s, acts, id, k);
    }
    if i, e, proc :| CanPanic(cfg, s, k, i, e, proc) {
      var acts := PossibleComesTrue(cfg, s, id, k, i, e, proc);
    }
  }

  // ---- A run that panics ---------------------------------------------------------------------------

  /** A game server is made without annotations, then gets them; the event has them, the cache not yet. */
  function LateAnnotations(bare: GameServer, gs: GameServer): seq<Action> {
    [ExternalWrite(bare), ExternalWrite(gs)]
  }

  lemma LateAnnotationsPanic(cfg: Config, bare: GameServer, gs: GameServer) returns (acts: seq<Action>)
    requires KeyOf(bare) == KeyOf(gs) && bare.annotations == map[]
    requires CanHandle(cfg, EMPTY_STATE, gs, 0) && NeedsReady(gs) == Some(true)
    ensures Init(EMPTY_STATE) && NoOutside(acts)
    ensures HasPanicked(Run(cfg, EMPTY_STATE, LateAnnotations(bare, gs) + acts), 0)
  {
    var k := KeyOf(gs);
    var writes := LateAnnotations(bare, gs);
    var s1 := Step(cfg, EMPTY_STATE, ExternalWrite(bare));
    var s2 := Step(cfg, s1, ExternalWrite(gs));
    assert writes == [ExternalWrite(bare)] + [ExternalWrite(gs)] && [ExternalWrite(gs)] == [ExternalWrite(gs)] + [];
    RunCons(cfg, EMPTY_STATE, ExternalWrite(bare), [ExternalWrite(gs)]);
    RunCons(cfg, s1, ExternalWrite(gs), []);
    assert Versions(s2.server, k) == [Version(bare, External), Version(gs, External)];
    InitOk(cfg, EMPTY_STATE);
    RunKeeps(cfg, EMPTY_STATE, writes);
    acts := PossiblePanics(cfg, s2, 0, k, 0, 1, 0);
    RunAppend(cfg, EMPTY_STATE, writes, acts);
  }
}
