/** What the log of a pass says: the events it records, and its update attempts. */
module PassLogs {
  import opened Wrappers
  import opened GameServers
  import opened Protocol
  import opened Invariant

  /** The reasons recorded for each kind of object, in order. */
  datatype Logs = Logs(service: seq<Reason>, ingress: seq<Reason>, route: seq<Reason>)

  function Push(l: Logs, e: Event): Logs {
    match e.kind
    case ServiceKind => l.(service := l.service + [e.reason])
    case IngressKind => l.(ingress := l.ingress + [e.reason])
    case HTTPRouteKind => l.(route := l.route + [e.reason])
    case GameServerKind => l
  }

  function LogsOf(events: seq<Event>): Logs {
    if events == [] then Logs([], [], [])
    else Push(LogsOf(events[..|events| - 1]), events[|events| - 1])
  }

  lemma RecordPushes(p: Pass, k: Kind, r: Reason)
    ensures LogsOf(Record(p, k, r).events) == Push(LogsOf(p.events), Event(k, r))
  {
    assert (p.events + [Event(k, r)])[..|p.events|] == p.events;
  }

  function Of(kind: Kind, l: Logs): seq<Reason> {
    match kind
    case ServiceKind => l.service
    case IngressKind => l.ingress
    case HTTPRouteKind => l.route
    case GameServerKind => []
  }

  /** The warnings recorded for the TLS annotations that the gateway ignores. */
  function Warnings(gs: GameServer, kind: Kind): seq<Reason> {
    if kind == HTTPRouteKind then
      (if TERMINATE_TLS in gs.annotations then [Warning] else [])
      + (if ISSUER in gs.annotations then [Warning] else [])
    else []
  }

  function Opened(gs: GameServer, kind: Kind): seq<Reason> {
    [Creating] + Warnings(gs, kind)
  }

  /** Nothing, or a creation that went through. */
  predicate Clean(gs: GameServer, kind: Kind, log: seq<Reason>) {
    log == [] || log == Opened(gs, kind) + [Created]
  }

  /** Nothing, or a creation with its outcome. */
  predicate Closed(gs: GameServer, kind: Kind, log: seq<Reason>) {
    Clean(gs, kind, log) || log == Opened(gs, kind) + [Failed]
  }

  predicate ServiceLogOk(p: Pass) {
    var log := LogsOf(p.events).service;
    match p.pc
    case GetService => log == []
    case CreateService => log == Opened(p.gs, ServiceKind)
    case Finished(Skipped) => log == []
    case Finished(Errored) => Closed(p.gs, ServiceKind, log)
    case _ => Clean(p.gs, ServiceKind, log)
  }

  predicate RouteLogOk(p: Pass, kind: Kind) {
    var log := Of(kind, LogsOf(p.events));
    if kind != RouteKind(p.gs) then log == [] else
      match p.pc
      case GetService => log == []
      case CreateService => log == []
      case GetRoute => log == []
      case CreateRoute => log == Opened(p.gs, kind)
      case Finished(Skipped) => log == []
      case Finished(Errored) => Closed(p.gs, kind, log)
      case _ => Clean(p.gs, kind, log)
  }

  /** Whatever was reported created is there. */
  predicate CreatedIsThere(srv: Server, p: Pass) {
    && (Event(ServiceKind, Created) in p.events ==> p.key in srv.services)
    && (Event(IngressKind, Created) in p.events ==> p.key in srv.ingresses)
    && (Event(HTTPRouteKind, Created) in p.events ==> p.key in srv.routes)
  }

  predicate IsConflict(a: Attempt) {
    a.fault == NoFault && a.copy != a.current
  }

  predicate IsSuccess(a: Attempt) {
    a.fault == NoFault && a.copy == a.current
  }

  predicate OnlyConflicts(attempts: seq<Attempt>) {
    forall i | 0 <= i < |attempts| :: IsConflict(attempts[i])
  }

  predicate AttemptsOk(cfg: Config, p: Pass) {
    var n := |p.attempts|;
    match p.pc
    case ReadGameServer(left) => 0 < left && n + left == cfg.retries && OnlyConflicts(p.attempts)
    case UpdateGameServer(left, _) => 0 < left && n + left == cfg.retries && OnlyConflicts(p.attempts)
    case Finished(Succeeded) =>
      if NeedsReady(p.gs).Some? && !NeedsReady(p.gs).value then n == 0
      else 0 < n <= cfg.retries && OnlyConflicts(p.attempts[..n - 1]) && IsSuccess(p.attempts[n - 1])
    case Finished(Conflict) => n == cfg.retries && OnlyConflicts(p.attempts)
    case Finished(Errored) =>
      || (n < cfg.retries && OnlyConflicts(p.attempts))
      || (0 < n <= cfg.retries && OnlyConflicts(p.attempts[..n - 1]) && p.attempts[n - 1].fault != NoFault)
    case Finished(Panicked) => n < cfg.retries && OnlyConflicts(p.attempts)
    case _ => n == 0
  }

  predicate EventsOk(p: Pass) {
    ServiceLogOk(p) && RouteLogOk(p, IngressKind) && RouteLogOk(p, HTTPRouteKind)
  }

  // ---- Every step of a pass keeps its log in order --------------------------------------------

  /** The logs at the start of a route's creation. */
  function StartedLogs(p: Pass): Logs {
    var l := LogsOf(p.events);
    if UsesGateway(p.gs) then l.(route := l.route + Opened(p.gs, HTTPRouteKind))
    else l.(ingress := l.ingress + Opened(p.gs, IngressKind))
  }

  lemma StartRouteLogs(p: Pass)
    ensures LogsOf(StartRoute(p).events) == StartedLogs(p)
  {
    var q := Record(p, RouteKind(p.gs), Creating);
    RecordPushes(p, RouteKind(p.gs), Creating);
    if UsesGateway(p.gs) {
      WarnLogs(q);
    }
  }

  lemma WarnLogs(p: Pass)
    ensures var l := LogsOf(p.events); LogsOf(Warn(p).events) == l.(route := l.route + Warnings(p.gs, HTTPRouteKind))
  {
    var q := if TERMINATE_TLS in p.gs.annotations then Record(p, HTTPRouteKind, Warning) else p;
    WarningLogged(p, TERMINATE_TLS in p.gs.annotations);
    WarningLogged(q, ISSUER in p.gs.annotations);
  }

  lemma WarningLogged(p: Pass, warn: bool)
    ensures var l := LogsOf(p.events);
            var q := if warn then Record(p, HTTPRouteKind, Warning) else p;
            LogsOf(q.events) == l.(route := l.route + if warn then [Warning] else [])
  {
    RecordPushes(p, HTTPRouteKind, Warning);
  }

  lemma GetServiceLog(cfg: Config, cache: Cache, p: Pass, fault: Fault)
    requires EventsOk(p) && p.pc == GetService
    ensures EventsOk(StepGetService(cfg, cache, p, fault))
  {
    RecordPushes(p, ServiceKind, Creating);
    RecordPushes(Record(p, ServiceKind, Creating), ServiceKind, Failed);
  }

  lemma CreateServiceLog(p: Pass, fault: Fault)
    requires EventsOk(p) && p.pc == CreateService
    ensures EventsOk(AfterCreate(p, ServiceKind, GetRoute, fault))
  {
    RecordPushes(p, ServiceKind, Failed);
    RecordPushes(p, ServiceKind, Created);
  }

  lemma StartedRouteLog(p: Pass)
    requires EventsOk(p) && p.pc == GetRoute
    ensures EventsOk(Goto(StartRoute(p), CreateRoute))
    ensures EventsOk(Fail(Record(StartRoute(p), RouteKind(p.gs), Failed)))
  {
    StartRouteLogs(p);
    RecordPushes(StartRoute(p), RouteKind(p.gs), Failed);
  }

  lemma GetRouteLog(cfg: Config, cache: Cache, p: Pass, fault: Fault)
    requires EventsOk(p) && p.pc == GetRoute
    ensures EventsOk(StepGetRoute(cfg, cache, p, fault))
  {
    StartedRouteLog(p);
  }

  lemma CreateRouteLog(p: Pass, fault: Fault)
    requires EventsOk(p) && p.pc == CreateRoute
    ensures EventsOk(AfterCreate(p, RouteKind(p.gs), Decide, fault))
  {
    RecordPushes(p, RouteKind(p.gs), Failed);
    RecordPushes(p, RouteKind(p.gs), Created);
  }

  lemma UpdateLog(srv: Server, p: Pass, left: nat, copy: nat, fault: Fault)
    requires EventsOk(p) && p.pc == UpdateGameServer(left, copy)
    ensures EventsOk(StepUpdate(srv, p, left, copy, fault))
  {
    var q := StepUpdate(srv, p, left, copy, fault);
    assert LogsOf(q.events) == LogsOf(p.events) by {
      RecordPushes(p, GameServerKind, Updated);
      RecordPushes(Record(p, GameServerKind, Updated), GameServerKind, Updated);
    }
    CleanLogsStay(p, q);
  }

  lemma CleanLogsStay(p: Pass, q: Pass)
    requires EventsOk(p) && p.pc.UpdateGameServer?
    requires q.gs == p.gs && LogsOf(q.events) == LogsOf(p.events)
    requires q.pc.ReadGameServer? || (q.pc.Finished? && !q.pc.outcome.Skipped?)
    ensures EventsOk(q)
  {
  }

  lemma StepKeepsEvents(cfg: Config, srv: Server, cache: Cache, p: Pass, fault: Fault)
    requires EventsOk(p)
    ensures EventsOk(StepPass(cfg, srv, cache, p, fault).1)
  {
    match p.pc
    case GetService => GetServiceLog(cfg, cache, p, fault);
    case CreateService => CreateServiceLog(p, fault);
    case GetRoute => GetRouteLog(cfg, cache, p, fault);
    case CreateRoute => CreateRouteLog(p, fault);
    case UpdateGameServer(left, copy) => UpdateLog(srv, p, left, copy, fault);
    case _ =>
  }

  lemma UpdateAttempts(cfg: Config, srv: Server, p: Pass, left: nat, copy: nat, fault: Fault)
    requires AttemptsOk(cfg, p) && p.pc == UpdateGameServer(left, copy) && NeedsReady(p.gs) == Some(true)
    ensures AttemptsOk(cfg, StepUpdate(srv, p, left, copy, fault))
  {
    var last := Attempt(copy, |Versions(srv, p.key)| - 1, fault);
    var q := StepUpdate(srv, p, left, copy, fault);
    assert q.attempts == p.attempts + [last];
    AttemptsGrow(cfg, p, q, last);
  }

  lemma AttemptsGrow(cfg: Config, p: Pass, q: Pass, last: Attempt)
    requires p.pc.UpdateGameServer? && AttemptsOk(cfg, p) && q.attempts == p.attempts + [last]
    requires q.gs == p.gs && NeedsReady(p.gs) == Some(true)
    requires if last.fault != NoFault then q.pc == Finished(Errored)
             else if last.copy == last.current then q.pc == Finished(Succeeded)
             else q.pc == if p.pc.left <= 1 then Finished(Conflict) else ReadGameServer(p.pc.left - 1)
    ensures AttemptsOk(cfg, q)
  {
    assert q.attempts[..|q.attempts| - 1] == p.attempts;
  }

  lemma StepKeepsAttempts(cfg: Config, srv: Server, cache: Cache, p: Pass, fault: Fault)
    requires AttemptsOk(cfg, p)
    requires p.pc.UpdateGameServer? ==> NeedsReady(p.gs) == Some(true)
    ensures AttemptsOk(cfg, StepPass(cfg, srv, cache, p, fault).1)
  {
    match p.pc
    case UpdateGameServer(left, copy) => UpdateAttempts(cfg, srv, p, left, copy, fault);
    case _ =>
  }

  /** A creation is reported only when the server holds the object, own or not. */
  lemma StepKeepsCreated(cfg: Config, srv: Server, cache: Cache, p: Pass, fault: Fault)
    requires CreatedIsThere(srv, p) && PassOk(cfg, srv, p)
    requires Grows(srv, StepPass(cfg, srv, cache, p, fault).0)
    ensures var (srv', p') := StepPass(cfg, srv, cache, p, fault); CreatedIsThere(srv', p')
  {
    match p.pc
    case CreateService =>
    case CreateRoute => CreateRouteIsThere(cfg, srv, p, fault);
    case _ => NothingElseIsCreated(cfg, srv, cache, p, fault);
  }

  lemma CreateRouteIsThere(cfg: Config, srv: Server, p: Pass, fault: Fault)
    requires CreatedIsThere(srv, p) && PassOk(cfg, srv, p) && p.pc == CreateRoute
    ensures CreatedIsThere(StepCreateRoute(cfg, srv, p, fault), AfterCreate(p, RouteKind(p.gs), Decide, fault))
  {
  }

  lemma NothingElseIsCreated(cfg: Config, srv: Server, cache: Cache, p: Pass, fault: Fault)
    requires !p.pc.CreateService? && !p.pc.CreateRoute?
    ensures forall kind :: Event(kind, Created) in StepPass(cfg, srv, cache, p, fault).1.events ==> Event(kind, Created) in p.events
    ensures StepPass(cfg, srv, cache, p, fault).1.key == p.key
  {
  }

  // ---- Every run --------------------------------------------------------------------------

  predicate LogOk(cfg: Config, srv: Server, p: Pass) {
    EventsOk(p) && AttemptsOk(cfg, p) && CreatedIsThere(srv, p)
  }

  ghost predicate LogsOk(cfg: Config, s: State) {
    forall id | id in s.passes :: LogOk(cfg, s.server, s.passes[id])
  }

  lemma NewPassLogOk(cfg: Config, srv: Server, proc: Proc, version: nat, gs: GameServer)
    ensures LogOk(cfg, srv, NewPass(proc, version, gs))
  {
  }

  lemma StepKeepsLog(cfg: Config, s: State, a: Action, id: PassId)
    requires StateOk(cfg, s) && LogsOk(cfg, s) && id in Step(cfg, s, a).passes
    ensures LogOk(cfg, Step(cfg, s, a).server, Step(cfg, s, a).passes[id])
  {
    StepKeeps(cfg, s, a);
    PassesAfterStep(cfg, s, a, id);
    if id in s.passes && Step(cfg, s, a).passes[id] == s.passes[id] {
    } else if a.Deliver? {
      NewPassLogOk(cfg, s.server, a.proc, a.version, Versions(s.server, a.key)[a.version].gs);
    } else {
      var p, cache := s.passes[id], CacheOf(s, s.passes[id].proc);
      StepKeepsEvents(cfg, s.server, cache, p, a.fault);
      StepKeepsAttempts(cfg, s.server, cache, p, a.fault);
      StepKeepsCreated(cfg, s.server, cache, p, a.fault);
    }
  }

  lemma {:induction false} RunKeepsLogs(cfg: Config, s: State, acts: seq<Action>)
    requires StateOk(cfg, s) && LogsOk(cfg, s)
    ensures StateOk(cfg, Run(cfg, s, acts)) && LogsOk(cfg, Run(cfg, s, acts))
    decreases acts
  {
    if acts != [] {
      StepKeeps(cfg, s, acts[0]);
      forall id | id in Step(cfg, s, acts[0]).passes
        ensures LogOk(cfg, Step(cfg, s, acts[0]).server, Step(cfg, s, acts[0]).passes[id])
      {
        StepKeepsLog(cfg, s, acts[0], id);
      }
      RunKeepsLogs(cfg, Step(cfg, s, acts[0]), acts[1..]);
    }
  }

  predicate Held(srv: Server, k: Key, kind: Kind) {
    match kind
    case ServiceKind => k in srv.services
    case IngressKind => k in srv.ingresses
    case _ => k in srv.routes
  }

  /** What a pass records about one kind of object is nothing, or `Creating`, the gateway's
      warnings, and then, unless the pass is at that create call, exactly one of `Created` and
      `Failed`; and an object reported created is in the server. */
  predicate Truthful(srv: Server, p: Pass, kind: Kind) {
    var log := Of(kind, LogsOf(p.events));
    && (|| Closed(p.gs, kind, log)
        || (log == Opened(p.gs, kind) && p.pc == if kind == ServiceKind then CreateService else CreateRoute))
    && (Created in log ==> Held(srv, p.key, kind))
  }

  lemma LogOkIsTruthful(cfg: Config, srv: Server, p: Pass, kind: Kind)
    requires LogOk(cfg, srv, p) && kind != GameServerKind
    ensures Truthful(srv, p, kind)
  {
    if Created in Of(kind, LogsOf(p.events)) {
      LogsListEvents(p.events, kind, Created);
    }
  }

  /** Truthful events in every run, for every pass and every kind of object. */
  lemma TruthfulEvents(cfg: Config, s: State, acts: seq<Action>, id: PassId, kind: Kind)
    requires Init(s) && id in Run(cfg, s, acts).passes && kind != GameServerKind
    ensures Truthful(Run(cfg, s, acts).server, Run(cfg, s, acts).passes[id], kind)
    ensures |Warnings(Run(cfg, s, acts).passes[id].gs, kind)| <= if kind == HTTPRouteKind then 2 else 0
  {
    InitOk(cfg, s);
    RunKeepsLogs(cfg, s, acts);
    LogOkIsTruthful(cfg, Run(cfg, s, acts).server, Run(cfg, s, acts).passes[id], kind);
  }

  /** A reason in a log was recorded as an event of that kind. */
  lemma {:induction false} LogsListEvents(events: seq<Event>, kind: Kind, r: Reason)
    requires r in Of(kind, LogsOf(events))
    ensures Event(kind, r) in events
  {
    if events != [] {
      var last := events[|events| - 1];
      if last != Event(kind, r) {
        LogsListEvents(events[..|events| - 1], kind, r);
      }
    }
  }

  /** How the attempts of a finished pass account for its outcome. */
  predicate Accounted(cfg: Config, p: Pass) {
    && p.pc.Finished?
    && |p.attempts| <= cfg.retries
    && (forall i | 0 <= i < |p.attempts| - 1 :: IsConflict(p.attempts[i]))
    && (p.pc.outcome == Succeeded <==> exists i :: 0 <= i < |p.attempts| && IsSuccess(p.attempts[i]))
    && (p.pc.outcome == Conflict <==> |p.attempts| == cfg.retries && OnlyConflicts(p.attempts))
    && (p.pc.outcome == Panicked ==> |p.attempts| < cfg.retries && OnlyConflicts(p.attempts))
  }

  lemma AttemptsAccount(cfg: Config, p: Pass)
    requires AttemptsOk(cfg, p) && p.pc.Finished? && NeedsReady(p.gs) == Some(true)
    ensures Accounted(cfg, p)
  {
    var n := |p.attempts|;
    assert forall i | 0 <= i < n - 1 :: p.attempts[..n - 1][i] == p.attempts[i];
  }

  /** The bounded conflict retry, exactly: a finished pass that set out to write the ready key made
      at most `retries` update calls; all but the last were conflicts, so any other outcome stopped
      it at once; it succeeded if and only if some call carried the server's current version and got
      its reply; and it returns the conflict if and only if every one of `retries` calls was one. */
  lemma RetryExactly(cfg: Config, s: State, acts: seq<Action>, id: PassId)
    requires Init(s) && id in Run(cfg, s, acts).passes
    requires Run(cfg, s, acts).passes[id].pc.Finished?
    requires NeedsReady(Run(cfg, s, acts).passes[id].gs) == Some(true)
    ensures Accounted(cfg, Run(cfg, s, acts).passes[id])
  {
    InitOk(cfg, s);
    InitLogsOk(cfg, s);
    RunKeepsLogs(cfg, s, acts);
    var p := Run(cfg, s, acts).passes[id];
    assert LogOk(cfg, Run(cfg, s, acts).server, p);
    AttemptsAccount(cfg, p);
  }

  lemma InitLogsOk(cfg: Config, s: State)
    requires Init(s)
    ensures LogsOk(cfg, s)
  {
  }

  /** What an attempt records is what the call did: the server changes exactly when the cached version is
      its current one, is not marked yet, and the call arrives, and then it appends exactly that copy with
      the ready key set. */
  lemma AttemptIsTruthful(cfg: Config, srv: Server, cache: Cache, p: Pass, fault: Fault)
    requires p.pc.UpdateGameServer?
    ensures var (srv', p') := StepPass(cfg, srv, cache, p, fault);
            var h, copy := Versions(srv, p.key), p.pc.copy;
            && p'.attempts == p.attempts + [Attempt(copy, |h| - 1, fault)]
            && (srv' != srv <==> copy == |h| - 1 && fault != Rejected && !IsMarked(h[copy].gs))
            && (srv' != srv ==> Versions(srv', p.key) == h + [Version(MarkReady(h[copy].gs), By(p))])
  {
    if Accepts(srv, p.key, p.pc.copy, fault) && !IsMarked(Versions(srv, p.key)[p.pc.copy].gs) {
      assert |Versions(StepUpdateServer(srv, p, p.pc.copy, fault), p.key)| == |Versions(srv, p.key)| + 1;
    }
  }

  // ---- A pass that succeeds has written ------------------------------------------------------------

  /** Version i is the one before it with the ready key set, by this writer. */
  predicate WrittenAt(srv: Server, k: Key, i: nat, w: Writer) {
    Marks(Versions(srv, k), i) && Versions(srv, k)[i].writer == w
  }

  /** The last update of a pass carried a version that was marked already, or made the next one. */
  predicate WroteOrCarried(srv: Server, p: Pass) {
    p.attempts != [] &&
    var copy := p.attempts[|p.attempts| - 1].copy;
    && copy < |Versions(srv, p.key)|
    && (IsMarked(Versions(srv, p.key)[copy].gs) || WrittenAt(srv, p.key, copy + 1, By(p)))
  }

  /** A pass that set out to write the ready key and succeeded did so. */
  predicate WroteIfSucceeded(srv: Server, p: Pass) {
    p.pc == Finished(Succeeded) && NeedsReady(p.gs) == Some(true) ==> WroteOrCarried(srv, p)
  }

  lemma GrowthKeepsWrote(a: Server, b: Server, p: Pass)
    requires Grows(a, b) && WroteIfSucceeded(a, p)
    ensures WroteIfSucceeded(b, p)
  {
    assert Versions(a, p.key) <= Versions(b, p.key);
  }

  lemma UpdateWrites(srv: Server, p: Pass, left: nat, copy: nat, fault: Fault)
    requires copy < |Versions(srv, p.key)| && p.pc == UpdateGameServer(left, copy)
    ensures StepUpdate(srv, p, left, copy, fault).pc == Finished(Succeeded) ==>
            WroteOrCarried(StepUpdateServer(srv, p, copy, fault), StepUpdate(srv, p, left, copy, fault))
  {
    var q := StepUpdate(srv, p, left, copy, fault);
    assert q.key == p.key && By(q) == By(p) && q.attempts[|q.attempts| - 1].copy == copy;
    if Accepts(srv, p.key, copy, fault) && !IsMarked(Versions(srv, p.key)[copy].gs) {
      AppendGrows(srv, p.key, Version(MarkReady(Versions(srv, p.key)[copy].gs), By(p)));
      assert WrittenAt(StepUpdateServer(srv, p, copy, fault), p.key, copy + 1, By(p));
    }
  }

  lemma StepPassWrites(cfg: Config, srv: Server, cache: Cache, p: Pass, fault: Fault)
    requires ServerOk(cfg, srv) && PassOk(cfg, srv, p) && WroteIfSucceeded(srv, p)
    ensures WroteIfSucceeded(StepPass(cfg, srv, cache, p, fault).0, StepPass(cfg, srv, cache, p, fault).1)
  {
    match p.pc
    case UpdateGameServer(left, copy) => UpdateWrites(srv, p, left, copy, fault);
    case _ =>
  }

  lemma StepKeepsWrote(cfg: Config, s: State, a: Action, id: PassId)
    requires StateOk(cfg, s) && (id in s.passes ==> WroteIfSucceeded(s.server, s.passes[id]))
    requires id in Step(cfg, s, a).passes
    ensures WroteIfSucceeded(Step(cfg, s, a).server, Step(cfg, s, a).passes[id])
  {
    PassesAfterStep(cfg, s, a, id);
    if id in s.passes && Step(cfg, s, a).passes[id] == s.passes[id] {
      StepKeeps(cfg, s, a);
      GrowthKeepsWrote(s.server, Step(cfg, s, a).server, s.passes[id]);
    } else if a.Advance? {
      StepPassWrites(cfg, s.server, CacheOf(s, s.passes[id].proc), s.passes[id], a.fault);
    }
  }

  lemma {:induction false} RunKeepsWrote(cfg: Config, s: State, acts: seq<Action>, id: PassId)
    requires StateOk(cfg, s) && (id in s.passes ==> WroteIfSucceeded(s.server, s.passes[id]))
    ensures id in Run(cfg, s, acts).passes ==> WroteIfSucceeded(Run(cfg, s, acts).server, Run(cfg, s, acts).passes[id])
    decreases acts
  {
    if acts != [] {
      var t := Step(cfg, s, acts[0]);
      StepKeeps(cfg, s, acts[0]);
      if id in t.passes {
        StepKeepsWrote(cfg, s, acts[0], id);
      }
      RunKeepsWrote(cfg, t, acts[1..], id);
    }
  }

  /** In every run, a pass that set out to write the ready key and succeeded has a version of its own in
      the history, the one it had read with the ready key set, or the one it had read was marked already. */
  lemma SuccessIsWritten(cfg: Config, s: State, acts: seq<Action>, id: PassId)
    requires Init(s) && id in Run(cfg, s, acts).passes
    requires Run(cfg, s, acts).passes[id].pc == Finished(Succeeded)
    requires NeedsReady(Run(cfg, s, acts).passes[id].gs) == Some(true)
    ensures WroteOrCarried(Run(cfg, s, acts).server, Run(cfg, s, acts).passes[id])
  {
    InitOk(cfg, s);
    RunKeepsWrote(cfg, s, acts, id);
  }
}
