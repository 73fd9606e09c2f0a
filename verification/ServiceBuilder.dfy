/** The Service options and builder (pkg/reconcilers/service_options.go, service_reconciler.go). */
module ServiceBuilder {
  import opened Wrappers
  import opened GameServers
  import opened CustomAnnotations
  import opened Resources

  datatype ServiceOption = WithCustomServiceAnnotations | WithCustomServiceAnnotationsTemplate

  predicate Succeeds(o: ServiceOption, gs: GameServer, t: TemplateEngine) {
    match o
    case WithCustomServiceAnnotations => PlainOk(gs.annotations, SERVICE_PREFIX)
    case WithCustomServiceAnnotationsTemplate => TemplateOk(gs.annotations, SERVICE_PREFIX, t)
  }

  function Update(o: ServiceOption, gs: GameServer, t: TemplateEngine, v: Service): Service {
    match o
    case WithCustomServiceAnnotations =>
      v.(annotations := v.annotations + Forwarded(gs.annotations, SERVICE_PREFIX))
    case WithCustomServiceAnnotationsTemplate =>
      v.(annotations := v.annotations + Rendered(gs.annotations, SERVICE_PREFIX, t, gs.name, StatusPort(gs)))
  }

  function ApplyAll(opts: seq<ServiceOption>, gs: GameServer, t: TemplateEngine, v: Service): Option<Service> {
    if opts == [] then Some(v)
    else if Succeeds(opts[0], gs, t) then ApplyAll(opts[1..], gs, t, Update(opts[0], gs, t, v))
    else None
  }

  /** A headless Service for the game server's pod, with its first status port. */
  function EmptyService(gs: GameServer): Service {
    Service(gs.namespace, gs.name, GameServerLabels(gs), map[], "None",
            [ServicePort("gameserver", StatusPort(gs), ContainerPort(gs))], GameServerLabels(gs))
  }

  const SERVICE_OPTIONS := [WithCustomServiceAnnotations, WithCustomServiceAnnotationsTemplate]

  function BuildService(gs: GameServer, t: TemplateEngine): Option<Service> {
    ApplyAll(SERVICE_OPTIONS, gs, t, EmptyService(gs))
  }

  /** A Service under construction: the options only reach its annotations. */
  class ServiceObject {
    const spec: Service
    const annotations: AnnotationMap

    constructor (gs: GameServer)
      ensures Value() == EmptyService(gs)
      ensures fresh(annotations)
    {
      spec := EmptyService(gs);
      annotations := new AnnotationMap();
    }

    function Value(): Service
      reads annotations
    {
      spec.(annotations := annotations.m)
    }
  }

  method Run(o: ServiceOption, gs: GameServer, t: TemplateEngine, service: ServiceObject) returns (ok: bool)
    modifies service.annotations
    ensures ok <==> Succeeds(o, gs, t)
    ensures ok ==> service.Value() == Update(o, gs, t, old(service.Value()))
  {
    match o
    case WithCustomServiceAnnotations =>
      ok := ForwardPlain(gs.annotations, SERVICE_PREFIX, service.annotations);
    case WithCustomServiceAnnotationsTemplate =>
      ok := ForwardRendered(gs.annotations, SERVICE_PREFIX, t, gs.name, StatusPort(gs), service.annotations);
  }

  /** `newService`. */
  method NewService(gs: GameServer, t: TemplateEngine, opts: seq<ServiceOption>) returns (result: Option<Service>)
    ensures result == ApplyAll(opts, gs, t, EmptyService(gs))
  {
    var service := new ServiceObject(gs);
    for i := 0 to |opts|
      invariant fresh(service.annotations)
      invariant ApplyAll(opts, gs, t, EmptyService(gs)) == ApplyAll(opts[i..], gs, t, service.Value())
    {
      var ok := Run(opts[i], gs, t, service);
      if !ok {
        return None;
      }
      assert opts[i..][1..] == opts[i + 1..];
    }
    return Some(service.Value());
  }
}
