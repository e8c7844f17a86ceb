/** internal/cli/plan.go: validatePlan, the checker apply runs before it touches anything. */
module PlanCheck {
  import opened Domain
  import opened Plan
  import opened Sorting

  const MAX_GRACE: int := 3600
  const MAX_TTL: int := 86400

  datatype Defect =
    | BadProtocol | BadScope | BadMode | BadGrace | NoPorts | BadPorts(port: int)
    | BadCreated | BadExpires | BadWindow
    | DuplicateResource(id: string) | BadResource(id: string) | BadEndpoint(port: int)

  // ---- what a valid plan is ---------------------------------------------------

  predicate PortsInRange(ports: seq<int>) {
    forall p | p in ports :: 1 <= p <= MAX_PORT
  }

  ghost predicate RequestOk(q: PlanRequest) {
    && q.protocol in {Tcp, Udp}
    && q.scope == ScopeFor(q.protocol)
    && ParseMode(q.mode).Some?
    && 0 <= q.grace <= MAX_GRACE
    && q.ports != [] && StrictlyAscending(q.ports) && PortsInRange(q.ports)
  }

  predicate WindowOk(doc: PlanDoc) {
    doc.created.Some? && doc.expires.Some? && 0 <= doc.expires.value - doc.created.value <= MAX_TTL
  }

  predicate NativeOk(doc: PlanDoc, r: PlanResource) {
    && ParseMode(doc.request.mode) != Some(ContainerOnly)
    && 1 < r.pid <= MAX_PID
    && !(doc.os == Windows && r.pid == 4)
    && r.start != "" && r.strength != UnsetStrength && r.strength != NoStrength
    && r.id == ProcResourceId(r.pid, r.start) && r.containerId == ""
    && r.action == SignalAction
    && r.signal == PlanSignal(doc.os, doc.request.force)
  }

  predicate ContainerOk(doc: PlanDoc, r: PlanResource) {
    && ParseMode(doc.request.mode) != Some(NativeOnly)
    && IsFullContainerId(r.containerId)
    && r.id == ContainerResourceId(r.containerId) && r.pid == 0 && r.start == ""
    && r.action == DockerStop
    && 0 <= r.grace <= MAX_GRACE
  }

  predicate ResourceOk(doc: PlanDoc, r: PlanResource) {
    && r.ports != [] && (forall p | p in r.ports :: p in doc.request.ports)
    && match r.provider
       case NativeProvider => NativeOk(doc, r)
       case DockerProvider => ContainerOk(doc, r)
       case UnknownProvider(_) => false
  }

  ghost predicate UniqueIds(rs: seq<PlanResource>) {
    forall i, j | 0 <= i < j < |rs| :: rs[i].id != rs[j].id
  }

  ghost predicate EndpointOk(doc: PlanDoc, e: PlanEndpoint) {
    && e.protocol == doc.request.protocol && e.port in doc.request.ports
    && forall id | id in e.resources :: exists r :: r in doc.resources && r.id == id
  }

  ghost predicate ValidPlan(doc: PlanDoc) {
    && RequestOk(doc.request)
    && WindowOk(doc)
    && UniqueIds(doc.resources)
    && (forall r | r in doc.resources :: ResourceOk(doc, r))
    && (forall e | e in doc.endpoints :: EndpointOk(doc, e))
  }

  // ---- the checker --------------------------------------------------------------

  method CheckPorts(ports: seq<int>) returns (bad: Option<int>, asked: set<int>)
    ensures bad.None? <==> StrictlyAscending(ports) && PortsInRange(ports)
    ensures bad.None? ==> forall p :: p in asked <==> p in ports
    ensures bad.Some? ==> bad.value in ports
  {
    asked := {};
    for i := 0 to |ports|
      invariant forall p :: p in asked <==> p in ports[..i]
      invariant StrictlyAscending(ports[..i]) && PortsInRange(ports[..i])
    {
      var p := ports[i];
      if p < 1 || p > MAX_PORT || p in asked || (i > 0 && p < ports[i - 1]) {
        assert p in asked ==> exists k :: 0 <= k < i && ports[k] == p;
        assert ports[i] in ports;
        return Some(p), asked;
      }
      assert ports[..i + 1] == ports[..i] + [p];
      assert i > 0 ==> ports[..i][i - 1] == ports[i - 1] && ports[i - 1] in asked;
      asked := asked + {p};
    }
    assert ports[..|ports|] == ports;
    bad := None;
  }

  method CheckRequest(q: PlanRequest) returns (bad: Option<Defect>, asked: set<int>)
    ensures bad.None? <==> RequestOk(q)
    ensures bad.None? ==> forall p :: p in asked <==> p in q.ports
  {
    asked := {};
    if q.protocol != Tcp && q.protocol != Udp { return Some(BadProtocol), {}; }
    if q.scope != ScopeFor(q.protocol) { return Some(BadScope), {}; }
    if ParseMode(q.mode).None? { return Some(BadMode), {}; }
    if q.grace < 0 || q.grace > MAX_GRACE { return Some(BadGrace), {}; }
    if |q.ports| == 0 { return Some(NoPorts), {}; }
    var port;
    port, asked := CheckPorts(q.ports);
    if port.Some? { return Some(BadPorts(port.value)), {}; }
    bad := None;
  }

  method CheckNative(doc: PlanDoc, mode: Mode, r: PlanResource) returns (ok: bool)
    requires ParseMode(doc.request.mode) == Some(mode)
    ensures ok <==> NativeOk(doc, r)
  {
    if mode == ContainerOnly || r.pid <= 1 || r.pid > MAX_PID { return false; }
    if doc.os == Windows && r.pid == 4 { return false; }
    if r.start == "" || r.strength == UnsetStrength || r.strength == NoStrength { return false; }
    if r.id != ProcResourceId(r.pid, r.start) || r.containerId != "" { return false; }
    if r.action != SignalAction { return false; }
    var want := Term;
    if doc.os == Windows {
      want := Terminate;
    } else if doc.request.force {
      want := Kill;
    }
    ok := r.signal == want;
  }

  method CheckResource(doc: PlanDoc, mode: Mode, asked: set<int>, r: PlanResource) returns (ok: bool)
    requires ParseMode(doc.request.mode) == Some(mode)
    requires forall p :: p in asked <==> p in doc.request.ports
    ensures ok <==> ResourceOk(doc, r)
  {
    if |r.ports| == 0 { return false; }
    for i := 0 to |r.ports|
      invariant forall k | 0 <= k < i :: r.ports[k] in doc.request.ports
    {
      var p := r.ports[i];
      assert p in r.ports;
      if p !in asked { return false; }
    }
    match r.provider
    case NativeProvider =>
      ok := CheckNative(doc, mode, r);
    case DockerProvider =>
      ok := mode != NativeOnly && IsFullContainerId(r.containerId)
      && r.id == ContainerResourceId(r.containerId) && r.pid == 0 && r.start == ""
      && r.action == DockerStop && 0 <= r.grace <= MAX_GRACE;
    case UnknownProvider(_) =>
      ok := false;
  }

  method CheckResources(doc: PlanDoc, mode: Mode, asked: set<int>) returns (bad: Option<Defect>, ids: set<string>)
    requires ParseMode(doc.request.mode) == Some(mode)
    requires forall p :: p in asked <==> p in doc.request.ports
    ensures bad.None? <==> UniqueIds(doc.resources) && forall r | r in doc.resources :: ResourceOk(doc, r)
    ensures bad.None? ==> ids == set r | r in doc.resources :: r.id
    ensures bad.Some? && bad.value.BadResource? ==>
      exists r :: r in doc.resources && r.id == bad.value.id && !ResourceOk(doc, r)
  {
    var rs := doc.resources;
    ids := {};
    for i := 0 to |rs|
      invariant ids == set k | 0 <= k < i :: rs[k].id
      invariant forall j, k | 0 <= j < k < i :: rs[j].id != rs[k].id
      invariant forall k | 0 <= k < i :: ResourceOk(doc, rs[k])
    {
      if rs[i].id in ids {
        return Some(DuplicateResource(rs[i].id)), ids;
      }
      ids := ids + {rs[i].id};
      var ok := CheckResource(doc, mode, asked, rs[i]);
      if !ok {
        assert rs[i] in rs;
        return Some(BadResource(rs[i].id)), ids;
      }
    }
    assert ids == set r | r in rs :: r.id;
    bad := None;
  }

  method CheckEndpoints(doc: PlanDoc, asked: set<int>, ids: set<string>) returns (bad: Option<Defect>)
    requires forall p :: p in asked <==> p in doc.request.ports
    requires ids == set r | r in doc.resources :: r.id
    ensures bad.None? <==> forall e | e in doc.endpoints :: EndpointOk(doc, e)
  {
    for i := 0 to |doc.endpoints|
      invariant forall k | 0 <= k < i :: EndpointOk(doc, doc.endpoints[k])
    {
      var e := doc.endpoints[i];
      if e.protocol != doc.request.protocol || e.port !in asked {
        assert e in doc.endpoints && !EndpointOk(doc, e);
        return Some(BadEndpoint(e.port));
      }
      for j := 0 to |e.resources|
        invariant forall k | 0 <= k < j :: e.resources[k] in ids
      {
        var id := e.resources[j];
        if id !in ids {
          assert id in e.resources;
          assert e in doc.endpoints && !EndpointOk(doc, e);
          return Some(BadEndpoint(e.port));
        }
      }
    }
    bad := None;
  }

  /** validatePlan accepts exactly the valid plans. */
  method ValidatePlan(doc: PlanDoc) returns (bad: Option<Defect>)
    ensures bad.None? <==> ValidPlan(doc)
  {
    var asked;
    bad, asked := CheckRequest(doc.request);
    if bad.Some? { return; }
    if doc.created.None? { return Some(BadCreated); }
    if doc.expires.None? { return Some(BadExpires); }
    if doc.expires.value < doc.created.value || doc.expires.value - doc.created.value > MAX_TTL {
      return Some(BadWindow);
    }
    var ids;
    bad, ids := CheckResources(doc, ParseMode(doc.request.mode).value, asked);
    if bad.Some? { return; }
    bad := CheckEndpoints(doc, asked, ids);
  }
}
