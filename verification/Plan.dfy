/** internal/cli/plan.go: the plan document and how one observation becomes a plan. */
module Plan {
  import opened Domain
  import opened ExitClass
  import opened Sorting
  import Observe
  import Text

  // ---- the document ---------------------------------------------------------

  datatype Mode = NoMode | Auto | NativeOnly | ContainerOnly | UnknownMode(text: string)

  /** parseMode; None is the usage error. An absent mode means auto. */
  function ParseMode(m: Mode): Option<Mode> {
    match m
    case NoMode => Some(Auto)
    case UnknownMode(_) => None
    case _ => Some(m)
  }

  datatype Provider = NativeProvider | DockerProvider | UnknownProvider(text: string)
  datatype Action = SignalAction | DockerStop | UnknownAction(text: string)
  datatype Signal = NoSignal | Term | Kill | Terminate | UnknownSignal(text: string)

  datatype PlanResource = PlanResource(
    id: string, provider: Provider, pid: int, containerId: string, name: string,
    start: string, strength: Strength, ports: seq<int>, action: Action, signal: Signal, grace: int)

  datatype ReasonKind =
    | PublishedByContainer | ShortContainerId | HeldByInfra | HeldByInfraDockerFailed | HeldByInfraNoDocker
    | OwnedByNative | ProtectedPid(why: Protection)
    | NoProcessName | IdentityDenied | IdentityMissing | OwnerHidden

  /** A refusal text: which sentence, and the provider text it quotes. */
  datatype Reason = Reason(kind: ReasonKind, detail: string)

  datatype Refusal = Refusal(port: int, pid: int, name: string, reason: Reason)

  datatype PlanRequest = PlanRequest(
    protocol: Protocol, scope: Scope, mode: Mode, ports: seq<int>, force: bool, grace: int)

  datatype PlanEndpoint = PlanEndpoint(
    protocol: Protocol, port: int, visibility: Visibility, occupied: bool,
    resources: seq<string>, refused: seq<Refusal>)

  /** Times are whole seconds; None is a text that is not an RFC 3339 time. */
  datatype PlanDoc = PlanDoc(
    os: OS, created: Option<int>, expires: Option<int>, request: PlanRequest,
    endpoints: seq<PlanEndpoint>, resources: seq<PlanResource>, refused: seq<Refusal>, exitClass: Exit)

  datatype PlanOptions = PlanOptions(
    protocol: Protocol, mode: Mode, ports: seq<int>, force: bool, grace: int, ttl: int)

  const SECOND: int := 1_000_000_000

  /** Go's integer division truncates toward zero. */
  function TruncDiv(a: int, b: int): int
    requires b > 0
  {
    if a >= 0 then a / b else -((-a) / b)
  }

  function GraceSeconds(d: int): int {
    TruncDiv(d + SECOND - 1, SECOND)
  }

  /** formatTime keeps whole seconds, rounding down. */
  function FormatTime(nanos: int): Option<int> {
    Some(nanos / SECOND)
  }

  function ProcResourceId(pid: int, start: string): string {
    "proc:" + Text.IntText(pid) + ":" + start
  }

  function ContainerResourceId(id: string): string {
    "container:" + id
  }

  // ---- what happens to each occupant ----------------------------------------

  datatype Verdict = Use(r: PlanResource) | Refuse(pid: int, name: string, reason: Reason) | Explained

  function PlanSignal(os: OS, force: bool): Signal {
    if os == Windows then Terminate else if force then Kill else Term
  }

  function EffectiveMode(m: Mode): Mode {
    if ParseMode(m).Some? then ParseMode(m).value else NoMode
  }

  function ContainerVerdict(mode: Mode, grace: int, c: Container): Verdict {
    if mode == NativeOnly then Refuse(0, c.name, Reason(PublishedByContainer, ""))
    else if !c.fullId then Refuse(0, c.name, Reason(ShortContainerId, c.id))
    else Use(PlanResource(ContainerResourceId(c.id), DockerProvider, 0, c.id, c.name,
                          "", UnsetStrength, [], DockerStop, NoSignal, grace))
  }

  function InfraReason(s: Snapshot): Reason {
    if s.dockerErr.Some? then Reason(HeldByInfraDockerFailed, s.dockerErr.value)
    else if !s.dockerAvail then Reason(HeldByInfraNoDocker, "")
    else Reason(HeldByInfra, "")
  }

  function ErrorText(e: Option<LookupError>): string {
    match e
    case None => ""
    case Some(NotFound) => "process not found"
    case Some(Denied(t)) => t
    case Some(Unsupported(t)) => t
    case Some(OtherError(t)) => t
  }

  function OwnerVerdict(sys: Sys, s: Snapshot, mode: Mode, signal: Signal, containers: bool, o: OwnerObs): Verdict {
    if sys.infra(o.name) && mode == NativeOnly then Refuse(o.pid, o.name, Reason(PublishedByContainer, ""))
    else if sys.infra(o.name) then
      if containers then Explained else Refuse(o.pid, o.name, InfraReason(s))
    else if mode == ContainerOnly then Refuse(o.pid, o.name, Reason(OwnedByNative, ""))
    else if ProtectedBy(sys, o.pid).Some? then
      Refuse(o.pid, o.name, Reason(ProtectedPid(ProtectedBy(sys, o.pid).value), ""))
    else if s.namesUnavailable && o.name == "" then Refuse(o.pid, o.name, Reason(NoProcessName, ""))
    else if o.ident == IdentOk then
      Use(PlanResource(ProcResourceId(o.pid, o.start), NativeProvider, o.pid, "", o.name,
                       o.start, o.strength, [], SignalAction, signal, 0))
    else if o.ident == IdentDenied then Refuse(o.pid, o.name, Reason(IdentityDenied, ErrorText(o.err)))
    else Refuse(o.pid, o.name, Reason(IdentityMissing, ErrorText(o.err)))
  }

  /** The verdicts on one observed port, in the order the plan considers its occupants. */
  function VerdictsOn(sys: Sys, s: Snapshot, opts: PlanOptions, e: EndpointObs): seq<Verdict> {
    seq(|e.containers|, i requires 0 <= i < |e.containers| =>
      ContainerVerdict(EffectiveMode(opts.mode), GraceSeconds(opts.grace), e.containers[i]))
    + seq(|e.owners|, i requires 0 <= i < |e.owners| =>
      OwnerVerdict(sys, s, EffectiveMode(opts.mode), PlanSignal(sys.os, opts.force), e.containers != [], e.owners[i]))
    + if e.hidden then [Refuse(0, "", Reason(OwnerHidden, ""))] else []
  }

  /** vs rules containers first, then owners, then the hidden occupant. */
  ghost predicate RulesEach(sys: Sys, s: Snapshot, opts: PlanOptions, e: EndpointObs, vs: seq<Verdict>) {
    var c, o := |e.containers|, |e.owners|;
    && |vs| == c + o + (if e.hidden then 1 else 0)
    && (forall n | 0 <= n < c ::
          vs[n] == ContainerVerdict(EffectiveMode(opts.mode), GraceSeconds(opts.grace), e.containers[n]))
    && (forall n | 0 <= n < o ::
          vs[c + n] == OwnerVerdict(sys, s, EffectiveMode(opts.mode), PlanSignal(sys.os, opts.force),
            e.containers != [], e.owners[n]))
    && (e.hidden ==> vs[c + o] == Refuse(0, "", Reason(OwnerHidden, "")))
  }

  lemma VerdictsEach(sys: Sys, s: Snapshot, opts: PlanOptions, e: EndpointObs)
    ensures RulesEach(sys, s, opts, e, VerdictsOn(sys, s, opts, e))
  {
  }

  /** The observation and the verdicts as functions of the port. */
  ghost function Observations(sys: Sys, s: Snapshot): int -> EndpointObs {
    port => Observe.Endpoint(sys, s, port)
  }

  ghost function Rules(sys: Sys, s: Snapshot, opts: PlanOptions): int -> seq<Verdict> {
    port => VerdictsOn(sys, s, opts, Observe.Endpoint(sys, s, port))
  }

  // ---- folding verdicts into the document -------------------------------------

  /** What planning has recorded so far: resources by ID, refusals as first raised. */
  datatype Book = Book(byId: map<string, PlanResource>, refused: seq<Refusal>)

  function RefusalOf(port: int, v: Verdict): Refusal
    requires v.Refuse?
  {
    Refusal(port, v.pid, v.name, v.reason)
  }

  function Record(b: Book, port: int, v: Verdict): Book {
    match v
    case Use(r) =>
      b.(byId := if r.id in b.byId then b.byId[r.id := b.byId[r.id].(ports := b.byId[r.id].ports + [port])]
                 else b.byId[r.id := r.(ports := [port])])
    case Refuse(_, _, _) =>
      if RefusalOf(port, v) in b.refused then b else b.(refused := b.refused + [RefusalOf(port, v)])
    case Explained => b
  }

  function RecordUpTo(b: Book, port: int, vs: seq<Verdict>, n: nat): Book
    requires n <= |vs|
  {
    if n == 0 then b else Record(RecordUpTo(b, port, vs, n - 1), port, vs[n - 1])
  }

  function UseIds(vs: seq<Verdict>, n: nat): seq<string>
    requires n <= |vs|
  {
    if n == 0 then [] else UseIds(vs, n - 1) + if vs[n - 1].Use? then [vs[n - 1].r.id] else []
  }

  /** The refusals a port adds to those already recorded, in order. */
  function Fresh(b: Book, port: int, vs: seq<Verdict>, n: nat): seq<Refusal>
    requires n <= |vs|
  {
    if n == 0 then [] else
      Fresh(b, port, vs, n - 1) +
      if vs[n - 1].Refuse? && RefusalOf(port, vs[n - 1]) !in RecordUpTo(b, port, vs, n - 1).refused
      then [RefusalOf(port, vs[n - 1])] else []
  }

  /** The book after the first n ports. */
  function BookAt(rule: int -> seq<Verdict>, ports: seq<int>, n: nat): Book
    requires n <= |ports|
  {
    if n == 0 then Book(map[], []) else
      RecordUpTo(BookAt(rule, ports, n - 1), ports[n - 1], rule(ports[n - 1]), |rule(ports[n - 1])|)
  }

  predicate ResourceLess(a: PlanResource, b: PlanResource) {
    if (a.provider == DockerProvider) != (b.provider == DockerProvider) then a.provider == DockerProvider
    else if a.provider == DockerProvider then Text.Less(a.containerId, b.containerId)
    else a.pid < b.pid
  }

  function KindRank(k: ReasonKind): nat {
    match k
    case PublishedByContainer => 0 case ShortContainerId => 1 case HeldByInfra => 2
    case HeldByInfraDockerFailed => 3 case HeldByInfraNoDocker => 4 case OwnedByNative => 5
    case ProtectedPid(NotVisible) => 6 case ProtectedPid(LowPid) => 7
    case ProtectedPid(Itself) => 8 case ProtectedPid(WindowsKernel) => 9
    case NoProcessName => 10 case IdentityDenied => 11 case IdentityMissing => 12 case OwnerHidden => 13
  }

  predicate RefusalLess(a: Refusal, b: Refusal) {
    if a.port != b.port then a.port < b.port
    else if a.pid != b.pid then a.pid < b.pid
    else if a.name != b.name then Text.Less(a.name, b.name)
    else if a.reason.kind != b.reason.kind then KindRank(a.reason.kind) < KindRank(b.reason.kind)
    else Text.Less(a.reason.detail, b.reason.detail)
  }

  // ---- the plan of one observation ---------------------------------------------

  function DocOf(e: EndpointObs, vs: seq<Verdict>, b: Book): PlanEndpoint {
    PlanEndpoint(e.protocol, e.port, e.visibility, e.occupied, UseIds(vs, |vs|), Fresh(b, e.port, vs, |vs|))
  }

  function EndpointDocs(obs: int -> EndpointObs, rule: int -> seq<Verdict>, ports: seq<int>,
                        n: nat): (es: seq<PlanEndpoint>)
    requires n <= |ports|
    ensures |es| == n
  {
    if n == 0 then [] else
      EndpointDocs(obs, rule, ports, n - 1) + [DocOf(obs(ports[n - 1]), rule(ports[n - 1]), BookAt(rule, ports, n - 1))]
  }

  /** What planClass raises: per endpoint, then once for any refusal. */
  function EndpointClass(e: PlanEndpoint): seq<Exit> {
    (match e.visibility
     case ProviderUnavailable => [Failed]
     case PermissionLimited => [Uncertain]
     case NoneVisible => [Uncertain]
     case Complete => [])
    + if e.occupied && e.resources == [] then [Failed] else []
  }

  function EndpointClasses(es: seq<PlanEndpoint>): seq<Exit> {
    if es == [] then [] else EndpointClasses(es[..|es| - 1]) + EndpointClass(es[|es| - 1])
  }

  ghost predicate IsPlanClass(code: Exit, endpoints: seq<PlanEndpoint>, refused: seq<Refusal>) {
    IsWorst(code, EndpointClasses(endpoints) + if refused != [] then [Failed] else [])
  }

  /** The documents buildPlan may return: sorted lists, whatever order the map
      of resources was walked in. */
  ghost predicate IsPlanOf(sys: Sys, s: Snapshot, opts: PlanOptions, now: int, doc: PlanDoc) {
    var rule := Rules(sys, s, opts);
    var all := BookAt(rule, opts.ports, |opts.ports|);
    && doc.os == sys.os
    && doc.created == FormatTime(now) && doc.expires == FormatTime(now + opts.ttl)
    && doc.request == PlanRequest(opts.protocol, ScopeFor(opts.protocol), EffectiveMode(opts.mode),
                                  opts.ports, opts.force, GraceSeconds(opts.grace))
    && doc.endpoints == EndpointDocs(Observations(sys, s), rule, opts.ports, |opts.ports|)
    && Ordered(ResourceLess, doc.resources) && NoDuplicates(doc.resources)
    && (forall r :: r in doc.resources <==> r in all.byId.Values)
    && Ordered(RefusalLess, doc.refused) && NoDuplicates(doc.refused)
    && (forall x :: x in doc.refused <==> x in all.refused)
    && IsPlanClass(doc.exitClass, doc.endpoints, doc.refused)
  }

  // ---- the fold, described without its steps -------------------------------------

  lemma {:induction false} EndpointDocsAt(obs: int -> EndpointObs, rule: int -> seq<Verdict>, ports: seq<int>, n: nat,
                                          i: nat)
    requires i < n <= |ports|
    ensures EndpointDocs(obs, rule, ports, n)[i] == DocOf(obs(ports[i]), rule(ports[i]), BookAt(rule, ports, i))
  {
    if i < n - 1 { EndpointDocsAt(obs, rule, ports, n - 1, i); }
  }

  predicate UsesId(vs: seq<Verdict>, n: nat, id: string)
    requires n <= |vs|
  {
    exists j :: 0 <= j < n && vs[j].Use? && vs[j].r.id == id
  }

  predicate Refuses(vs: seq<Verdict>, n: nat, port: int, x: Refusal)
    requires n <= |vs|
  {
    exists j :: 0 <= j < n && vs[j].Refuse? && RefusalOf(port, vs[j]) == x
  }

  /** What one port's verdicts add for one resource ID. */
  lemma {:induction false} RecordUse(b: Book, port: int, vs: seq<Verdict>, n: nat, id: string)
    requires n <= |vs|
    ensures
      var after := RecordUpTo(b, port, vs, n).byId;
      && (id in after <==> id in b.byId || UsesId(vs, n, id))
      && (id in after ==> forall p :: p in after[id].ports <==>
            (id in b.byId && p in b.byId[id].ports) || (p == port && UsesId(vs, n, id)))
      && (id in b.byId ==> after[id] == b.byId[id].(ports := after[id].ports))
      && (id in after && id !in b.byId ==>
            exists j :: 0 <= j < n && vs[j].Use? && vs[j].r.id == id && after[id] == vs[j].r.(ports := after[id].ports))
  {
    if n > 0 { RecordUse(b, port, vs, n - 1, id); }
  }

  lemma {:induction false} RecordRefusal(b: Book, port: int, vs: seq<Verdict>, n: nat)
    requires n <= |vs|
    ensures
      var after := RecordUpTo(b, port, vs, n).refused;
      && (forall x :: x in after <==> x in b.refused || Refuses(vs, n, port, x))
      && (NoDuplicates(b.refused) ==> NoDuplicates(after))
      && after == b.refused + Fresh(b, port, vs, n)
  {
    if n > 0 { RecordRefusal(b, port, vs, n - 1); }
  }

  ghost predicate UsedOn(rule: int -> seq<Verdict>, ports: seq<int>, n: nat, port: int, id: string)
    requires n <= |ports|
  {
    port in ports[..n] && exists v :: v in rule(port) && v.Use? && v.r.id == id
  }

  ghost predicate RefusedOn(rule: int -> seq<Verdict>, ports: seq<int>, n: nat, x: Refusal)
    requires n <= |ports|
  {
    x.port in ports[..n] &&
    exists v :: v in rule(x.port) && v.Refuse? && RefusalOf(x.port, v) == x
  }

  lemma UsesIdIn(vs: seq<Verdict>, id: string)
    ensures UsesId(vs, |vs|, id) <==> exists v :: v in vs && v.Use? && v.r.id == id
  {
    if j :| 0 <= j < |vs| && vs[j].Use? && vs[j].r.id == id { assert vs[j] in vs; }
  }

  /** A recorded resource is one that was ruled usable on some port, and its
      ports are exactly the requested ports on which it was. */
  lemma {:induction false} BookUses(rule: int -> seq<Verdict>, ports: seq<int>, n: nat, id: string)
    requires n <= |ports|
    ensures
      var m := BookAt(rule, ports, n).byId;
      && (id in m <==> exists p :: UsedOn(rule, ports, n, p, id))
      && (id in m ==> forall p :: p in m[id].ports <==> UsedOn(rule, ports, n, p, id))
      && (id in m ==> exists p, v :: p in ports[..n] && v in rule(p) && v.Use? && v.r.id == id
                        && m[id] == v.r.(ports := m[id].ports))
  {
    if n > 0 {
      BookUses(rule, ports, n - 1, id);
      var port := ports[n - 1];
      var vs := rule(port);
      var before, after := BookAt(rule, ports, n - 1), BookAt(rule, ports, n);
      RecordUse(before, port, vs, |vs|, id);
      UsesIdIn(vs, id);
      assert ports[..n] == ports[..n - 1] + [port];
      if id in before.byId {
        var p, v :| p in ports[..n - 1] && v in rule(p) && v.Use? && v.r.id == id
                    && before.byId[id] == v.r.(ports := before.byId[id].ports);
        assert p in ports[..n] && after.byId[id] == v.r.(ports := after.byId[id].ports);
      } else if id in after.byId {
        var j :| 0 <= j < |vs| && vs[j].Use? && vs[j].r.id == id &&
          after.byId[id] == vs[j].r.(ports := after.byId[id].ports);
        assert port in ports[..n] && vs[j] in rule(port);
      }
      forall p ensures UsedOn(rule, ports, n, p, id) <==>
        UsedOn(rule, ports, n - 1, p, id) || (p == port && UsesId(vs, |vs|, id)) {}
      assert UsesId(vs, |vs|, id) ==> UsedOn(rule, ports, n, port, id);
      if id in before.byId {
        var q :| UsedOn(rule, ports, n - 1, q, id);
        assert UsedOn(rule, ports, n, q, id);
      }
    }
  }

  lemma {:induction false} BookRefusals(rule: int -> seq<Verdict>, ports: seq<int>, n: nat)
    requires n <= |ports|
    ensures NoDuplicates(BookAt(rule, ports, n).refused)
    ensures forall x :: x in BookAt(rule, ports, n).refused <==> RefusedOn(rule, ports, n, x)
  {
    if n > 0 {
      BookRefusals(rule, ports, n - 1);
      var port := ports[n - 1];
      var vs := rule(port);
      RecordRefusal(BookAt(rule, ports, n - 1), port, vs, |vs|);
      assert ports[..n] == ports[..n - 1] + [port];
      forall x ensures RefusedOn(rule, ports, n, x) <==>
        RefusedOn(rule, ports, n - 1, x) || Refuses(vs, |vs|, port, x)
      {
        if Refuses(vs, |vs|, port, x) {
          var j :| 0 <= j < |vs| && vs[j].Refuse? && RefusalOf(port, vs[j]) == x;
          assert vs[j] in rule(x.port);
        }
      }
    }
  }

  // ---- orders ---------------------------------------------------------------------

  lemma StringFacts(a: string, b: string, c: string)
    ensures !Text.Less(a, a)
    ensures !(Text.Less(a, b) && Text.Less(b, a))
    ensures a != b ==> Text.Less(a, b) || Text.Less(b, a)
    ensures Text.Less(a, c) ==> Text.Less(a, b) || Text.Less(b, c)
  {
    Text.LessIrreflexive(a);
    if Text.Less(a, b) && Text.Less(b, a) { Text.LessTransitive(a, b, a); }
    if a != b {
      Text.LessTotal(a, b);
      if Text.Less(a, c) && Text.Less(b, a) { Text.LessTransitive(b, a, c); }
    }
  }

  lemma ResourceOrder(rs: seq<PlanResource>)
    ensures WeakOrderOn(ResourceLess, rs)
  {
    forall x, y | x in rs && y in rs && ResourceLess(x, y) ensures !ResourceLess(y, x) {
      StringFacts(x.containerId, y.containerId, y.containerId);
    }
    forall x, y, z | x in rs && y in rs && z in rs && ResourceLess(x, z)
      ensures ResourceLess(x, y) || ResourceLess(y, z)
    {
      StringFacts(x.containerId, y.containerId, z.containerId);
    }
  }

  lemma RefusalOrder(rs: seq<Refusal>)
    ensures WeakOrderOn(RefusalLess, rs) && TotalOn(RefusalLess, rs)
  {
    forall x, y | x in rs && y in rs && RefusalLess(x, y) ensures !RefusalLess(y, x) {
      StringFacts(x.name, y.name, y.name);
      StringFacts(x.reason.detail, y.reason.detail, y.reason.detail);
    }
    forall x, y | x in rs && y in rs && x != y ensures RefusalLess(x, y) || RefusalLess(y, x) {
      StringFacts(x.name, y.name, y.name);
      StringFacts(x.reason.detail, y.reason.detail, y.reason.detail);
    }
    forall x, y, z | x in rs && y in rs && z in rs && RefusalLess(x, z) ensures RefusalLess(x, y) || RefusalLess(y, z) {
      StringFacts(x.name, y.name, z.name);
      StringFacts(x.reason.detail, y.reason.detail, z.reason.detail);
    }
  }
}
