/** What holds of every plan built from an observation. */
module PlanTheorems {
  import opened Domain
  import opened ExitClass
  import opened Plan
  import opened PlanCheck
  import opened Sorting
  import Observe
  import PortSpecs
  import Text

  // ---- resource IDs -----------------------------------------------------------

  lemma {:induction false} SplitAtColon(a: string, s: string, b: string, t: string)
    requires ':' !in a && ':' !in b && a + ":" + s == b + ":" + t
    ensures a == b && s == t
  {
    var x, y := a + ":" + s, b + ":" + t;
    assert x[0] == y[0];
    if a == [] || b == [] {
      assert s == x[1..] && t == y[1..];
    } else {
      assert x[1..] == a[1..] + ":" + s && y[1..] == b[1..] + ":" + t;
      SplitAtColon(a[1..], s, b[1..], t);
    }
  }

  /** The text of a process resource ID determines the process: digits never
      contain the colon that ends the PID. */
  lemma ProcIdInjective(p: nat, s: string, q: nat, t: string)
    requires ProcResourceId(p, s) == ProcResourceId(q, t)
    ensures p == q && s == t
  {
    var a, b := Text.NatText(p), Text.NatText(q);
    assert ProcResourceId(p, s)[5..] == a + ":" + s && ProcResourceId(q, t)[5..] == b + ":" + t;
    assert forall i | 0 <= i < |a| :: Text.IsDigit(a[i]);
    assert forall i | 0 <= i < |b| :: Text.IsDigit(b[i]);
    SplitAtColon(a, s, b, t);
    Text.DecimalRoundTrip(p);
    Text.DecimalRoundTrip(q);
  }

  lemma ContainerIdInjective(a: string, b: string)
    requires ContainerResourceId(a) == ContainerResourceId(b)
    ensures a == b
  {
    assert ContainerResourceId(a)[10..] == a && ContainerResourceId(b)[10..] == b;
  }

  lemma IdKindsDiffer(p: int, s: string, c: string)
    ensures ProcResourceId(p, s) != ContainerResourceId(c)
  {
    assert ProcResourceId(p, s)[0] == 'p' && ContainerResourceId(c)[0] == 'c';
  }

  // ---- what a plan may use -----------------------------------------------------

  /** A process the plan may signal: alive in the observation, bound to its
      observed identity, and none of the protected ones. */
  predicate UsableProcess(sys: Sys, s: Snapshot, opts: PlanOptions, r: PlanResource) {
    && r.provider == NativeProvider && EffectiveMode(opts.mode) != ContainerOnly
    && r.pid > 1 && r.pid != sys.self && !(sys.os == Windows && r.pid == 4)
    && r.pid in s.idents && s.idents[r.pid].ident == IdentOk
    && r.start == s.idents[r.pid].start && r.strength == s.idents[r.pid].strength
    && !sys.infra(r.name) && !(s.namesUnavailable && r.name == "")
    && r.id == ProcResourceId(r.pid, r.start) && r.containerId == ""
    && r.action == SignalAction && r.signal == PlanSignal(sys.os, opts.force)
  }

  predicate UsableContainer(s: Snapshot, opts: PlanOptions, r: PlanResource) {
    && r.provider == DockerProvider && EffectiveMode(opts.mode) != NativeOnly
    && IsFullContainerId(r.containerId) && r.containerId in s.dockerIds
    && r.id == ContainerResourceId(r.containerId) && r.pid == 0 && r.start == ""
    && r.action == DockerStop && r.grace == GraceSeconds(opts.grace)
  }

  /** v is the verdict on some container, on some owner, or on the hidden one. */
  ghost predicate OnContainer(opts: PlanOptions, e: EndpointObs, v: Verdict) {
    exists c :: c in e.containers && v == ContainerVerdict(EffectiveMode(opts.mode), GraceSeconds(opts.grace), c)
  }

  ghost predicate OnOwner(sys: Sys, s: Snapshot, opts: PlanOptions, e: EndpointObs, v: Verdict) {
    exists o :: o in e.owners && v == OwnVerdict(sys, s, opts, e, o)
  }

  predicate OnHidden(e: EndpointObs, v: Verdict) {
    e.hidden && v == Refuse(0, "", Reason(OwnerHidden, ""))
  }

  function OwnVerdict(sys: Sys, s: Snapshot, opts: PlanOptions, e: EndpointObs, o: OwnerObs): Verdict {
    OwnerVerdict(sys, s, EffectiveMode(opts.mode), PlanSignal(sys.os, opts.force), e.containers != [], o)
  }

  lemma ContainerIsRuled(sys: Sys, s: Snapshot, opts: PlanOptions, e: EndpointObs, vs: seq<Verdict>, v: Verdict)
    requires RulesEach(sys, s, opts, e, vs) && OnContainer(opts, e, v)
    ensures v in vs
  {
    var c :| c in e.containers && v == ContainerVerdict(EffectiveMode(opts.mode), GraceSeconds(opts.grace), c);
    var j :| 0 <= j < |e.containers| && e.containers[j] == c;
    assert vs[j] == v;
  }

  lemma OwnerIsRuled(sys: Sys, s: Snapshot, opts: PlanOptions, e: EndpointObs, vs: seq<Verdict>, v: Verdict)
    requires RulesEach(sys, s, opts, e, vs) && OnOwner(sys, s, opts, e, v)
    ensures v in vs
  {
    var o :| o in e.owners && v == OwnVerdict(sys, s, opts, e, o);
    var j :| 0 <= j < |e.owners| && e.owners[j] == o;
    assert vs[|e.containers| + j] == v;
  }

  lemma RuledHasOrigin(sys: Sys, s: Snapshot, opts: PlanOptions, e: EndpointObs, vs: seq<Verdict>, j: nat)
    requires RulesEach(sys, s, opts, e, vs) && j < |vs|
    ensures OnContainer(opts, e, vs[j]) || OnOwner(sys, s, opts, e, vs[j]) || OnHidden(e, vs[j])
  {
    var nc := |e.containers|;
    if j < nc {
      assert e.containers[j] in e.containers;
    } else if j < nc + |e.owners| {
      var o := e.owners[j - nc];
      assert o in e.owners && vs[nc + (j - nc)] == OwnVerdict(sys, s, opts, e, o);
    }
  }

  /** Where each verdict on a port comes from. */
  lemma VerdictOriginOf(sys: Sys, s: Snapshot, opts: PlanOptions, e: EndpointObs, vs: seq<Verdict>, v: Verdict)
    requires RulesEach(sys, s, opts, e, vs)
    ensures v in vs <==> OnContainer(opts, e, v) || OnOwner(sys, s, opts, e, v) || OnHidden(e, v)
  {
    if v in vs {
      var j :| 0 <= j < |vs| && vs[j] == v;
      RuledHasOrigin(sys, s, opts, e, vs, j);
    }
    if OnContainer(opts, e, v) { ContainerIsRuled(sys, s, opts, e, vs, v); }
    if OnOwner(sys, s, opts, e, v) { OwnerIsRuled(sys, s, opts, e, vs, v); }
    assert OnHidden(e, v) ==> vs[|e.containers| + |e.owners|] == v;
  }

  predicate OwnersKnown(s: Snapshot, e: EndpointObs) {
    forall o | o in e.owners :: o.pid > 0 && o.pid in s.idents && o.(name := s.idents[o.pid].name) == s.idents[o.pid]
  }

  predicate ContainersKnown(s: Snapshot, e: EndpointObs) {
    forall c | c in e.containers :: c.fullId == IsFullContainerId(c.id) && c.id in s.dockerIds
  }

  lemma EndpointIsKnown(sys: Sys, s: Snapshot, port: int)
    requires Observe.Collected(s)
    ensures OwnersKnown(s, Observe.Endpoint(sys, s, port)) && ContainersKnown(s, Observe.Endpoint(sys, s, port))
  {
    Observe.OwnersOfMembers(s, port);
    Observe.ContainersOfMembers(s.containers, port);
  }

  lemma OwnerUse(sys: Sys, s: Snapshot, opts: PlanOptions, containers: bool, o: OwnerObs)
    requires o.pid > 0 && o.pid in s.idents && o.(name := s.idents[o.pid].name) == s.idents[o.pid]
    requires OwnerVerdict(sys, s, EffectiveMode(opts.mode), PlanSignal(sys.os, opts.force), containers, o).Use?
    ensures UsableProcess(sys, s, opts,
      OwnerVerdict(sys, s, EffectiveMode(opts.mode), PlanSignal(sys.os, opts.force), containers, o).r)
  {
  }

  lemma UseIsUsableOn(sys: Sys, s: Snapshot, opts: PlanOptions, e: EndpointObs, vs: seq<Verdict>, v: Verdict)
    requires OwnersKnown(s, e) && ContainersKnown(s, e) && RulesEach(sys, s, opts, e, vs)
    requires v in vs && v.Use?
    ensures UsableProcess(sys, s, opts, v.r) || UsableContainer(s, opts, v.r)
  {
    VerdictOriginOf(sys, s, opts, e, vs, v);
    var mode, signal := EffectiveMode(opts.mode), PlanSignal(sys.os, opts.force);
    if o :| o in e.owners && v == OwnerVerdict(sys, s, mode, signal, e.containers != [], o) {
      OwnerUse(sys, s, opts, e.containers != [], o);
    }
  }

  lemma UseIsUsable(sys: Sys, s: Snapshot, opts: PlanOptions, port: int, v: Verdict)
    requires Observe.Collected(s) && v in Rules(sys, s, opts)(port) && v.Use?
    ensures UsableProcess(sys, s, opts, v.r) || UsableContainer(s, opts, v.r)
  {
    EndpointIsKnown(sys, s, port);
    var e := Observe.Endpoint(sys, s, port);
    VerdictsEach(sys, s, opts, e);
    UseIsUsableOn(sys, s, opts, e, VerdictsOn(sys, s, opts, e), v);
  }

  lemma PlannedIsBooked(sys: Sys, s: Snapshot, opts: PlanOptions, now: int, doc: PlanDoc, r: PlanResource)
    requires IsPlanOf(sys, s, opts, now, doc) && r in doc.resources
    ensures r.id in BookAt(Rules(sys, s, opts), opts.ports, |opts.ports|).byId
    ensures BookAt(Rules(sys, s, opts), opts.ports, |opts.ports|).byId[r.id] == r
  {
    var rule := Rules(sys, s, opts);
    var m := BookAt(rule, opts.ports, |opts.ports|).byId;
    assert r in m.Values;
    var id :| id in m && m[id] == r;
    BookUses(rule, opts.ports, |opts.ports|, id);
  }

  /** Every planned resource is usable and was ruled so on each port it lists. */
  lemma PlannedIsUsable(sys: Sys, s: Snapshot, opts: PlanOptions, now: int, doc: PlanDoc, r: PlanResource)
    requires Observe.Collected(s) && IsPlanOf(sys, s, opts, now, doc) && r in doc.resources
    ensures UsableProcess(sys, s, opts, r) || UsableContainer(s, opts, r)
    ensures r.id in BookAt(Rules(sys, s, opts), opts.ports, |opts.ports|).byId
    ensures BookAt(Rules(sys, s, opts), opts.ports, |opts.ports|).byId[r.id] == r
    ensures r.ports != []
    ensures forall p :: p in r.ports <==> UsedOn(Rules(sys, s, opts), opts.ports, |opts.ports|, p, r.id)
  {
    PlannedIsBooked(sys, s, opts, now, doc, r);
    BookedIsUsable(sys, s, opts, r);
  }

  lemma BookedIsUsable(sys: Sys, s: Snapshot, opts: PlanOptions, r: PlanResource)
    requires Observe.Collected(s)
    requires r.id in BookAt(Rules(sys, s, opts), opts.ports, |opts.ports|).byId
    requires BookAt(Rules(sys, s, opts), opts.ports, |opts.ports|).byId[r.id] == r
    ensures UsableProcess(sys, s, opts, r) || UsableContainer(s, opts, r)
    ensures r.ports != []
    ensures forall p :: p in r.ports <==> UsedOn(Rules(sys, s, opts), opts.ports, |opts.ports|, p, r.id)
  {
    var rule := Rules(sys, s, opts);
    BookUses(rule, opts.ports, |opts.ports|, r.id);
    var p, v :| p in opts.ports[..|opts.ports|] && v in rule(p) && v.Use? && v.r.id == r.id &&
      r == v.r.(ports := r.ports);
    UseIsUsable(sys, s, opts, p, v);
    assert UsedOn(rule, opts.ports, |opts.ports|, p, r.id);
  }

  // ---- determinism ----------------------------------------------------------------

  /** Two resources of one book differ in ID and are in order. */
  lemma TwoResources(sys: Sys, s: Snapshot, opts: PlanOptions, x: PlanResource, y: PlanResource)
    requires UsableProcess(sys, s, opts, x) || UsableContainer(s, opts, x)
    requires UsableProcess(sys, s, opts, y) || UsableContainer(s, opts, y)
    requires x.id != y.id
    ensures ResourceLess(x, y) || ResourceLess(y, x)
  {
    if x.provider == DockerProvider && y.provider == DockerProvider {
      StringFacts(x.containerId, y.containerId, y.containerId);
    }
  }

  lemma ResourcesTotal(sys: Sys, s: Snapshot, opts: PlanOptions, now: int, doc: PlanDoc)
    requires Observe.Collected(s) && IsPlanOf(sys, s, opts, now, doc)
    ensures TotalOn(ResourceLess, doc.resources)
    ensures forall x, y | x in doc.resources && y in doc.resources && x != y :: x.id != y.id
  {
    var m := BookAt(Rules(sys, s, opts), opts.ports, |opts.ports|).byId;
    forall x | x in doc.resources
      ensures (UsableProcess(sys, s, opts, x) || UsableContainer(s, opts, x)) && x.id in m && m[x.id] == x
    {
      PlannedIsUsable(sys, s, opts, now, doc, x);
    }
    forall x, y | x in doc.resources && y in doc.resources && x != y
      ensures x.id != y.id && (ResourceLess(x, y) || ResourceLess(y, x))
    {
      TwoResources(sys, s, opts, x, y);
    }
  }

  lemma SameElements<T>(a: seq<T>, b: seq<T>)
    requires NoDuplicates(a) && NoDuplicates(b) && forall x :: x in a <==> x in b
    ensures multiset(a) == multiset(b)
  {
    DuplicatesCount(a);
    DuplicatesCount(b);
    forall x ensures multiset(a)[x] == multiset(b)[x] {
      assert x in a <==> x in multiset(a);
      assert x in b <==> x in multiset(b);
    }
  }

  /** One observation and one set of options give one plan, whatever order the
      map of resources was walked in. */
  lemma PlanIsDeterministic(sys: Sys, s: Snapshot, opts: PlanOptions, now: int, a: PlanDoc, b: PlanDoc)
    requires Observe.Collected(s) && IsPlanOf(sys, s, opts, now, a) && IsPlanOf(sys, s, opts, now, b)
    ensures a == b
  {
    ResourcesTotal(sys, s, opts, now, a);
    SameElements(a.resources, b.resources);
    SortedIsUnique(ResourceLess, a.resources, b.resources);
    RefusalOrder(a.refused);
    SameElements(a.refused, b.refused);
    SortedIsUnique(RefusalLess, a.refused, b.refused);
    var raised := EndpointClasses(a.endpoints) + if a.refused != [] then [Failed] else [];
    WorstIgnoresOrder(a.exitClass, b.exitClass, raised, raised);
  }

  // ---- the generator satisfies the checker -----------------------------------------

  const HOUR: int := 3600 * SECOND

  /** What runPlan has checked before it builds a plan. */
  ghost predicate OptionsOk(opts: PlanOptions) {
    && opts.protocol in {Tcp, Udp}
    && opts.ports != [] && StrictlyAscending(opts.ports) && PortsInRange(opts.ports)
    && 0 < opts.ttl <= 24 * HOUR && 0 <= opts.grace <= HOUR
  }

  /** The ProcessIdentity contract for the identities that were read. */
  predicate IdentitiesInRange(s: Snapshot) {
    forall pid | pid in s.idents && s.idents[pid].ident == IdentOk ::
      ValidSignalPid(pid) && s.idents[pid].strength != UnsetStrength
  }

  lemma {:induction false} UseIdsMeans(vs: seq<Verdict>, n: nat)
    requires n <= |vs|
    ensures forall id :: id in UseIds(vs, n) <==> UsesId(vs, n, id)
  {
    if n > 0 { UseIdsMeans(vs, n - 1); }
  }

  lemma EndpointIdsKnown(rule: int -> seq<Verdict>, ports: seq<int>, i: nat, id: string)
    requires i < |ports| && id in UseIds(rule(ports[i]), |rule(ports[i])|)
    ensures id in BookAt(rule, ports, |ports|).byId && BookAt(rule, ports, |ports|).byId[id].id == id
  {
    var vs := rule(ports[i]);
    UseIdsMeans(vs, |vs|);
    UsesIdIn(vs, id);
    assert ports[..|ports|] == ports;
    assert UsedOn(rule, ports, |ports|, ports[i], id);
    BookUses(rule, ports, |ports|, id);
  }

  lemma EndpointsKnown(sys: Sys, s: Snapshot, opts: PlanOptions, now: int, doc: PlanDoc)
    requires Observe.Collected(s) && IsPlanOf(sys, s, opts, now, doc)
    requires s.protocol == opts.protocol
    ensures forall e | e in doc.endpoints :: EndpointOk(doc, e)
  {
    var rule := Rules(sys, s, opts);
    var m := BookAt(rule, opts.ports, |opts.ports|).byId;
    forall i | 0 <= i < |opts.ports| ensures EndpointOk(doc, doc.endpoints[i]) {
      EndpointDocsAt(Observations(sys, s), rule, opts.ports, |opts.ports|, i);
      forall id | id in doc.endpoints[i].resources ensures exists r :: r in doc.resources && r.id == id {
        EndpointIdsKnown(rule, opts.ports, i, id);
        assert m[id] in m.Values;
      }
    }
  }

  lemma UsableIsOk(sys: Sys, s: Snapshot, opts: PlanOptions, doc: PlanDoc, r: PlanResource)
    requires Observe.Collected(s) && OptionsOk(opts) && IdentitiesInRange(s)
    requires doc.os == sys.os && doc.request.mode == EffectiveMode(opts.mode) && doc.request.force == opts.force
    requires UsableProcess(sys, s, opts, r) || UsableContainer(s, opts, r)
    requires r.ports != [] && forall p | p in r.ports :: p in doc.request.ports
    ensures ResourceOk(doc, r)
  {
  }

  lemma ResourcesOk(sys: Sys, s: Snapshot, opts: PlanOptions, now: int, doc: PlanDoc)
    requires Observe.Collected(s) && IsPlanOf(sys, s, opts, now, doc)
    requires OptionsOk(opts) && IdentitiesInRange(s)
    ensures forall r | r in doc.resources :: ResourceOk(doc, r)
  {
    assert opts.ports[..|opts.ports|] == opts.ports;
    forall r | r in doc.resources ensures ResourceOk(doc, r) {
      PlannedIsUsable(sys, s, opts, now, doc, r);
      UsableIsOk(sys, s, opts, doc, r);
    }
  }

  /** The second-truncated validity window never exceeds the TTL limit. */
  lemma WindowIsOk(now: int, ttl: int)
    requires 0 < ttl <= 24 * HOUR
    ensures 0 <= FormatTime(now + ttl).value - FormatTime(now).value <= MAX_TTL
    ensures FormatTime(now).value * SECOND <= now < (FormatTime(now).value + 1) * SECOND
  {
  }

  lemma RequestIsOk(sys: Sys, s: Snapshot, opts: PlanOptions, now: int, doc: PlanDoc)
    requires IsPlanOf(sys, s, opts, now, doc) && OptionsOk(opts)
    ensures RequestOk(doc.request) && WindowOk(doc)
  {
    WindowIsOk(now, opts.ttl);
  }

  /** Every plan buildPlan makes is one validatePlan accepts, in every mode and
      on every OS. */
  lemma BuiltPlanIsValid(sys: Sys, s: Snapshot, opts: PlanOptions, now: int, doc: PlanDoc)
    requires Observe.Collected(s) && IsPlanOf(sys, s, opts, now, doc)
    requires OptionsOk(opts) && s.protocol == opts.protocol && IdentitiesInRange(s)
    ensures ValidPlan(doc)
  {
    RequestIsOk(sys, s, opts, now, doc);
    ResourcesTotal(sys, s, opts, now, doc);
    ResourcesOk(sys, s, opts, now, doc);
    EndpointsKnown(sys, s, opts, now, doc);
  }

  /** The contract of ProcessIdentity: an answer without an error is about one
      process and says how strong it is. */
  ghost predicate ContractKept(lookup: int -> Lookup) {
    forall pid | lookup(pid).err.None? :: ValidSignalPid(pid) && lookup(pid).strength != UnsetStrength
  }

  /** Every identity was obtained by one lookup of its PID. */
  ghost predicate LookedUp(s: Snapshot, lookup: int -> Lookup) {
    forall pid | pid in s.idents :: s.idents[pid] == Observe.LookupOwner(lookup(pid), pid, s.idents[pid].name)
  }

  lemma ContractGivesRange(s: Snapshot, lookup: int -> Lookup)
    requires LookedUp(s, lookup) && ContractKept(lookup)
    ensures IdentitiesInRange(s)
  {
    forall pid | pid in s.idents && s.idents[pid].ident == IdentOk
      ensures ValidSignalPid(pid) && s.idents[pid].strength != UnsetStrength
    {
      assert lookup(pid).err.None?;
    }
  }

  /** From the command line to apply: the ports come from accepted arguments, the
      observation from a collection over lookups that keep their contract, and the
      limits are the ones runPlan checks. Then the plan is accepted. */
  lemma ArgumentsGiveAcceptedPlan(sys: Sys, s: Snapshot, opts: PlanOptions, now: int, doc: PlanDoc,
                                  args: seq<string>, lookup: int -> Lookup)
    requires Observe.Collected(s) && IsPlanOf(sys, s, opts, now, doc) && s.protocol == opts.protocol
    requires LookedUp(s, lookup) && ContractKept(lookup)
    requires args != [] && forall k | 0 <= k < |args| :: PortSpecs.IsSpec(args[k])
    requires StrictlyAscending(opts.ports) && forall p :: p in opts.ports <==> PortSpecs.CoveredBy(args, |args|, p)
    requires opts.protocol in {Tcp, Udp} && 0 < opts.ttl <= 24 * HOUR && 0 <= opts.grace <= HOUR
    ensures ValidPlan(doc)
  {
    PortSpecs.AcceptedPortsAreInRange(args, opts.ports);
    ContractGivesRange(s, lookup);
    BuiltPlanIsValid(sys, s, opts, now, doc);
  }

  // ---- every occupant is accounted for -------------------------------------------------

  ghost predicate ContainerPlanned(doc: PlanDoc, port: int, c: Container) {
    exists r :: r in doc.resources && r.provider == DockerProvider && r.containerId == c.id && port in r.ports
  }

  ghost predicate ContainerRefused(doc: PlanDoc, port: int, c: Container) {
    exists x :: x in doc.refused && x.port == port && x.pid == 0 && x.name == c.name
      && x.reason in {Reason(PublishedByContainer, ""), Reason(ShortContainerId, c.id)}
  }

  ghost predicate OwnerPlanned(doc: PlanDoc, port: int, o: OwnerObs) {
    exists r :: r in doc.resources && r.provider == NativeProvider && r.pid == o.pid && r.start == o.start &&
      port in r.ports
  }

  ghost predicate OwnerRefused(doc: PlanDoc, port: int, o: OwnerObs) {
    exists x :: x in doc.refused && x.port == port && x.pid == o.pid
  }

  /** Docker's own process in front of a container that is listed on the port. */
  predicate OwnerExplained(sys: Sys, s: Snapshot, opts: PlanOptions, port: int, o: OwnerObs) {
    sys.infra(o.name) && EffectiveMode(opts.mode) != NativeOnly && Observe.ContainersOf(s.containers, port) != []
  }

  /** A resource is planned for a port exactly when some verdict there uses its ID. */
  lemma PlannedMeansRuled(sys: Sys, s: Snapshot, opts: PlanOptions, now: int, doc: PlanDoc, port: int, id: string)
    requires IsPlanOf(sys, s, opts, now, doc) && port in opts.ports
    ensures (exists r :: r in doc.resources && r.id == id && port in r.ports) <==>
            (exists v :: v in Rules(sys, s, opts)(port) && v.Use? && v.r.id == id)
  {
    var rule := Rules(sys, s, opts);
    var n := |opts.ports|;
    var m := BookAt(rule, opts.ports, n).byId;
    assert opts.ports[..n] == opts.ports;
    BookUses(rule, opts.ports, n, id);
    if v :| v in rule(port) && v.Use? && v.r.id == id {
      assert UsedOn(rule, opts.ports, n, port, id);
      assert m[id] in doc.resources;
    }
    if r :| r in doc.resources && r.id == id && port in r.ports {
      var key :| key in m && m[key] == r;
      BookUses(rule, opts.ports, n, key);
      assert UsedOn(rule, opts.ports, n, port, id);
    }
  }

  lemma RefusedMeansRuled(sys: Sys, s: Snapshot, opts: PlanOptions, now: int, doc: PlanDoc, x: Refusal)
    requires IsPlanOf(sys, s, opts, now, doc) && x.port in opts.ports
    ensures x in doc.refused <==>
            exists v :: v in Rules(sys, s, opts)(x.port) && v.Refuse? && RefusalOf(x.port, v) == x
  {
    assert opts.ports[..|opts.ports|] == opts.ports;
    BookRefusals(Rules(sys, s, opts), opts.ports, |opts.ports|);
  }


  // ---- accounting, on one observed port --------------------------------------------

  ghost predicate UsesOn(vs: seq<Verdict>, id: string) {
    exists v :: v in vs && v.Use? && v.r.id == id
  }

  predicate OwnersDistinct(e: EndpointObs) {
    forall o, q | o in e.owners && q in e.owners && o.pid == q.pid :: o == q
  }

  predicate ContainerNamed(x: Refusal, port: int, c: Container) {
    x.port == port && x.pid == 0 && x.name == c.name
    && x.reason in {Reason(PublishedByContainer, ""), Reason(ShortContainerId, c.id)}
  }

  lemma ContainerVerdictIsOwn(sys: Sys, s: Snapshot, opts: PlanOptions, e: EndpointObs, vs: seq<Verdict>, c: Container,
                              v: Verdict)
    requires OwnersKnown(s, e) && ContainersKnown(s, e) && RulesEach(sys, s, opts, e, vs) && c in e.containers &&
      v in vs
    ensures v.Use? && v.r.id == ContainerResourceId(c.id) ==> EffectiveMode(opts.mode) != NativeOnly && c.fullId
    ensures v.Refuse? && ContainerNamed(RefusalOf(e.port, v), e.port, c) ==>
      EffectiveMode(opts.mode) == NativeOnly || !c.fullId
  {
    var mode, grace := EffectiveMode(opts.mode), GraceSeconds(opts.grace);
    VerdictOriginOf(sys, s, opts, e, vs, v);
    if d :| d in e.containers && v == ContainerVerdict(mode, grace, d) {
      if v.Use? && v.r.id == ContainerResourceId(c.id) { ContainerIdInjective(d.id, c.id); }
    } else if o :|
      o in e.owners && v == OwnerVerdict(sys, s, mode, PlanSignal(sys.os, opts.force), e.containers != [], o)
    {
      IdKindsDiffer(o.pid, o.start, c.id);
    }
  }

  lemma ContainerVerdicts(sys: Sys, s: Snapshot, opts: PlanOptions, e: EndpointObs, vs: seq<Verdict>, c: Container)
    requires OwnersKnown(s, e) && ContainersKnown(s, e) && RulesEach(sys, s, opts, e, vs) && c in e.containers
    ensures UsesOn(vs, ContainerResourceId(c.id)) <==> EffectiveMode(opts.mode) != NativeOnly && c.fullId
    ensures (exists v :: v in vs && v.Refuse? && ContainerNamed(RefusalOf(e.port, v), e.port, c)) <==>
            !UsesOn(vs, ContainerResourceId(c.id))
  {
    var own := ContainerVerdict(EffectiveMode(opts.mode), GraceSeconds(opts.grace), c);
    VerdictOriginOf(sys, s, opts, e, vs, own);
    forall v | v in vs ensures
      (v.Use? && v.r.id == ContainerResourceId(c.id) ==> EffectiveMode(opts.mode) != NativeOnly && c.fullId)
      && (v.Refuse? && ContainerNamed(RefusalOf(e.port, v), e.port, c) ==>
        EffectiveMode(opts.mode) == NativeOnly || !c.fullId)
    {
      ContainerVerdictIsOwn(sys, s, opts, e, vs, c, v);
    }
  }

  lemma OwnerVerdictShape(sys: Sys, s: Snapshot, opts: PlanOptions, e: EndpointObs, o: OwnerObs)
    ensures
      var v := OwnVerdict(sys, s, opts, e, o);
      && (v.Use? ==> v.r.id == ProcResourceId(o.pid, o.start))
      && (v.Refuse? ==> v.pid == o.pid)
      && (v.Explained? <==> sys.infra(o.name) && EffectiveMode(opts.mode) != NativeOnly && e.containers != [])
  {
  }

  /** Only an owner's own verdict can use its process or refuse its PID. */
  lemma OwnerVerdictIsOwn(sys: Sys, s: Snapshot, opts: PlanOptions, e: EndpointObs, vs: seq<Verdict>, o: OwnerObs,
                          v: Verdict)
    requires OwnersKnown(s, e) && OwnersDistinct(e) && RulesEach(sys, s, opts, e, vs) && o in e.owners && v in vs
    requires (v.Use? && v.r.id == ProcResourceId(o.pid, o.start)) || (v.Refuse? && v.pid == o.pid)
    ensures v == OwnVerdict(sys, s, opts, e, o)
  {
    VerdictOriginOf(sys, s, opts, e, vs, v);
    if d :| d in e.containers && v == ContainerVerdict(EffectiveMode(opts.mode), GraceSeconds(opts.grace), d) {
      IdKindsDiffer(o.pid, o.start, d.id);
      assert false;
    }
    var q :| q in e.owners && v == OwnVerdict(sys, s, opts, e, q);
    OwnerVerdictShape(sys, s, opts, e, q);
    if v.Use? { ProcIdInjective(q.pid, q.start, o.pid, o.start); }
  }

  lemma OwnerVerdicts(sys: Sys, s: Snapshot, opts: PlanOptions, e: EndpointObs, vs: seq<Verdict>, o: OwnerObs)
    requires OwnersKnown(s, e) && OwnersDistinct(e) && RulesEach(sys, s, opts, e, vs) && o in e.owners
    ensures UsesOn(vs, ProcResourceId(o.pid, o.start)) <==> OwnVerdict(sys, s, opts, e, o).Use?
    ensures (exists v :: v in vs && v.Refuse? && v.pid == o.pid) <==> OwnVerdict(sys, s, opts, e, o).Refuse?
  {
    var own := OwnVerdict(sys, s, opts, e, o);
    VerdictOriginOf(sys, s, opts, e, vs, own);
    OwnerVerdictShape(sys, s, opts, e, o);
    if v :| v in vs && v.Use? && v.r.id == ProcResourceId(o.pid, o.start) {
      OwnerVerdictIsOwn(sys, s, opts, e, vs, o, v);
    }
    if v :| v in vs && v.Refuse? && v.pid == o.pid {
      OwnerVerdictIsOwn(sys, s, opts, e, vs, o, v);
    }
  }

  /** Nothing refused and nothing hidden: every occupant is used or explained. */
  lemma CleanPort(sys: Sys, s: Snapshot, opts: PlanOptions, e: EndpointObs, vs: seq<Verdict>)
    requires RulesEach(sys, s, opts, e, vs)
    ensures (forall v | v in vs :: !v.Refuse?) <==>
      && !e.hidden
      && (forall c | c in e.containers :: ContainerVerdict(EffectiveMode(opts.mode), GraceSeconds(opts.grace), c).Use?)
      && (forall o | o in e.owners ::
            var signal := PlanSignal(sys.os, opts.force);
            !OwnerVerdict(sys, s, EffectiveMode(opts.mode), signal, e.containers != [], o).Refuse?)
  {
    var mode, grace, signal := EffectiveMode(opts.mode), GraceSeconds(opts.grace), PlanSignal(sys.os, opts.force);
    forall v ensures v in vs <==>
        || (exists c :: c in e.containers && v == ContainerVerdict(mode, grace, c))
        || (exists o :: o in e.owners && v == OwnerVerdict(sys, s, mode, signal, e.containers != [], o))
        || (e.hidden && v == Refuse(0, "", Reason(OwnerHidden, "")))
    { VerdictOriginOf(sys, s, opts, e, vs, v); }
  }

  // ---- accounting, in the document -----------------------------------------------------

  lemma PortFacts(sys: Sys, s: Snapshot, opts: PlanOptions, port: int)
    requires Observe.Collected(s)
    ensures
      var e := Observe.Endpoint(sys, s, port);
      && e.port == port && OwnersKnown(s, e) && OwnersDistinct(e) && ContainersKnown(s, e)
      && RulesEach(sys, s, opts, e, Rules(sys, s, opts)(port))
  {
    EndpointIsKnown(sys, s, port);
    VerdictsEach(sys, s, opts, Observe.Endpoint(sys, s, port));
    Observe.OwnersOfMembers(s, port);
  }

  /** Each container on a requested port is planned or refused, never both. */
  lemma ContainerAccounting(sys: Sys, s: Snapshot, opts: PlanOptions, now: int, doc: PlanDoc, port: int, c: Container)
    requires Observe.Collected(s) && IsPlanOf(sys, s, opts, now, doc)
    requires port in opts.ports && c in Observe.Endpoint(sys, s, port).containers
    ensures ContainerPlanned(doc, port, c) <==> EffectiveMode(opts.mode) != NativeOnly && IsFullContainerId(c.id)
    ensures ContainerRefused(doc, port, c) <==> !ContainerPlanned(doc, port, c)
  {
    PortFacts(sys, s, opts, port);
    ContainerVerdicts(sys, s, opts, Observe.Endpoint(sys, s, port), Rules(sys, s, opts)(port), c);
    ContainerInDoc(sys, s, opts, now, doc, port, c);
  }

  lemma ContainerInDoc(sys: Sys, s: Snapshot, opts: PlanOptions, now: int, doc: PlanDoc, port: int, c: Container)
    requires Observe.Collected(s) && IsPlanOf(sys, s, opts, now, doc) && port in opts.ports
    ensures ContainerPlanned(doc, port, c) <==> UsesOn(Rules(sys, s, opts)(port), ContainerResourceId(c.id))
    ensures ContainerRefused(doc, port, c) <==>
      exists v :: v in Rules(sys, s, opts)(port) && v.Refuse? && ContainerNamed(RefusalOf(port, v), port, c)
  {
    var vs := Rules(sys, s, opts)(port);
    PlannedMeansRuled(sys, s, opts, now, doc, port, ContainerResourceId(c.id));
    forall r | r in doc.resources
      ensures r.provider == DockerProvider && r.containerId == c.id <==> r.id == ContainerResourceId(c.id)
    {
      PlannedIsUsable(sys, s, opts, now, doc, r);
      if r.id == ContainerResourceId(c.id) {
        if r.provider == DockerProvider { ContainerIdInjective(r.containerId, c.id); }
        else { IdKindsDiffer(r.pid, r.start, c.id); }
      }
    }
    if x :| x in doc.refused && ContainerNamed(x, port, c) { RefusedMeansRuled(sys, s, opts, now, doc, x); }
    if v :| v in vs && v.Refuse? && ContainerNamed(RefusalOf(port, v), port, c) {
      RefusedMeansRuled(sys, s, opts, now, doc, RefusalOf(port, v));
    }
  }

  lemma OwnerInDoc(sys: Sys, s: Snapshot, opts: PlanOptions, now: int, doc: PlanDoc, port: int, o: OwnerObs)
    requires Observe.Collected(s) && IsPlanOf(sys, s, opts, now, doc) && port in opts.ports && o.pid > 0
    ensures OwnerPlanned(doc, port, o) <==> UsesOn(Rules(sys, s, opts)(port), ProcResourceId(o.pid, o.start))
    ensures OwnerRefused(doc, port, o) <==> exists v :: v in Rules(sys, s, opts)(port) && v.Refuse? && v.pid == o.pid
  {
    var vs := Rules(sys, s, opts)(port);
    PlannedMeansRuled(sys, s, opts, now, doc, port, ProcResourceId(o.pid, o.start));
    forall r | r in doc.resources
      ensures r.provider == NativeProvider && r.pid == o.pid && r.start == o.start <==>
        r.id == ProcResourceId(o.pid, o.start)
    {
      PlannedIsUsable(sys, s, opts, now, doc, r);
      if r.id == ProcResourceId(o.pid, o.start) {
        if r.provider == DockerProvider { IdKindsDiffer(o.pid, o.start, r.containerId); }
        else { ProcIdInjective(r.pid, r.start, o.pid, o.start); }
      }
    }
    if x :| x in doc.refused && x.port == port && x.pid == o.pid { RefusedMeansRuled(sys, s, opts, now, doc, x); }
    if v :| v in vs && v.Refuse? && v.pid == o.pid {
      RefusedMeansRuled(sys, s, opts, now, doc, RefusalOf(port, v));
    }
  }

  /** Each visible owner of a requested port is exactly one of planned, refused,
      or Docker's own process explained by a listed container. */
  lemma OwnerAccounting(sys: Sys, s: Snapshot, opts: PlanOptions, now: int, doc: PlanDoc, port: int, o: OwnerObs)
    requires Observe.Collected(s) && IsPlanOf(sys, s, opts, now, doc)
    requires port in opts.ports && o in Observe.Endpoint(sys, s, port).owners
    ensures
      var planned, refused, explained :=
        OwnerPlanned(doc, port, o), OwnerRefused(doc, port, o), OwnerExplained(sys, s, opts, port, o);
      && (planned || refused || explained)
      && !(planned && refused) && !(planned && explained) && !(refused && explained)
  {
    OwnerRuled(sys, s, opts, port, o);
    OwnerInDoc(sys, s, opts, now, doc, port, o);
  }

  lemma OwnerRuled(sys: Sys, s: Snapshot, opts: PlanOptions, port: int, o: OwnerObs)
    requires Observe.Collected(s) && o in Observe.Endpoint(sys, s, port).owners
    ensures
      var vs := Rules(sys, s, opts)(port);
      var own := OwnVerdict(sys, s, opts, Observe.Endpoint(sys, s, port), o);
      && o.pid > 0
      && (UsesOn(vs, ProcResourceId(o.pid, o.start)) <==> own.Use?)
      && ((exists v :: v in vs && v.Refuse? && v.pid == o.pid) <==> own.Refuse?)
      && (own.Explained? <==> OwnerExplained(sys, s, opts, port, o))
  {
    PortFacts(sys, s, opts, port);
    OwnerVerdicts(sys, s, opts, Observe.Endpoint(sys, s, port), Rules(sys, s, opts)(port), o);
    OwnerVerdictShape(sys, s, opts, Observe.Endpoint(sys, s, port), o);
  }

  // ---- what exit class OK means for a plan ------------------------------------------------

  predicate NoneRaised(es: seq<PlanEndpoint>) {
    forall i | 0 <= i < |es| :: EndpointClass(es[i]) == []
  }

  lemma LastIsNext(es: seq<PlanEndpoint>)
    requires es != []
    ensures NoneRaised(es) <==> NoneRaised(es[..|es| - 1]) && EndpointClass(es[|es| - 1]) == []
  {
    var u := es[..|es| - 1];
    assert forall i | 0 <= i < |u| :: u[i] == es[i];
  }

  lemma {:induction false} ClassesRaised(es: seq<PlanEndpoint>)
    ensures EndpointClasses(es) == [] <==> NoneRaised(es)
    ensures forall x | x in EndpointClasses(es) :: x in {Failed, Uncertain}
  {
    if es != [] {
      ClassesRaised(es[..|es| - 1]);
      LastIsNext(es);
    }
  }

  lemma OkMeansNothingRaised(doc: PlanDoc)
    requires IsPlanClass(doc.exitClass, doc.endpoints, doc.refused)
    ensures doc.exitClass == OK <==>
      doc.refused == [] && forall i | 0 <= i < |doc.endpoints| :: EndpointClass(doc.endpoints[i]) == []
  {
    ClassesRaised(doc.endpoints);
    var raised := EndpointClasses(doc.endpoints) + if doc.refused != [] then [Failed] else [];
    if raised != [] {
      assert raised[0] in raised && Rank(raised[0]) > 0;
    }
  }

  ghost predicate NoRefusal(vs: seq<Verdict>) {
    forall v | v in vs :: !v.Refuse?
  }

  ghost predicate Covered(sys: Sys, s: Snapshot, opts: PlanOptions, e: EndpointObs) {
    && (forall c | c in e.containers :: ContainerVerdict(EffectiveMode(opts.mode), GraceSeconds(opts.grace), c).Use?)
    && (forall o | o in e.owners :: !OwnVerdict(sys, s, opts, e, o).Refuse?)
  }

  /** On one port: nothing raised and nothing refused, or complete visibility and all covered. */
  lemma PortOk(sys: Sys, s: Snapshot, opts: PlanOptions, e: EndpointObs, vs: seq<Verdict>, d: PlanEndpoint)
    requires RulesEach(sys, s, opts, e, vs)
    requires e.visibility == Complete ==> !e.hidden
    requires e.occupied && !e.hidden ==> e.containers != [] || e.owners != []
    requires d.visibility == e.visibility && d.occupied == e.occupied && d.resources == UseIds(vs, |vs|)
    ensures NoRefusal(vs) && EndpointClass(d) == [] <==> e.visibility == Complete && Covered(sys, s, opts, e)
  {
    CleanPort(sys, s, opts, e, vs);
    if e.visibility == Complete && Covered(sys, s, opts, e) && e.occupied {
      UseIdsMeans(vs, |vs|);
      if e.containers != [] {
        assert e.containers[0] in e.containers && vs[0].Use?;
        assert UsesId(vs, |vs|, vs[0].r.id);
      } else {
        var o := e.owners[0];
        assert o in e.owners && vs[|e.containers| + 0] == OwnVerdict(sys, s, opts, e, o);
        OwnerVerdictShape(sys, s, opts, e, o);
        assert UsesId(vs, |vs|, vs[0].r.id);
      }
    }
  }

  lemma PortOkInDoc(sys: Sys, s: Snapshot, opts: PlanOptions, doc: PlanDoc, i: nat)
    requires Observe.Collected(s) && i < |opts.ports|
    requires doc.endpoints == EndpointDocs(Observations(sys, s), Rules(sys, s, opts), opts.ports, |opts.ports|)
    ensures
      var e := Observe.Endpoint(sys, s, opts.ports[i]);
      NoRefusal(Rules(sys, s, opts)(opts.ports[i])) && EndpointClass(doc.endpoints[i]) == [] <==>
        e.visibility == Complete && Covered(sys, s, opts, e)
  {
    var e := Observe.Endpoint(sys, s, opts.ports[i]);
    PortFacts(sys, s, opts, opts.ports[i]);
    EndpointDocsAt(Observations(sys, s), Rules(sys, s, opts), opts.ports, |opts.ports|, i);
    PortOk(sys, s, opts, e, Rules(sys, s, opts)(opts.ports[i]), doc.endpoints[i]);
  }

  lemma NothingRefused(sys: Sys, s: Snapshot, opts: PlanOptions, now: int, doc: PlanDoc)
    requires IsPlanOf(sys, s, opts, now, doc)
    ensures doc.refused == [] <==> forall i | 0 <= i < |opts.ports| :: NoRefusal(Rules(sys, s, opts)(opts.ports[i]))
  {
    var rule, n := Rules(sys, s, opts), |opts.ports|;
    BookRefusals(rule, opts.ports, n);
    assert opts.ports[..n] == opts.ports;
    if doc.refused != [] {
      assert doc.refused[0] in doc.refused && RefusedOn(rule, opts.ports, n, doc.refused[0]);
    }
    forall i, v | 0 <= i < n && v in rule(opts.ports[i]) && v.Refuse? ensures doc.refused != [] {
      assert RefusedOn(rule, opts.ports, n, RefusalOf(opts.ports[i], v));
    }
  }

  /** The occupant is in the plan, or needs no entry of its own. */
  ghost predicate PortCovered(sys: Sys, s: Snapshot, opts: PlanOptions, doc: PlanDoc, port: int) {
    var e := Observe.Endpoint(sys, s, port);
    && (forall c | c in e.containers :: ContainerPlanned(doc, port, c))
    && (forall o | o in e.owners :: OwnerPlanned(doc, port, o) || OwnerExplained(sys, s, opts, port, o))
  }

  lemma CoveredInDoc(sys: Sys, s: Snapshot, opts: PlanOptions, now: int, doc: PlanDoc, port: int)
    requires Observe.Collected(s) && IsPlanOf(sys, s, opts, now, doc) && port in opts.ports
    ensures Covered(sys, s, opts, Observe.Endpoint(sys, s, port)) <==> PortCovered(sys, s, opts, doc, port)
  {
    var e := Observe.Endpoint(sys, s, port);
    forall c | c in e.containers ensures
      ContainerVerdict(EffectiveMode(opts.mode), GraceSeconds(opts.grace), c).Use? <==> ContainerPlanned(doc, port, c)
    {
      ContainerAccounting(sys, s, opts, now, doc, port, c);
      PortFacts(sys, s, opts, port);
    }
    forall o | o in e.owners ensures
      !OwnVerdict(sys, s, opts, e, o).Refuse? <==> OwnerPlanned(doc, port, o) || OwnerExplained(sys, s, opts, port, o)
    {
      OwnerRuled(sys, s, opts, port, o);
      OwnerInDoc(sys, s, opts, now, doc, port, o);
    }
  }

  ghost predicate PortFine(sys: Sys, s: Snapshot, opts: PlanOptions, doc: PlanDoc, port: int) {
    Observe.Endpoint(sys, s, port).visibility == Complete && PortCovered(sys, s, opts, doc, port)
  }

  lemma PortFineExactly(sys: Sys, s: Snapshot, opts: PlanOptions, now: int, doc: PlanDoc, i: nat)
    requires Observe.Collected(s) && IsPlanOf(sys, s, opts, now, doc) && i < |opts.ports|
    ensures |doc.endpoints| == |opts.ports|
    ensures NoRefusal(Rules(sys, s, opts)(opts.ports[i])) && EndpointClass(doc.endpoints[i]) == [] <==>
      PortFine(sys, s, opts, doc, opts.ports[i])
  {
    PortOkInDoc(sys, s, opts, doc, i);
    CoveredInDoc(sys, s, opts, now, doc, opts.ports[i]);
  }

  /** Exit class OK says: every requested port is completely visible (so nothing
      on it is hidden), and every occupant is in a resource or explained by one. */
  lemma OkPlanCoversAll(sys: Sys, s: Snapshot, opts: PlanOptions, now: int, doc: PlanDoc)
    requires Observe.Collected(s) && IsPlanOf(sys, s, opts, now, doc)
    ensures doc.exitClass == OK <==> forall port | port in opts.ports :: PortFine(sys, s, opts, doc, port)
  {
    var ports, rule := opts.ports, Rules(sys, s, opts);
    OkMeansNothingRaised(doc);
    NothingRefused(sys, s, opts, now, doc);
    assert |doc.endpoints| == |ports|;
    forall i | 0 <= i < |ports|
      ensures NoRefusal(rule(ports[i])) && EndpointClass(doc.endpoints[i]) == [] <==>
        PortFine(sys, s, opts, doc, ports[i])
    {
      PortFineExactly(sys, s, opts, now, doc, i);
    }
    if doc.exitClass == OK {
      forall port | port in ports ensures PortFine(sys, s, opts, doc, port) {
        var i :| 0 <= i < |ports| && ports[i] == port;
      }
    } else {
      var i :| 0 <= i < |ports| && !(NoRefusal(rule(ports[i])) && EndpointClass(doc.endpoints[i]) == []);
      assert ports[i] in ports && !PortFine(sys, s, opts, doc, ports[i]);
    }
  }
}
