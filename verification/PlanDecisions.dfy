/** internal/cli/plan.go: which occupant of a port is planned, which is refused and
    why, in terms of the observation and the options; and what the class of a plan says. */
module PlanDecisions {
  import opened Domain
  import opened ExitClass
  import opened Plan
  import opened PlanTheorems
  import opened Sorting
  import Observe
  import PlanCheck
  import Text

  // ---- who is planned ---------------------------------------------------------------

  /** Everything that must hold of a visible owner before it may be signalled. */
  predicate Plannable(sys: Sys, s: Snapshot, opts: PlanOptions, o: OwnerObs) {
    && opts.mode != ContainerOnly && !sys.infra(o.name)
    && o.pid > 1 && o.pid != sys.self && !(sys.os == Windows && o.pid == 4)
    && (s.namesUnavailable ==> o.name != "")
    && o.ident == IdentOk
  }

  /** Docker's own process, in a mode that acts on the container listed with it. */
  predicate InFrontOf(sys: Sys, opts: PlanOptions, e: EndpointObs, o: OwnerObs) {
    sys.infra(o.name) && opts.mode != NativeOnly && e.containers != []
  }

  lemma UsedExactly(sys: Sys, s: Snapshot, opts: PlanOptions, e: EndpointObs, o: OwnerObs)
    requires o.pid > 0
    ensures OwnVerdict(sys, s, opts, e, o).Use? <==> Plannable(sys, s, opts, o)
    ensures OwnVerdict(sys, s, opts, e, o).Explained? <==> InFrontOf(sys, opts, e, o)
  {
  }

  /** A visible owner of a requested port is planned exactly when it may be signalled,
      and refused exactly when neither that holds nor is it Docker's own process in
      front of a container. */
  lemma OwnerPlannedExactly(sys: Sys, s: Snapshot, opts: PlanOptions, now: int, doc: PlanDoc, port: int, o: OwnerObs)
    requires Observe.Collected(s) && IsPlanOf(sys, s, opts, now, doc)
    requires port in opts.ports && o in Observe.Endpoint(sys, s, port).owners
    ensures OwnerPlanned(doc, port, o) <==> Plannable(sys, s, opts, o)
    ensures OwnerRefused(doc, port, o) <==>
      !Plannable(sys, s, opts, o) && !InFrontOf(sys, opts, Observe.Endpoint(sys, s, port), o)
  {
    OwnerRuled(sys, s, opts, port, o);
    OwnerInDoc(sys, s, opts, now, doc, port, o);
    UsedExactly(sys, s, opts, Observe.Endpoint(sys, s, port), o);
  }

  /** The same for containers. */
  lemma ContainerPlannedExactly(sys: Sys, s: Snapshot, opts: PlanOptions, now: int, doc: PlanDoc, port: int,
                                c: Container)
    requires Observe.Collected(s) && IsPlanOf(sys, s, opts, now, doc)
    requires port in opts.ports && c in Observe.Endpoint(sys, s, port).containers
    ensures ContainerPlanned(doc, port, c) <==> opts.mode != NativeOnly && IsFullContainerId(c.id)
  {
    ContainerAccounting(sys, s, opts, now, doc, port, c);
  }

  // ---- what is planned for it ---------------------------------------------------------

  /** On Windows a process is always terminated, elsewhere it gets the signal asked
      for; a container's grace is the least number of whole seconds that is enough. */
  lemma PlannedActions(sys: Sys, s: Snapshot, opts: PlanOptions, now: int, doc: PlanDoc, r: PlanResource)
    requires Observe.Collected(s) && IsPlanOf(sys, s, opts, now, doc) && r in doc.resources && opts.grace >= 0
    ensures r.provider == DockerProvider || r.provider == NativeProvider
    ensures r.provider == NativeProvider ==>
      && r.action == SignalAction && r.pid in s.idents && r.strength == s.idents[r.pid].strength
      && (r.signal == Terminate <==> sys.os == Windows)
      && (r.signal == Kill <==> sys.os != Windows && opts.force)
      && (r.signal == Term <==> sys.os != Windows && !opts.force)
    ensures r.provider == DockerProvider ==>
      r.action == DockerStop && r.containerId in s.dockerIds && RoundedUp(opts.grace, r.grace)
    ensures RoundedUp(opts.grace, doc.request.grace)
  {
    PlannedIsUsable(sys, s, opts, now, doc, r);
  }

  predicate RoundedUp(nanos: int, seconds: int) {
    (seconds - 1) * SECOND < nanos <= seconds * SECOND
  }

  /** The resource is what is planned for that container, for that owner. */
  predicate OfContainer(r: PlanResource, c: Container) {
    && r.provider == DockerProvider && r.containerId == c.id && r.name == c.name
    && r.signal == NoSignal && r.strength == UnsetStrength
  }

  predicate OfOwner(r: PlanResource, o: OwnerObs) {
    && r.provider == NativeProvider && r.pid == o.pid && r.name == o.name
    && r.start == o.start && r.strength == o.strength && r.containerId == "" && r.grace == 0
  }

  ghost predicate StandsFor(e: EndpointObs, r: PlanResource) {
    (exists c :: c in e.containers && OfContainer(r, c)) || (exists o :: o in e.owners && OfOwner(r, o))
  }

  lemma ContainerStands(mode: Mode, grace: int, c: Container, r: PlanResource)
    requires ContainerVerdict(mode, grace, c).Use? && r == ContainerVerdict(mode, grace, c).r.(ports := r.ports)
    ensures OfContainer(r, c)
  {
  }

  lemma OwnerStands(sys: Sys, s: Snapshot, opts: PlanOptions, e: EndpointObs, o: OwnerObs, r: PlanResource)
    requires OwnVerdict(sys, s, opts, e, o).Use? && r == OwnVerdict(sys, s, opts, e, o).r.(ports := r.ports)
    ensures OfOwner(r, o)
  {
  }

  lemma VerdictStandsFor(sys: Sys, s: Snapshot, opts: PlanOptions, e: EndpointObs, vs: seq<Verdict>, v: Verdict,
                         r: PlanResource)
    requires RulesEach(sys, s, opts, e, vs) && v in vs && v.Use? && r == v.r.(ports := r.ports)
    ensures StandsFor(e, r)
  {
    VerdictOriginOf(sys, s, opts, e, vs, v);
    if OnContainer(opts, e, v) {
      var c :| c in e.containers && v == ContainerVerdict(EffectiveMode(opts.mode), GraceSeconds(opts.grace), c);
      ContainerStands(EffectiveMode(opts.mode), GraceSeconds(opts.grace), c, r);
    } else {
      var o :| o in e.owners && v == OwnVerdict(sys, s, opts, e, o);
      OwnerStands(sys, s, opts, e, o, r);
    }
  }

  /** Every resource is taken, name and all, from an occupant that the observation
      showed on a requested port. */
  lemma PlannedFromOccupant(sys: Sys, s: Snapshot, opts: PlanOptions, now: int, doc: PlanDoc, r: PlanResource)
    requires Observe.Collected(s) && IsPlanOf(sys, s, opts, now, doc) && r in doc.resources
    ensures exists port :: port in opts.ports && StandsFor(Observe.Endpoint(sys, s, port), r)
  {
    PlannedIsBooked(sys, s, opts, now, doc, r);
    var port, v := BookedFrom(Rules(sys, s, opts), opts.ports, r);
    PortFacts(sys, s, opts, port);
    VerdictStandsFor(sys, s, opts, Observe.Endpoint(sys, s, port), Rules(sys, s, opts)(port), v, r);
  }

  lemma BookedFrom(rule: int -> seq<Verdict>, ports: seq<int>, r: PlanResource) returns (port: int, v: Verdict)
    requires r.id in BookAt(rule, ports, |ports|).byId && BookAt(rule, ports, |ports|).byId[r.id] == r
    ensures port in ports && v in rule(port) && v.Use? && r == v.r.(ports := r.ports)
  {
    BookUses(rule, ports, |ports|, r.id);
    assert ports[..|ports|] == ports;
    port, v :| port in ports && v in rule(port) && v.Use? && v.r.id == r.id && r == v.r.(ports := r.ports);
  }

  predicate Ascends(ports: seq<int>, last: int) {
    && (forall i, j | 0 <= i < j < |ports| :: ports[i] <= ports[j])
    && forall i | 0 <= i < |ports| :: ports[i] <= last
  }

  predicate AllAscend(b: Book, last: int) {
    forall id | id in b.byId :: Ascends(b.byId[id].ports, last)
  }

  lemma {:induction false} RecordAscends(b: Book, port: int, vs: seq<Verdict>, n: nat)
    requires n <= |vs| && AllAscend(b, port)
    ensures AllAscend(RecordUpTo(b, port, vs, n), port)
  {
    if n > 0 {
      RecordAscends(b, port, vs, n - 1);
      var before, v := RecordUpTo(b, port, vs, n - 1), vs[n - 1];
      if v.Use? && v.r.id in before.byId { assert Ascends(before.byId[v.r.id].ports + [port], port); }
    }
  }

  lemma {:induction false} BookAscends(rule: int -> seq<Verdict>, ports: seq<int>, n: nat)
    requires n <= |ports| && StrictlyAscending(ports)
    ensures AllAscend(BookAt(rule, ports, n), if n == 0 then 0 else ports[n - 1])
  {
    if n > 0 {
      BookAscends(rule, ports, n - 1);
      RecordAscends(BookAt(rule, ports, n - 1), ports[n - 1], rule(ports[n - 1]), |rule(ports[n - 1])|);
    }
  }

  /** A resource lists its ports in ascending order. */
  lemma PlannedPortsAscend(sys: Sys, s: Snapshot, opts: PlanOptions, now: int, doc: PlanDoc, r: PlanResource,
                           i: nat, j: nat)
    requires IsPlanOf(sys, s, opts, now, doc) && r in doc.resources && StrictlyAscending(opts.ports)
    requires i < j < |r.ports|
    ensures r.ports[i] <= r.ports[j]
  {
    PlannedIsBooked(sys, s, opts, now, doc, r);
    BookAscends(Rules(sys, s, opts), opts.ports, |opts.ports|);
  }

  /** Containers come first, by ID, then processes by PID; refusals come by port, and
      on a port by PID. */
  lemma PlanIsInOrder(sys: Sys, s: Snapshot, opts: PlanOptions, now: int, doc: PlanDoc, i: nat, j: nat)
    requires Observe.Collected(s) && IsPlanOf(sys, s, opts, now, doc) && i < j
    ensures j < |doc.resources| ==>
      var r, q := doc.resources[i], doc.resources[j];
      && (q.provider == DockerProvider ==> r.provider == DockerProvider && Text.Less(r.containerId, q.containerId))
      && (r.provider == NativeProvider ==> q.provider == NativeProvider && r.pid < q.pid)
    ensures j < |doc.refused| ==>
      var x, y := doc.refused[i], doc.refused[j];
      x.port <= y.port && (x.port == y.port ==> x.pid <= y.pid)
  {
    if j < |doc.resources| {
      var r, q := doc.resources[i], doc.resources[j];
      assert r in doc.resources && q in doc.resources && !ResourceLess(q, r) && r != q;
      ResourcesTotal(sys, s, opts, now, doc);
      PlannedIsUsable(sys, s, opts, now, doc, r);
      PlannedIsUsable(sys, s, opts, now, doc, q);
    }
    if j < |doc.refused| { assert !RefusalLess(doc.refused[j], doc.refused[i]); }
  }

  // ---- what an endpoint lists -------------------------------------------------------------

  lemma NotYetRefused(rule: int -> seq<Verdict>, ports: seq<int>, i: nat, x: Refusal)
    requires i < |ports| && StrictlyAscending(ports) && x.port == ports[i]
    ensures x !in BookAt(rule, ports, i).refused
  {
    BookRefusals(rule, ports, i);
    assert forall k | 0 <= k < i :: ports[k] < ports[i];
  }

  lemma EndpointRefusals(sys: Sys, s: Snapshot, opts: PlanOptions, now: int, doc: PlanDoc, i: nat, x: Refusal)
    requires Observe.Collected(s) && IsPlanOf(sys, s, opts, now, doc)
    requires i < |opts.ports| && StrictlyAscending(opts.ports)
    ensures |doc.endpoints| == |opts.ports|
    ensures x in doc.endpoints[i].refused <==> x in doc.refused && x.port == opts.ports[i]
  {
    var rule, ports := Rules(sys, s, opts), opts.ports;
    var vs, b := rule(ports[i]), BookAt(rule, ports, i);
    EndpointDocsAt(Observations(sys, s), rule, ports, |ports|, i);
    RecordRefusal(b, ports[i], vs, |vs|);
    if x.port == ports[i] {
      NotYetRefused(rule, ports, i, x);
      RefusedMeansRuled(sys, s, opts, now, doc, x);
      RefusesIn(vs, ports[i], x);
    } else {
      FreshIsOfPort(b, ports[i], vs, |vs|, x);
    }
  }

  lemma RefusesIn(vs: seq<Verdict>, port: int, x: Refusal)
    ensures Refuses(vs, |vs|, port, x) <==> exists v :: v in vs && v.Refuse? && RefusalOf(port, v) == x
  {
    if j :| 0 <= j < |vs| && vs[j].Refuse? && RefusalOf(port, vs[j]) == x { assert vs[j] in vs; }
  }

  lemma {:induction false} FreshIsOfPort(b: Book, port: int, vs: seq<Verdict>, n: nat, x: Refusal)
    requires n <= |vs| && x.port != port
    ensures x !in Fresh(b, port, vs, n)
  {
    if n > 0 { FreshIsOfPort(b, port, vs, n - 1, x); }
  }

  lemma EndpointIds(sys: Sys, s: Snapshot, opts: PlanOptions, now: int, doc: PlanDoc, i: nat, id: string)
    requires Observe.Collected(s) && IsPlanOf(sys, s, opts, now, doc) && i < |opts.ports|
    ensures |doc.endpoints| == |opts.ports|
    ensures id in doc.endpoints[i].resources <==>
      exists r :: r in doc.resources && r.id == id && opts.ports[i] in r.ports
  {
    var vs := Rules(sys, s, opts)(opts.ports[i]);
    EndpointDocsAt(Observations(sys, s), Rules(sys, s, opts), opts.ports, |opts.ports|, i);
    UseIdsMeans(vs, |vs|);
    UsesIdIn(vs, id);
    PlannedMeansRuled(sys, s, opts, now, doc, opts.ports[i], id);
  }

  predicate SameHead(d: PlanEndpoint, e: EndpointObs) {
    d.protocol == e.protocol && d.port == e.port && d.visibility == e.visibility && d.occupied == e.occupied
  }

  lemma EndpointHead(sys: Sys, s: Snapshot, opts: PlanOptions, now: int, doc: PlanDoc, i: nat)
    requires IsPlanOf(sys, s, opts, now, doc) && i < |opts.ports|
    ensures |doc.endpoints| == |opts.ports| && SameHead(doc.endpoints[i], Observe.Endpoint(sys, s, opts.ports[i]))
    ensures doc.endpoints[i].port == opts.ports[i]
  {
    EndpointDocsAt(Observations(sys, s), Rules(sys, s, opts), opts.ports, |opts.ports|, i);
  }

  /** An endpoint of the document is about its own port: it lists the resources planned
      for that port and the refusals on it, and nothing else. */
  lemma EndpointListsExactly(sys: Sys, s: Snapshot, opts: PlanOptions, now: int, doc: PlanDoc, i: nat)
    requires Observe.Collected(s) && IsPlanOf(sys, s, opts, now, doc)
    requires i < |opts.ports| && StrictlyAscending(opts.ports)
    ensures |doc.endpoints| == |opts.ports| && SameHead(doc.endpoints[i], Observe.Endpoint(sys, s, opts.ports[i]))
    ensures doc.endpoints[i].port == opts.ports[i]
    ensures forall id :: id in doc.endpoints[i].resources <==>
      exists r :: r in doc.resources && r.id == id && opts.ports[i] in r.ports
    ensures forall x :: x in doc.endpoints[i].refused <==> x in doc.refused && x.port == opts.ports[i]
  {
    EndpointHead(sys, s, opts, now, doc, i);
    forall id { EndpointIds(sys, s, opts, now, doc, i, id); }
    forall x { EndpointRefusals(sys, s, opts, now, doc, i, x); }
  }

  // ---- what is accepted could have been planned ------------------------------------------

  ghost predicate PlannableFor(doc: PlanDoc, r: PlanResource, sys: Sys, s: Snapshot, opts: PlanOptions) {
    && sys.os == doc.os && Observe.Collected(s) && OptionsOk(opts) && IdentitiesInRange(s)
    && EffectiveMode(opts.mode) == EffectiveMode(doc.request.mode) && opts.force == doc.request.force
    && (UsableProcess(sys, s, opts, r) || UsableContainer(s, opts, r))
  }

  /** The converse of what every built plan satisfies: validatePlan lets no resource
      through that buildPlan could not have planned from some observation of a machine
      with that OS, under options with that mode and force flag. */
  lemma AcceptedCouldBePlanned(doc: PlanDoc, r: PlanResource)
    requires PlanCheck.ValidPlan(doc) && r in doc.resources
    ensures exists sys, s, opts :: PlannableFor(doc, r, sys, s, opts)
  {
    assert PlanCheck.ResourceOk(doc, r);
    var sys := Sys(doc.os, 0, _ => false);
    var opts := PlanOptions(Tcp, doc.request.mode, [80], doc.request.force, r.grace * SECOND, SECOND);
    if r.provider == DockerProvider {
      var s := Snapshot(doc.os, Tcp, true, {80}, [], None, false, true, None, [], {r.containerId}, map[]);
      assert PlannableFor(doc, r, sys, s, opts);
    } else {
      var o := OwnerObs(r.pid, r.name, r.start, r.strength, IdentOk, None);
      var s := Snapshot(doc.os, Tcp, true, {80}, [], None, false, true, None, [], {}, map[r.pid := o]);
      assert PlannableFor(doc, r, sys, s, opts.(grace := 0));
    }
  }

  /** Options that runPlan accepts, a time, and a request and window made from them. */
  ghost predicate MadeFrom(doc: PlanDoc, opts: PlanOptions, now: int) {
    && OptionsOk(opts)
    && doc.request.protocol == opts.protocol
    && doc.request.scope == (if opts.protocol == Tcp then ListenerScope else BoundScope)
    && EffectiveMode(doc.request.mode) == EffectiveMode(opts.mode) && ParseMode(opts.mode).Some?
    && doc.request.ports == opts.ports && doc.request.force == opts.force
    && doc.request.grace == GraceSeconds(opts.grace)
    && doc.created == FormatTime(now) && doc.expires == FormatTime(now + opts.ttl)
  }

  /** And no request or window that no accepted options could have made. */
  lemma AcceptedRequestCouldBeMade(doc: PlanDoc)
    requires PlanCheck.ValidPlan(doc)
    ensures exists opts, now :: MadeFrom(doc, opts, now)
  {
    var q, lasts := doc.request, doc.expires.value - doc.created.value;
    var opts := PlanOptions(q.protocol, q.mode, q.ports, q.force, q.grace * SECOND,
                            if lasts == 0 then 1 else lasts * SECOND);
    assert MadeFrom(doc, opts, doc.created.value * SECOND);
  }

  // ---- why the others are refused -------------------------------------------------------

  /** The owner is neither Docker's nor outside the mode, and its PID is not protected. */
  predicate MayBeActedOn(sys: Sys, opts: PlanOptions, o: OwnerObs) {
    && !sys.infra(o.name) && opts.mode != ContainerOnly
    && o.pid > 1 && o.pid != sys.self && !(sys.os == Windows && o.pid == 4)
  }

  /** What each reason for refusing a visible owner means. */
  predicate ReasonFits(sys: Sys, s: Snapshot, opts: PlanOptions, o: OwnerObs, why: Reason) {
    var named := o.name != "" || !s.namesUnavailable;
    match why.kind
    case PublishedByContainer => sys.infra(o.name) && opts.mode == NativeOnly
    case HeldByInfra => sys.infra(o.name) && opts.mode != NativeOnly && s.dockerErr.None? && s.dockerAvail
    case HeldByInfraDockerFailed => sys.infra(o.name) && opts.mode != NativeOnly && s.dockerErr == Some(why.detail)
    case HeldByInfraNoDocker => sys.infra(o.name) && opts.mode != NativeOnly && s.dockerErr.None? && !s.dockerAvail
    case OwnedByNative => !sys.infra(o.name) && opts.mode == ContainerOnly
    case ProtectedPid(LowPid) => o.pid == 1
    case ProtectedPid(Itself) => o.pid == sys.self && o.pid != 1
    case ProtectedPid(WindowsKernel) => sys.os == Windows && o.pid == 4 && o.pid != sys.self
    case NoProcessName => MayBeActedOn(sys, opts, o) && !named
    case IdentityDenied =>
      MayBeActedOn(sys, opts, o) && named && o.ident == IdentDenied && why.detail == ErrorText(o.err)
    case IdentityMissing => MayBeActedOn(sys, opts, o) && named && o.ident !in {IdentOk, IdentDenied}
    case _ => false
  }

  lemma OwnReasonFits(sys: Sys, s: Snapshot, opts: PlanOptions, e: EndpointObs, o: OwnerObs)
    requires o.pid > 0 && OwnVerdict(sys, s, opts, e, o).Refuse?
    ensures
      var v := OwnVerdict(sys, s, opts, e, o);
      v.pid == o.pid && v.name == o.name && ReasonFits(sys, s, opts, o, v.reason)
  {
  }

  /** A refusal that names a visible owner says why that one may not be signalled. */
  lemma RefusalSaysWhy(sys: Sys, s: Snapshot, opts: PlanOptions, now: int, doc: PlanDoc, x: Refusal, o: OwnerObs)
    requires Observe.Collected(s) && IsPlanOf(sys, s, opts, now, doc) && x in doc.refused && x.port in opts.ports
    requires o in Observe.Endpoint(sys, s, x.port).owners && x.pid == o.pid
    ensures x.name == o.name && ReasonFits(sys, s, opts, o, x.reason)
  {
    var e, vs := Observe.Endpoint(sys, s, x.port), Rules(sys, s, opts)(x.port);
    RefusedMeansRuled(sys, s, opts, now, doc, x);
    var v :| v in vs && v.Refuse? && RefusalOf(x.port, v) == x;
    PortFacts(sys, s, opts, x.port);
    OwnerVerdictIsOwn(sys, s, opts, e, vs, o, v);
    OwnReasonFits(sys, s, opts, e, o);
  }

  function HiddenRefusal(port: int): Refusal {
    Refusal(port, 0, "", Reason(OwnerHidden, ""))
  }

  /** An owner that is not visible is refused under PID 0, and nothing else is refused
      for that reason. */
  lemma HiddenIsRefused(sys: Sys, s: Snapshot, opts: PlanOptions, now: int, doc: PlanDoc, port: int)
    requires Observe.Collected(s) && IsPlanOf(sys, s, opts, now, doc) && port in opts.ports
    ensures HiddenRefusal(port) in doc.refused <==> Observe.Endpoint(sys, s, port).hidden
    ensures forall x | x in doc.refused && x.port == port && x.reason.kind == OwnerHidden :: x == HiddenRefusal(port)
  {
    var e, vs := Observe.Endpoint(sys, s, port), Rules(sys, s, opts)(port);
    PortFacts(sys, s, opts, port);
    forall x: Refusal | x.port == port && x.reason.kind == OwnerHidden
      ensures x in doc.refused <==> x == HiddenRefusal(port) && e.hidden
    {
      RefusedMeansRuled(sys, s, opts, now, doc, x);
      if v :| v in vs && v.Refuse? && RefusalOf(port, v) == x { HiddenVerdict(sys, s, opts, e, vs, v); }
      if e.hidden { VerdictOriginOf(sys, s, opts, e, vs, Refuse(0, "", Reason(OwnerHidden, ""))); }
    }
  }

  lemma HiddenVerdict(sys: Sys, s: Snapshot, opts: PlanOptions, e: EndpointObs, vs: seq<Verdict>, v: Verdict)
    requires OwnersKnown(s, e) && RulesEach(sys, s, opts, e, vs) && v in vs && v.Refuse? && v.reason.kind == OwnerHidden
    ensures v == Refuse(0, "", Reason(OwnerHidden, "")) && e.hidden
  {
    VerdictOriginOf(sys, s, opts, e, vs, v);
  }

  // ---- what the class of a plan says ------------------------------------------------------

  predicate Fails(e: PlanEndpoint) {
    e.visibility == ProviderUnavailable || (e.occupied && e.resources == [])
  }

  predicate Doubtful(e: PlanEndpoint) {
    e.visibility == PermissionLimited || e.visibility == NoneVisible
  }

  lemma EndpointClassMeans(e: PlanEndpoint)
    ensures Failed in EndpointClass(e) <==> Fails(e)
    ensures Uncertain in EndpointClass(e) <==> Doubtful(e)
    ensures forall x | x in EndpointClass(e) :: x in {Failed, Uncertain}
  {
  }

  lemma {:induction false} ClassesMean(es: seq<PlanEndpoint>)
    ensures Failed in EndpointClasses(es) <==> exists e :: e in es && Fails(e)
    ensures Uncertain in EndpointClasses(es) <==> exists e :: e in es && Doubtful(e)
    ensures forall x | x in EndpointClasses(es) :: x in {Failed, Uncertain}
  {
    if es != [] {
      var u, d := es[..|es| - 1], es[|es| - 1];
      ClassesMean(u);
      EndpointClassMeans(d);
      assert es == u + [d];
      assert d in es;
    }
  }

  /** planClass, as the exit classes are documented: failed for any refusal, any failed
      provider and any occupied endpoint without a resource, else uncertain for
      limited or missing visibility, else ok; never another class. */
  lemma PlanClassMeans(code: Exit, es: seq<PlanEndpoint>, refused: seq<Refusal>)
    requires IsPlanClass(code, es, refused)
    ensures code == Failed <==> refused != [] || exists e :: e in es && Fails(e)
    ensures code == Uncertain <==>
      refused == [] && (forall e | e in es :: !Fails(e)) && exists e :: e in es && Doubtful(e)
    ensures code == OK <==> refused == [] && forall e | e in es :: !Fails(e) && !Doubtful(e)
    ensures code in {OK, Failed, Uncertain}
  {
    ClassesMean(es);
    var raised := EndpointClasses(es) + if refused != [] then [Failed] else [];
    PrecedenceMeans(code, raised);
  }

  /** Some requested port has that visibility. */
  ghost predicate Seen(sys: Sys, s: Snapshot, ports: seq<int>, v: Visibility) {
    exists p :: p in ports && Observe.Endpoint(sys, s, p).visibility == v
  }

  /** What endpoint() guarantees about somebody who is not accounted for. */
  ghost predicate Unaccounted(sys: Sys, e: EndpointObs) {
    && (e.visibility == PermissionLimited ==> e.unattributed)
    && (e.unattributed ==>
      e.hidden || exists o :: o in e.owners && Observe.DeniedActionable(sys, o, e.containers != []))
    && (e.occupied ==> e.hidden || e.containers != [] || e.owners != [])
  }

  lemma EndpointAccounts(sys: Sys, s: Snapshot, port: int)
    ensures Unaccounted(sys, Observe.Endpoint(sys, s, port))
  {
  }

  /** An endpoint that is only partly visible has an occupant that is refused. */
  lemma LimitedIsRefused(sys: Sys, s: Snapshot, opts: PlanOptions, e: EndpointObs, vs: seq<Verdict>)
    requires RulesEach(sys, s, opts, e, vs) && Unaccounted(sys, e) && e.unattributed
    ensures exists v :: v in vs && v.Refuse?
  {
    if e.hidden {
      VerdictOriginOf(sys, s, opts, e, vs, Refuse(0, "", Reason(OwnerHidden, "")));
    } else {
      var o :| o in e.owners && Observe.DeniedActionable(sys, o, e.containers != []);
      OwnerIsRuled(sys, s, opts, e, vs, OwnVerdict(sys, s, opts, e, o));
    }
  }

  /** On one port without a refusal: its endpoint is not limited, and has a resource if
      anybody is there. */
  lemma UnrefusedPort(sys: Sys, s: Snapshot, opts: PlanOptions, e: EndpointObs, vs: seq<Verdict>, d: PlanEndpoint)
    requires RulesEach(sys, s, opts, e, vs) && NoRefusal(vs) && Unaccounted(sys, e)
    requires d.visibility == e.visibility && d.occupied == e.occupied && d.resources == UseIds(vs, |vs|)
    ensures d.visibility != PermissionLimited && (d.occupied ==> d.resources != [])
  {
    if e.unattributed { LimitedIsRefused(sys, s, opts, e, vs); }
    CleanPort(sys, s, opts, e, vs);
    UseIdsMeans(vs, |vs|);
    if e.containers != [] {
      assert e.containers[0] in e.containers && vs[0].Use?;
      assert UsesId(vs, |vs|, vs[0].r.id);
    } else if e.owners != [] {
      var o := e.owners[0];
      assert o in e.owners && vs[|e.containers| + 0] == OwnVerdict(sys, s, opts, e, o);
      OwnerVerdictShape(sys, s, opts, e, o);
      assert UsesId(vs, |vs|, vs[0].r.id);
    }
  }

  lemma EndpointInDoc(sys: Sys, s: Snapshot, opts: PlanOptions, doc: PlanDoc, i: nat)
    requires Observe.Collected(s) && i < |opts.ports|
    requires doc.endpoints == EndpointDocs(Observations(sys, s), Rules(sys, s, opts), opts.ports, |opts.ports|)
    ensures doc.endpoints[i].visibility == Observe.Endpoint(sys, s, opts.ports[i]).visibility
    ensures NoRefusal(Rules(sys, s, opts)(opts.ports[i])) ==>
      doc.endpoints[i].visibility != PermissionLimited &&
        (doc.endpoints[i].occupied ==> doc.endpoints[i].resources != [])
  {
    var e, vs := Observe.Endpoint(sys, s, opts.ports[i]), Rules(sys, s, opts)(opts.ports[i]);
    PortFacts(sys, s, opts, opts.ports[i]);
    EndpointAccounts(sys, s, opts.ports[i]);
    EndpointDocsAt(Observations(sys, s), Rules(sys, s, opts), opts.ports, |opts.ports|, i);
    if NoRefusal(vs) { UnrefusedPort(sys, s, opts, e, vs, doc.endpoints[i]); }
  }

  /** The endpoints of a document, as far as its class depends on them. */
  ghost predicate Mirrors(sys: Sys, s: Snapshot, es: seq<PlanEndpoint>, ports: seq<int>, unrefused: bool) {
    && |es| == |ports|
    && (forall i | 0 <= i < |es| :: es[i].visibility == Observe.Endpoint(sys, s, ports[i]).visibility)
    && (unrefused ==> forall i | 0 <= i < |es| ::
          es[i].visibility != PermissionLimited && (es[i].occupied ==> es[i].resources != []))
  }

  lemma DocMirrors(sys: Sys, s: Snapshot, opts: PlanOptions, now: int, doc: PlanDoc)
    requires Observe.Collected(s) && IsPlanOf(sys, s, opts, now, doc)
    ensures Mirrors(sys, s, doc.endpoints, opts.ports, doc.refused == [])
  {
    NothingRefused(sys, s, opts, now, doc);
    assert |doc.endpoints| == |opts.ports|;
    forall i | 0 <= i < |opts.ports|
      ensures doc.endpoints[i].visibility == Observe.Endpoint(sys, s, opts.ports[i]).visibility
      ensures doc.refused == [] ==>
        doc.endpoints[i].visibility != PermissionLimited &&
          (doc.endpoints[i].occupied ==> doc.endpoints[i].resources != [])
    {
      EndpointInDoc(sys, s, opts, doc, i);
    }
  }

  lemma SeenInDoc(sys: Sys, s: Snapshot, es: seq<PlanEndpoint>, ports: seq<int>, unrefused: bool, v: Visibility)
    requires Mirrors(sys, s, es, ports, unrefused)
    ensures (exists e :: e in es && e.visibility == v) <==> Seen(sys, s, ports, v)
  {
    if e :| e in es && e.visibility == v {
      var i :| 0 <= i < |es| && es[i] == e;
      assert ports[i] in ports;
    }
    if p :| p in ports && Observe.Endpoint(sys, s, p).visibility == v {
      var i :| 0 <= i < |ports| && ports[i] == p;
      assert es[i] in es;
    }
  }

  lemma MirroredClass(sys: Sys, s: Snapshot, es: seq<PlanEndpoint>, ports: seq<int>, unrefused: bool)
    requires Mirrors(sys, s, es, ports, unrefused)
    ensures unrefused ==> ((exists e :: e in es && Fails(e)) <==> Seen(sys, s, ports, ProviderUnavailable))
    ensures unrefused ==> ((exists e :: e in es && Doubtful(e)) <==> Seen(sys, s, ports, NoneVisible))
    ensures unrefused ==> !Seen(sys, s, ports, PermissionLimited)
    ensures Seen(sys, s, ports, ProviderUnavailable) ==> exists e :: e in es && Fails(e)
  {
    SeenInDoc(sys, s, es, ports, unrefused, ProviderUnavailable);
    SeenInDoc(sys, s, es, ports, unrefused, NoneVisible);
    SeenInDoc(sys, s, es, ports, unrefused, PermissionLimited);
  }

  /** The class of a plan, from the observation and the refusals alone: an endpoint
      with limited visibility always comes with a refusal, so uncertain only ever
      comes from endpoints of which nothing was visible, and the branch for an
      occupied endpoint without a resource never decides. */
  lemma PlanClassExactly(sys: Sys, s: Snapshot, opts: PlanOptions, now: int, doc: PlanDoc)
    requires Observe.Collected(s) && IsPlanOf(sys, s, opts, now, doc)
    ensures doc.exitClass == Failed <==> doc.refused != [] || Seen(sys, s, opts.ports, ProviderUnavailable)
    ensures doc.exitClass == Uncertain <==>
      doc.refused == [] && !Seen(sys, s, opts.ports, ProviderUnavailable) && Seen(sys, s, opts.ports, NoneVisible)
    ensures doc.exitClass in {OK, Failed, Uncertain}
    ensures Seen(sys, s, opts.ports, PermissionLimited) ==> doc.refused != [] && doc.exitClass == Failed
  {
    PlanClassMeans(doc.exitClass, doc.endpoints, doc.refused);
    DocMirrors(sys, s, opts, now, doc);
    MirroredClass(sys, s, doc.endpoints, opts.ports, doc.refused == []);
  }
}
