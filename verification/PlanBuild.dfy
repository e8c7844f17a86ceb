/** internal/cli/plan.go: buildPlan and planClass as the program runs them. */
module PlanBuild {
  import opened Domain
  import opened ExitClass
  import opened Plan
  import opened Sorting
  import Observe

  /** The plan under construction: what the closures `use` and `refuse` append to. */
  class Draft {
    var byId: map<string, PlanResource>
    var seen: set<Refusal>
    var refused: seq<Refusal>
    var portResources: seq<string>
    var portRefused: seq<Refusal>

    function Value(): Book
      reads this
    {
      Book(byId, refused)
    }

    ghost predicate Valid()
      reads this
    {
      seen == (set x | x in refused)
    }

    constructor ()
      ensures Valid() && Value() == Book(map[], [])
    {
      byId, seen, refused := map[], {}, [];
      portResources, portRefused := [], [];
    }

    method StartPort()
      requires Valid()
      modifies this
      ensures Valid() && Value() == old(Value()) && portResources == [] && portRefused == []
    {
      portResources, portRefused := [], [];
    }

    method Apply(port: int, v: Verdict)
      requires Valid()
      modifies this
      ensures Valid() && Value() == Record(old(Value()), port, v)
      ensures portResources == old(portResources) + if v.Use? then [v.r.id] else []
      ensures portRefused == old(portRefused) +
        if v.Refuse? && RefusalOf(port, v) !in old(refused) then [RefusalOf(port, v)] else []
    {
      match v
      case Use(r) =>
        if r.id in byId {
          byId := byId[r.id := byId[r.id].(ports := byId[r.id].ports + [port])];
        } else {
          byId := byId[r.id := r.(ports := [port])];
        }
        portResources := portResources + [r.id];
      case Refuse(pid, name, reason) =>
        var rf := Refusal(port, pid, name, reason);
        if rf !in seen {
          seen := seen + {rf};
          portRefused := portRefused + [rf];
          refused := refused + [rf];
        }
      case Explained =>
    }

    /** The first n verdicts of a port have been applied to book b. */
    ghost predicate Applied(b: Book, port: int, vs: seq<Verdict>, n: nat)
      reads this
      requires n <= |vs|
    {
      && Valid() && Value() == RecordUpTo(b, port, vs, n)
      && portResources == UseIds(vs, n) && portRefused == Fresh(b, port, vs, n)
    }
  }

  method RuleContainers(mode: Mode, grace: int, port: int, cs: seq<Container>, d: Draft, ghost b: Book,
                        ghost vs: seq<Verdict>)
    requires |cs| <= |vs| && forall n | 0 <= n < |cs| :: vs[n] == ContainerVerdict(mode, grace, cs[n])
    requires d.Applied(b, port, vs, 0)
    modifies d
    ensures d.Applied(b, port, vs, |cs|)
  {
    for n := 0 to |cs|
      invariant d.Applied(b, port, vs, n)
    {
      d.Apply(port, ContainerVerdict(mode, grace, cs[n]));
    }
  }

  method RuleOwners(sys: Sys, s: Snapshot, mode: Mode, signal: Signal, containers: bool, port: int,
                    owners: seq<OwnerObs>,
                    d: Draft, ghost b: Book, ghost vs: seq<Verdict>, ghost from: nat)
    requires from + |owners| <= |vs|
    requires forall n | 0 <= n < |owners| :: vs[from + n] == OwnerVerdict(sys, s, mode, signal, containers, owners[n])
    requires d.Applied(b, port, vs, from)
    modifies d
    ensures d.Applied(b, port, vs, from + |owners|)
  {
    for n := 0 to |owners|
      invariant d.Applied(b, port, vs, from + n)
    {
      d.Apply(port, OwnerVerdict(sys, s, mode, signal, containers, owners[n]));
    }
  }

  /** One port's occupants: its containers, its owners, and the hidden one. */
  method RulePort(sys: Sys, s: Snapshot, opts: PlanOptions, e: EndpointObs, d: Draft, ghost b: Book,
                  ghost vs: seq<Verdict>)
    requires RulesEach(sys, s, opts, e, vs) && d.Applied(b, e.port, vs, 0)
    modifies d
    ensures d.Applied(b, e.port, vs, |vs|)
  {
    var mode := EffectiveMode(opts.mode);
    var signal := PlanSignal(sys.os, opts.force);
    RuleContainers(mode, GraceSeconds(opts.grace), e.port, e.containers, d, b, vs);
    RuleOwners(sys, s, mode, signal, e.containers != [], e.port, e.owners, d, b, vs, |e.containers|);
    if e.hidden {
      d.Apply(e.port, Refuse(0, "", Reason(OwnerHidden, "")));
    }
  }

  method PlanPort(sys: Sys, s: Snapshot, opts: PlanOptions, port: int, d: Draft) returns (pe: PlanEndpoint)
    requires Observe.Collected(s) && d.Valid()
    modifies d
    ensures
      var vs := Rules(sys, s, opts)(port);
      && pe == DocOf(Observations(sys, s)(port), vs, old(d.Value()))
      && d.Valid() && d.Value() == RecordUpTo(old(d.Value()), port, vs, |vs|)
  {
    d.StartPort();
    ghost var b := d.Value();
    var e := Observe.ProjectEndpoint(sys, s, port);
    VerdictsEach(sys, s, opts, e);
    RulePort(sys, s, opts, e, d, b, VerdictsOn(sys, s, opts, e));
    pe := PlanEndpoint(e.protocol, e.port, e.visibility, e.occupied, d.portResources, d.portRefused);
  }

  /** Ranging over a Go map visits every entry once, in no particular order. */
  method Values(byId: map<string, PlanResource>) returns (rs: seq<PlanResource>)
    requires forall id | id in byId :: byId[id].id == id
    ensures NoDuplicates(rs) && forall r :: r in rs <==> r in byId.Values
  {
    rs := [];
    var left := byId.Keys;
    while left != {}
      invariant left <= byId.Keys && NoDuplicates(rs)
      invariant forall r :: r in rs <==> r.id in byId && r.id !in left && byId[r.id] == r
      decreases left
    {
      var id := Pick(left);
      rs := rs + [byId[id]];
      left := left - {id};
    }
  }

  method PlanClass(endpoints: seq<PlanEndpoint>, refused: seq<Refusal>) returns (code: Exit)
    ensures IsPlanClass(code, endpoints, refused)
  {
    code := OK;
    for n := 0 to |endpoints|
      invariant IsWorst(code, EndpointClasses(endpoints[..n]))
    {
      var e := endpoints[n];
      assert endpoints[..n + 1][..n] == endpoints[..n];
      ghost var raised := EndpointClasses(endpoints[..n]);
      match e.visibility {
        case ProviderUnavailable => code := Worse(code, Failed);
        case PermissionLimited => code := Worse(code, Uncertain);
        case NoneVisible => code := Worse(code, Uncertain);
        case Complete =>
      }
      ghost var byVisibility := EndpointClass(e.(occupied := false));
      assert IsWorst(code, raised + byVisibility);
      if e.occupied && |e.resources| == 0 {
        code := Worse(code, Failed);
      }
      assert IsWorst(code, raised + EndpointClass(e));
      assert EndpointClasses(endpoints[..n + 1]) == raised + EndpointClass(e) by { assert endpoints[..n + 1][n] == e; }
    }
    assert endpoints[..|endpoints|] == endpoints;
    if |refused| > 0 {
      code := Worse(code, Failed);
    }
  }

  /** The final lists: sorted, and independent of the order the map was walked in. */
  method SortedLists(d: Draft, ghost rule: int -> seq<Verdict>, ghost ports: seq<int>)
    returns (resources: seq<PlanResource>, refused: seq<Refusal>)
    requires d.Value() == BookAt(rule, ports, |ports|)
    ensures Ordered(ResourceLess, resources) && NoDuplicates(resources)
    ensures forall r :: r in resources <==> r in d.byId.Values
    ensures Ordered(RefusalLess, refused) && NoDuplicates(refused)
    ensures forall x :: x in refused <==> x in d.refused
  {
    forall id | id in d.byId ensures d.byId[id].id == id { BookUses(rule, ports, |ports|, id); }
    var values := Values(d.byId);
    ResourceOrder(values);
    resources := Sort(values, ResourceLess);
    MultisetMembers(resources, values);
    PermutationKeepsDistinct(values, resources);
    BookRefusals(rule, ports, |ports|);
    RefusalOrder(d.refused);
    refused := Sort(d.refused, RefusalLess);
    MultisetMembers(refused, d.refused);
    PermutationKeepsDistinct(d.refused, refused);
  }

  /** The first i ports have been planned. */
  ghost predicate PortsPlanned(d: Draft, endpoints: seq<PlanEndpoint>, obs: int -> EndpointObs,
                               rule: int -> seq<Verdict>,
                               ports: seq<int>, i: nat)
    reads d
    requires i <= |ports|
  {
    && d.Valid() && d.Value() == BookAt(rule, ports, i)
    && endpoints == EndpointDocs(obs, rule, ports, i)
  }

  method PlanPorts(sys: Sys, s: Snapshot, opts: PlanOptions, d: Draft) returns (endpoints: seq<PlanEndpoint>)
    requires Observe.Collected(s) && d.Valid() && d.Value() == Book(map[], [])
    modifies d
    ensures PortsPlanned(d, endpoints, Observations(sys, s), Rules(sys, s, opts), opts.ports, |opts.ports|)
  {
    endpoints := [];
    ghost var obs, rule := Observations(sys, s), Rules(sys, s, opts);
    var i := 0;
    while i < |opts.ports|
      invariant i <= |opts.ports| && PortsPlanned(d, endpoints, obs, rule, opts.ports, i)
    {
      var pe := PlanPort(sys, s, opts, opts.ports[i], d);
      BookStep(obs, rule, opts.ports, i);
      endpoints := endpoints + [pe];
      i := i + 1;
    }
  }

  lemma BookStep(obs: int -> EndpointObs, rule: int -> seq<Verdict>, ports: seq<int>, i: nat)
    requires i < |ports|
    ensures BookAt(rule, ports, i + 1) == RecordUpTo(BookAt(rule, ports, i), ports[i], rule(ports[i]), |rule(ports[i])|)
    ensures EndpointDocs(obs, rule, ports, i + 1)
            == EndpointDocs(obs, rule, ports, i) + [DocOf(obs(ports[i]), rule(ports[i]), BookAt(rule, ports, i))]
  {
  }

  method BuildPlan(sys: Sys, s: Snapshot, opts: PlanOptions, now: int) returns (doc: PlanDoc)
    requires Observe.Collected(s)
    ensures IsPlanOf(sys, s, opts, now, doc)
  {
    var d := new Draft();
    var endpoints := PlanPorts(sys, s, opts, d);
    var resources, refused := SortedLists(d, Rules(sys, s, opts), opts.ports);
    var code := PlanClass(endpoints, refused);
    doc := PlanDoc(sys.os, FormatTime(now), FormatTime(now + opts.ttl),
      PlanRequest(opts.protocol, ScopeFor(opts.protocol), EffectiveMode(opts.mode), opts.ports, opts.force,
                  GraceSeconds(opts.grace)),
      endpoints, resources, refused, code);
  }
}
