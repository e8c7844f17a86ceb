/** internal/cli/apply.go: judging the outcome of an apply. */
module Outcome {
  import opened Domain
  import opened Plan
  import Observe

  // ---- the result document -------------------------------------------------

  datatype ResultKind =
    | NotAttempted | IdentityChanged | SignalSent | Stopped | PermissionDenied | TimeoutUnknown | ActionFailed

  datatype ApplyResource = ApplyResource(
    id: string, provider: Provider, pid: int, containerId: string, ports: seq<int>,
    result: ResultKind, verifiedGone: bool, forced: bool)

  function NewResult(r: PlanResource, k: ResultKind): ApplyResource {
    ApplyResource(r.id, r.provider, r.pid, r.containerId, r.ports, k, false, false)
  }

  datatype Status = Free | BlockedOriginal | BlockedNewOwner | BlockedRefused | NotVerifiable

  datatype Holder = Holder(pid: int, containerId: string, name: string)

  datatype ApplyEndpoint = ApplyEndpoint(
    protocol: Protocol, port: int, status: Status, visibility: Visibility, holders: seq<Holder>)

  // ---- what a plan says about an occupant --------------------------------------

  datatype Ref = Ref(start: string, unsure: bool)

  predicate Unsure(results: seq<ResultKind>, i: nat) {
    i < |results| && results[i] == TimeoutUnknown
  }

  /** The last process resource naming this PID on this port, as the map keeps it. */
  function ProcRef(rs: seq<PlanResource>, results: seq<ResultKind>, n: nat, port: int, pid: int): Option<Ref>
    requires n <= |rs|
  {
    if n == 0 then None
    else if rs[n - 1].provider != DockerProvider && port in rs[n - 1].ports && rs[n - 1].pid == pid then
      Some(Ref(rs[n - 1].start, Unsure(results, n - 1)))
    else ProcRef(rs, results, n - 1, port, pid)
  }

  function ContRef(rs: seq<PlanResource>, results: seq<ResultKind>, n: nat, port: int, id: string): Option<Ref>
    requires n <= |rs|
  {
    if n == 0 then None
    else if rs[n - 1].provider == DockerProvider && port in rs[n - 1].ports && rs[n - 1].containerId == id then
      Some(Ref("", Unsure(results, n - 1)))
    else ContRef(rs, results, n - 1, port, id)
  }

  predicate RefusedPid(refused: seq<Refusal>, port: int, pid: int) {
    exists x :: x in refused && x.port == port && x.pid > 0 && x.pid == pid
  }

  predicate RefusedName(refused: seq<Refusal>, port: int, name: string) {
    exists x :: x in refused && x.port == port && x.pid <= 0 && x.name != "" && x.name == name
  }

  predicate RefusedHidden(refused: seq<Refusal>, port: int) {
    exists x :: x in refused && x.port == port && x.pid <= 0 && x.name == ""
  }

  // ---- the status of one endpoint ------------------------------------------------

  datatype Judgement = Original | Refused | Other | Unknown | Proxy

  function JudgeOwner(sys: Sys, refused: bool, ref: Option<Ref>, containers: bool, dockerFailed: bool,
                      o: OwnerObs): Judgement
  {
    if refused then Refused
    else if sys.infra(o.name) && containers then Proxy
    else if sys.infra(o.name) && dockerFailed then Unknown
    else if o.ident != IdentOk then Unknown
    else if ref.Some? && ref.value.start == o.start then Original
    else Other
  }

  function JudgeContainer(refused: bool, ref: Option<Ref>): Judgement {
    if refused && ref.None? then Refused
    else if ref.Some? && ref.value.unsure then Unknown
    else if ref.Some? then Original
    else Other
  }

  function OwnerJudgement(sys: Sys, doc: PlanDoc, results: seq<ResultKind>, s: Snapshot, e: EndpointObs,
                          o: OwnerObs): Judgement
  {
    JudgeOwner(sys, RefusedPid(doc.refused, e.port, o.pid),
      ProcRef(doc.resources, results, |doc.resources|, e.port, o.pid), e.containers != [], s.dockerErr.Some?, o)
  }

  function ContainerJudgement(doc: PlanDoc, results: seq<ResultKind>, e: EndpointObs, c: Container): Judgement {
    JudgeContainer(RefusedName(doc.refused, e.port, c.name),
      ContRef(doc.resources, results, |doc.resources|, e.port, c.id))
  }

  /** Some occupant of the endpoint was judged j. */
  ghost predicate Judged(sys: Sys, doc: PlanDoc, results: seq<ResultKind>, s: Snapshot, e: EndpointObs, j: Judgement) {
    || (exists o :: o in e.owners && OwnerJudgement(sys, doc, results, s, e, o) == j)
    || (exists c :: c in e.containers && ContainerJudgement(doc, results, e, c) == j)
    || (j == Refused && e.hidden && RefusedHidden(doc.refused, e.port))
  }

  function StatusBy(original: bool, refused: bool, other: bool, unknown: bool, complete: bool, occupied: bool): Status {
    if original then BlockedOriginal
    else if refused then BlockedRefused
    else if other then BlockedNewOwner
    else if unknown || !complete then NotVerifiable
    else if !occupied then Free
    else BlockedNewOwner
  }

  ghost function StatusOf(sys: Sys, doc: PlanDoc, results: seq<ResultKind>, s: Snapshot, e: EndpointObs): Status {
    StatusBy(Judged(sys, doc, results, s, e, Original), Judged(sys, doc, results, s, e, Refused),
      Judged(sys, doc, results, s, e, Other), Judged(sys, doc, results, s, e, Unknown),
      e.visibility == Complete, e.occupied)
  }

  function HoldersOf(e: EndpointObs): seq<Holder> {
    seq(|e.owners|, i requires 0 <= i < |e.owners| => Holder(e.owners[i].pid, "", e.owners[i].name))
    + seq(|e.containers|, i requires 0 <= i < |e.containers| => Holder(0, e.containers[i].id, e.containers[i].name))
  }

  ghost function Report(sys: Sys, doc: PlanDoc, results: seq<ResultKind>, s: Snapshot, port: int): ApplyEndpoint {
    var e := Observe.Endpoint(sys, s, port);
    ApplyEndpoint(e.protocol, port, StatusOf(sys, doc, results, s, e), e.visibility, HoldersOf(e))
  }

  ghost function Reports(sys: Sys, doc: PlanDoc, results: seq<ResultKind>, s: Snapshot, n: nat): (r: seq<ApplyEndpoint>)
    requires n <= |doc.request.ports|
    ensures |r| == n
  {
    if n == 0 then [] else
      Reports(sys, doc, results, s, n - 1) + [Report(sys, doc, results, s, doc.request.ports[n - 1])]
  }

  // ---- properties of the status -----------------------------------------------------

  /** What endpoint() guarantees about every observation it returns. */
  predicate Coherent(e: EndpointObs) {
    && (e.visibility == Complete ==> !e.hidden)
    && (e.occupied && !e.hidden ==> e.owners != [] || e.containers != [])
    && (e.owners != [] || e.containers != [] ==> e.occupied)
  }

  lemma EndpointCoherent(sys: Sys, s: Snapshot, port: int)
    ensures Coherent(Observe.Endpoint(sys, s, port))
  {
  }

  lemma SomeoneIsJudged(sys: Sys, doc: PlanDoc, results: seq<ResultKind>, s: Snapshot, e: EndpointObs)
    requires e.owners != [] || e.containers != []
    ensures Judged(sys, doc, results, s, e, Original) || Judged(sys, doc, results, s, e, Refused)
            || Judged(sys, doc, results, s, e, Other) || Judged(sys, doc, results, s, e, Unknown)
  {
    if e.containers != [] {
      var c := e.containers[0];
      assert c in e.containers;
      assert Judged(sys, doc, results, s, e, ContainerJudgement(doc, results, e, c));
    } else {
      var o := e.owners[0];
      assert o in e.owners;
      assert Judged(sys, doc, results, s, e, OwnerJudgement(sys, doc, results, s, e, o));
    }
  }

  /** The last branch of classify is dead: an occupied endpoint of complete
      visibility always has an occupant that raised one of the four flags. */
  lemma DefaultNeverTaken(sys: Sys, doc: PlanDoc, results: seq<ResultKind>, s: Snapshot, port: int)
    ensures
      var e := Observe.Endpoint(sys, s, port);
      e.visibility == Complete && e.occupied ==>
        Judged(sys, doc, results, s, e, Original) || Judged(sys, doc, results, s, e, Refused)
        || Judged(sys, doc, results, s, e, Other) || Judged(sys, doc, results, s, e, Unknown)
  {
    EndpointCoherent(sys, s, port);
    StatusCases(sys, doc, results, s, Observe.Endpoint(sys, s, port));
  }

  /** What each status means on a coherent observation: the worst judgement on an
      occupant decides, and without one the status is free or not verifiable. */
  lemma StatusCases(sys: Sys, doc: PlanDoc, results: seq<ResultKind>, s: Snapshot, e: EndpointObs)
    requires Coherent(e)
    ensures
      var status := StatusOf(sys, doc, results, s, e);
      var original, refused := Judged(sys, doc, results, s, e, Original), Judged(sys, doc, results, s, e, Refused);
      var other, unknown := Judged(sys, doc, results, s, e, Other), Judged(sys, doc, results, s, e, Unknown);
      && (status == BlockedOriginal <==> original)
      && (status == BlockedRefused <==> refused && !original)
      && (status == BlockedNewOwner <==> other && !original && !refused)
      && (status == NotVerifiable <==> !original && !refused && !other && (unknown || e.visibility != Complete))
      && (status == Free <==> e.visibility == Complete && !e.occupied)
      && (e.visibility == Complete && e.occupied ==> original || refused || other || unknown)
  {
    if e.owners != [] || e.containers != [] {
      SomeoneIsJudged(sys, doc, results, s, e);
    }
  }

  /** An endpoint is reported free exactly when every source was read and none of
      them names anybody on the port. */
  lemma FreeExactly(sys: Sys, doc: PlanDoc, results: seq<ResultKind>, s: Snapshot, port: int)
    ensures Report(sys, doc, results, s, port).status == Free <==>
      s.ownerErr.None? && s.dockerErr.None? && s.tableOK && port !in s.tableHas && Observe.NobodyNamed(s, port)
    ensures Report(sys, doc, results, s, port).status == Free ==>
      Report(sys, doc, results, s, port).visibility == Complete && Report(sys, doc, results, s, port).holders == []
  {
    EndpointCoherent(sys, s, port);
    StatusCases(sys, doc, results, s, Observe.Endpoint(sys, s, port));
    Observe.UnseenIsNotFree(sys, s, port);
  }

  lemma {:induction false} ProcRefIsPlanned(rs: seq<PlanResource>, results: seq<ResultKind>, n: nat, port: int,
                                            pid: int)
    requires n <= |rs| && ProcRef(rs, results, n, port, pid).Some?
    ensures exists r :: r in rs && r.provider != DockerProvider && port in r.ports && r.pid == pid
                        && r.start == ProcRef(rs, results, n, port, pid).value.start
  {
    if rs[n - 1].provider != DockerProvider && port in rs[n - 1].ports && rs[n - 1].pid == pid {
      assert rs[n - 1] in rs;
    } else {
      ProcRefIsPlanned(rs, results, n - 1, port, pid);
    }
  }

  lemma {:induction false} ContRefIsPlanned(rs: seq<PlanResource>, results: seq<ResultKind>, n: nat, port: int,
                                            id: string)
    requires n <= |rs| && ContRef(rs, results, n, port, id).Some?
    ensures exists r :: r in rs && r.provider == DockerProvider && port in r.ports && r.containerId == id
  {
    if rs[n - 1].provider == DockerProvider && port in rs[n - 1].ports && rs[n - 1].containerId == id {
      assert rs[n - 1] in rs;
    } else {
      ContRefIsPlanned(rs, results, n - 1, port, id);
    }
  }

  /** "Blocked by original" is never said of a stranger: the port is held by the
      exact planned incarnation or the exact planned container. */
  lemma OriginalIsPlanned(sys: Sys, doc: PlanDoc, results: seq<ResultKind>, s: Snapshot, e: EndpointObs)
    requires StatusOf(sys, doc, results, s, e) == BlockedOriginal
    ensures
      || (exists r, o :: r in doc.resources && e.port in r.ports && o in e.owners && o.ident == IdentOk
                         && r.provider != DockerProvider && r.pid == o.pid && r.start == o.start)
      || (exists r, c :: r in doc.resources && e.port in r.ports && c in e.containers
                         && r.provider == DockerProvider && r.containerId == c.id)
  {
    var n := |doc.resources|;
    if o :| o in e.owners && OwnerJudgement(sys, doc, results, s, e, o) == Original {
      ProcRefIsPlanned(doc.resources, results, n, e.port, o.pid);
    } else {
      var c :| c in e.containers && ContainerJudgement(doc, results, e, c) == Original;
      ContRefIsPlanned(doc.resources, results, n, e.port, c.id);
    }
  }

  // ---- classify as the program runs it ---------------------------------------------

  function Get<K, V>(m: map<int, map<K, V>>, port: int, k: K): Option<V> {
    if port in m && k in m[port] then Some(m[port][k]) else None
  }

  function Put<K, V>(m: map<int, map<K, V>>, port: int, k: K, v: V): map<int, map<K, V>> {
    m[port := (if port in m then m[port] else map[])[k := v]]
  }

  lemma GetPut<K, V>(m: map<int, map<K, V>>, port: int, k: K, v: V)
    ensures forall p, q :: Get(Put(m, port, k, v), p, q) == if p == port && q == k then Some(v) else Get(m, p, q)
  {
  }

  /** The four flags classify flips while it looks at the occupants. */
  datatype Flags = Flags(original: bool, refused: bool, other: bool, unknown: bool) {
    function Mark(j: Judgement): (r: Flags)
      ensures forall k | k != Proxy :: r.Has(k) <==> Has(k) || k == j
    {
      match j
      case Original => this.(original := true)
      case Refused => this.(refused := true)
      case Other => this.(other := true)
      case Unknown => this.(unknown := true)
      case Proxy => this
    }

    predicate Has(j: Judgement) {
      match j
      case Original => original
      case Refused => refused
      case Other => other
      case Unknown => unknown
      case Proxy => false
    }
  }

  class Planned {
    var procs: map<int, map<int, Ref>>
    var conts: map<int, map<string, Ref>>

    ghost predicate Shows(rs: seq<PlanResource>, results: seq<ResultKind>, n: nat)
      reads this
      requires n <= |rs|
    {
      && (forall port, pid :: Get(procs, port, pid) == ProcRef(rs, results, n, port, pid))
      && (forall port, id :: Get(conts, port, id) == ContRef(rs, results, n, port, id))
    }

    constructor ()
      ensures procs == map[] && conts == map[]
    {
      procs, conts := map[], map[];
    }

    /** The maps are the given ones with r entered on the ports. */
    ghost predicate Entered(procs0: map<int, map<int, Ref>>, conts0: map<int, map<string, Ref>>,
                            r: PlanResource, unsure: bool, ports: seq<int>)
      reads this
    {
      && (forall p, pid :: Get(procs, p, pid) == (
            if r.provider != DockerProvider && p in ports && pid == r.pid then Some(Ref(r.start, unsure))
            else Get(procs0, p, pid)))
      && (forall p, id :: Get(conts, p, id) == (
            if r.provider == DockerProvider && p in ports && id == r.containerId then Some(Ref("", unsure))
            else Get(conts0, p, id)))
    }

    /** Enters one resource on each of its ports, replacing what was there. */
    method Enter(r: PlanResource, unsure: bool)
      modifies this
      ensures Entered(old(procs), old(conts), r, unsure, r.ports)
    {
      for i := 0 to |r.ports|
        invariant Entered(old(procs), old(conts), r, unsure, r.ports[..i])
      {
        var p := r.ports[i];
        assert r.ports[..i + 1] == r.ports[..i] + [p];
        if r.provider == DockerProvider {
          GetPut(conts, p, r.containerId, Ref("", unsure));
          conts := Put(conts, p, r.containerId, Ref("", unsure));
        } else {
          GetPut(procs, p, r.pid, Ref(r.start, unsure));
          procs := Put(procs, p, r.pid, Ref(r.start, unsure));
        }
      }
      assert r.ports[..|r.ports|] == r.ports;
    }

    method EnterAll(rs: seq<PlanResource>, results: seq<ResultKind>)
      requires procs == map[] && conts == map[]
      modifies this
      ensures Shows(rs, results, |rs|)
    {
      for i := 0 to |rs|
        invariant Shows(rs, results, i)
      {
        Enter(rs[i], i < |results| && results[i] == TimeoutUnknown);
      }
    }
  }

  method JudgeOwners(sys: Sys, doc: PlanDoc, results: seq<ResultKind>, s: Snapshot, planned: Planned, e: EndpointObs)
    returns (f: Flags, holders: seq<Holder>)
    requires planned.Shows(doc.resources, results, |doc.resources|)
    ensures forall j | j != Proxy :: f.Has(j) <==>
      exists o :: o in e.owners && OwnerJudgement(sys, doc, results, s, e, o) == j
    ensures holders == seq(|e.owners|, i requires 0 <= i < |e.owners| => Holder(e.owners[i].pid, "", e.owners[i].name))
  {
    f, holders := Flags(false, false, false, false), [];
    for i := 0 to |e.owners|
      invariant |holders| == i && forall k | 0 <= k < i :: holders[k] == Holder(e.owners[k].pid, "", e.owners[k].name)
      invariant forall j | j != Proxy ::
        f.Has(j) <==> exists k :: 0 <= k < i && OwnerJudgement(sys, doc, results, s, e, e.owners[k]) == j
    {
      var o := e.owners[i];
      holders := holders + [Holder(o.pid, "", o.name)];
      f := f.Mark(JudgeOwner(sys, RefusedPid(doc.refused, e.port, o.pid), Get(planned.procs, e.port, o.pid),
                             |e.containers| > 0, s.dockerErr.Some?, o));
    }
  }

  method JudgeContainers(doc: PlanDoc, results: seq<ResultKind>, planned: Planned, e: EndpointObs, before: Flags)
    returns (f: Flags, holders: seq<Holder>)
    requires planned.Shows(doc.resources, results, |doc.resources|)
    ensures forall j | j != Proxy ::
      f.Has(j) <==> before.Has(j) || exists c :: c in e.containers && ContainerJudgement(doc, results, e, c) == j
    ensures holders == seq(|e.containers|,
      i requires 0 <= i < |e.containers| => Holder(0, e.containers[i].id, e.containers[i].name))
  {
    f, holders := before, [];
    for i := 0 to |e.containers|
      invariant |holders| == i && forall k | 0 <= k < i ::
        holders[k] == Holder(0, e.containers[k].id, e.containers[k].name)
      invariant forall j | j != Proxy ::
        f.Has(j) <==>
          before.Has(j) || exists k :: 0 <= k < i && ContainerJudgement(doc, results, e, e.containers[k]) == j
    {
      var c := e.containers[i];
      holders := holders + [Holder(0, c.id, c.name)];
      f := f.Mark(JudgeContainer(RefusedName(doc.refused, e.port, c.name), Get(planned.conts, e.port, c.id)));
    }
  }

  method ClassifyPort(sys: Sys, doc: PlanDoc, results: seq<ResultKind>, s: Snapshot, planned: Planned, port: int)
    returns (out: ApplyEndpoint)
    requires Observe.Collected(s) && planned.Shows(doc.resources, results, |doc.resources|)
    ensures out == Report(sys, doc, results, s, port)
  {
    var e := Observe.ProjectEndpoint(sys, s, port);
    var f, owners := JudgeOwners(sys, doc, results, s, planned, e);
    var containers;
    f, containers := JudgeContainers(doc, results, planned, e, f);
    if e.hidden && RefusedHidden(doc.refused, e.port) {
      f := f.Mark(Refused);
    }
    forall j | j != Proxy ensures f.Has(j) <==> Judged(sys, doc, results, s, e, j) {}
    StatusOfFlags(sys, doc, results, s, e, f);
    out := ApplyEndpoint(e.protocol, port,
      StatusBy(f.original, f.refused, f.other, f.unknown, e.visibility == Complete, e.occupied),
      e.visibility, owners + containers);
  }

  lemma StatusOfFlags(sys: Sys, doc: PlanDoc, results: seq<ResultKind>, s: Snapshot, e: EndpointObs, f: Flags)
    requires forall j | j != Proxy :: f.Has(j) <==> Judged(sys, doc, results, s, e, j)
    ensures StatusBy(f.original, f.refused, f.other, f.unknown, e.visibility == Complete, e.occupied)
            == StatusOf(sys, doc, results, s, e)
  {
    assert f.Has(Original) == f.original && f.Has(Refused) == f.refused && f.Has(Other) == f.other &&
      f.Has(Unknown) == f.unknown;
  }

  method Classify(sys: Sys, doc: PlanDoc, results: seq<ResultKind>, s: Snapshot) returns (out: seq<ApplyEndpoint>)
    requires Observe.Collected(s)
    ensures out == Reports(sys, doc, results, s, |doc.request.ports|)
  {
    var planned := new Planned();
    planned.EnterAll(doc.resources, results);
    out := [];
    for i := 0 to |doc.request.ports|
      invariant planned.Shows(doc.resources, results, |doc.resources|)
      invariant out == Reports(sys, doc, results, s, i)
    {
      var e := ClassifyPort(sys, doc, results, s, planned, doc.request.ports[i]);
      out := out + [e];
    }
  }
}
