/** internal/cli/apply.go: who still holds a port after an apply, in terms of the plan
    document and the observation. */
module Occupants {
  import opened Domain
  import opened Plan
  import opened Outcome
  import Observe
  import PlanDecisions
  import PlanTheorems
  import PlanToSignal

  // ---- what the plan says about an occupant --------------------------------------------

  /** The i-th resource is the process with that PID, planned on the port. */
  predicate NamesProcess(rs: seq<PlanResource>, i: nat, port: int, pid: int) {
    i < |rs| && rs[i].provider != DockerProvider && port in rs[i].ports && rs[i].pid == pid
  }

  predicate NamesContainer(rs: seq<PlanResource>, i: nat, port: int, id: string) {
    i < |rs| && rs[i].provider == DockerProvider && port in rs[i].ports && rs[i].containerId == id
  }

  /** No two resources name one process, or one container, on one port. */
  ghost predicate OncePerPort(rs: seq<PlanResource>) {
    && (forall i: nat, j: nat, port, pid | NamesProcess(rs, i, port, pid) && NamesProcess(rs, j, port, pid) :: i == j)
    && (forall i: nat, j: nat, port, id | NamesContainer(rs, i, port, id) && NamesContainer(rs, j, port, id) :: i == j)
  }

  /** The planned incarnation holds the PID. */
  ghost predicate PlannedProcess(doc: PlanDoc, port: int, pid: int, start: string) {
    exists i: nat :: NamesProcess(doc.resources, i, port, pid) && doc.resources[i].start == start
  }

  /** The container is planned on the port, and its stop did or did not time out. */
  ghost predicate PlannedContainer(doc: PlanDoc, results: seq<ResultKind>, port: int, id: string, timedOut: bool) {
    exists i: nat :: NamesContainer(doc.resources, i, port, id) && TimedOut(results, i) == timedOut
  }

  predicate TimedOut(results: seq<ResultKind>, i: nat) {
    i < |results| && results[i] == TimeoutUnknown
  }

  lemma {:induction false} ProcRefIsThat(rs: seq<PlanResource>, results: seq<ResultKind>, n: nat, i: nat, port: int,
                                         pid: int)
    requires OncePerPort(rs) && NamesProcess(rs, i, port, pid) && i < n <= |rs|
    ensures ProcRef(rs, results, n, port, pid) == Some(Ref(rs[i].start, TimedOut(results, i)))
  {
    if NamesProcess(rs, n - 1, port, pid) {
      assert i == n - 1;
    } else {
      ProcRefIsThat(rs, results, n - 1, i, port, pid);
    }
  }

  lemma {:induction false} ContRefIsThat(rs: seq<PlanResource>, results: seq<ResultKind>, n: nat, i: nat, port: int,
                                         id: string)
    requires OncePerPort(rs) && NamesContainer(rs, i, port, id) && i < n <= |rs|
    ensures ContRef(rs, results, n, port, id) == Some(Ref("", TimedOut(results, i)))
  {
    if NamesContainer(rs, n - 1, port, id) {
      assert i == n - 1;
    } else {
      ContRefIsThat(rs, results, n - 1, i, port, id);
    }
  }

  lemma {:induction false} NoProcRef(rs: seq<PlanResource>, results: seq<ResultKind>, n: nat, port: int, pid: int)
    requires n <= |rs| && forall i: nat :: !NamesProcess(rs, i, port, pid)
    ensures ProcRef(rs, results, n, port, pid).None?
  {
    if n > 0 {
      assert !NamesProcess(rs, n - 1, port, pid);
      NoProcRef(rs, results, n - 1, port, pid);
    }
  }

  lemma {:induction false} NoContRef(rs: seq<PlanResource>, results: seq<ResultKind>, n: nat, port: int, id: string)
    requires n <= |rs| && forall i: nat :: !NamesContainer(rs, i, port, id)
    ensures ContRef(rs, results, n, port, id).None?
  {
    if n > 0 {
      assert !NamesContainer(rs, n - 1, port, id);
      NoContRef(rs, results, n - 1, port, id);
    }
  }

  lemma ProcRefMeans(doc: PlanDoc, results: seq<ResultKind>, port: int, pid: int, start: string)
    requires OncePerPort(doc.resources)
    ensures
      var ref := ProcRef(doc.resources, results, |doc.resources|, port, pid);
      ref.Some? && ref.value.start == start <==> PlannedProcess(doc, port, pid, start)
  {
    if i: nat :| NamesProcess(doc.resources, i, port, pid) {
      ProcRefIsThat(doc.resources, results, |doc.resources|, i, port, pid);
      if PlannedProcess(doc, port, pid, start) {
        var j: nat :| NamesProcess(doc.resources, j, port, pid) && doc.resources[j].start == start;
        assert j == i;
      }
    } else {
      NoProcRef(doc.resources, results, |doc.resources|, port, pid);
    }
  }

  lemma ContRefMeans(doc: PlanDoc, results: seq<ResultKind>, port: int, id: string)
    requires OncePerPort(doc.resources)
    ensures
      var ref := ContRef(doc.resources, results, |doc.resources|, port, id);
      && (ref.Some? && !ref.value.unsure <==> PlannedContainer(doc, results, port, id, false))
      && (ref.Some? && ref.value.unsure <==> PlannedContainer(doc, results, port, id, true))
  {
    if i: nat :| NamesContainer(doc.resources, i, port, id) {
      ContRefIsThat(doc.resources, results, |doc.resources|, i, port, id);
      forall timedOut | PlannedContainer(doc, results, port, id, timedOut) ensures TimedOut(results, i) == timedOut {
        var j: nat :| NamesContainer(doc.resources, j, port, id) && TimedOut(results, j) == timedOut;
        assert j == i;
      }
    } else {
      NoContRef(doc.resources, results, |doc.resources|, port, id);
    }
  }

  // ---- the judgements ------------------------------------------------------------------

  /** Docker's own process while a container is listed on the port, or while Docker
      could not be asked whose it is. */
  predicate ForDocker(sys: Sys, s: Snapshot, e: EndpointObs, o: OwnerObs) {
    sys.infra(o.name) && (e.containers != [] || s.dockerErr.Some?)
  }

  /** The judgement on an owner, whatever order classify asks its questions in. */
  lemma OwnerJudgementMeans(sys: Sys, doc: PlanDoc, results: seq<ResultKind>, s: Snapshot, e: EndpointObs, o: OwnerObs)
    requires OncePerPort(doc.resources)
    ensures
      var j := OwnerJudgement(sys, doc, results, s, e, o);
      var refused, docker := RefusedPid(doc.refused, e.port, o.pid), ForDocker(sys, s, e, o);
      var planned := PlannedProcess(doc, e.port, o.pid, o.start);
      && (j == Refused <==> refused)
      && (j == Original <==> !refused && !docker && o.ident == IdentOk && planned)
      && (j == Other <==> !refused && !docker && o.ident == IdentOk && !planned)
      && (j == Proxy <==> !refused && docker && e.containers != [])
      && (j == Unknown <==> !refused && if docker then e.containers == [] else o.ident != IdentOk)
  {
    ProcRefMeans(doc, results, e.port, o.pid, o.start);
  }

  lemma ContainerJudgementMeans(doc: PlanDoc, results: seq<ResultKind>, e: EndpointObs, c: Container)
    requires OncePerPort(doc.resources)
    ensures
      var j := ContainerJudgement(doc, results, e, c);
      var held, lost := PlannedContainer(doc, results, e.port, c.id, false),
        PlannedContainer(doc, results, e.port, c.id, true);
      && (j == Original <==> held)
      && (j == Unknown <==> lost)
      && (j == Refused <==> !held && !lost && RefusedName(doc.refused, e.port, c.name))
      && (j == Other <==> !held && !lost && !RefusedName(doc.refused, e.port, c.name))
  {
    ContRefMeans(doc, results, e.port, c.id);
  }

  // ---- blocked by original ---------------------------------------------------------------

  /** The exact planned process is there, and neither refused nor Docker's. */
  ghost predicate OriginalOwner(sys: Sys, doc: PlanDoc, s: Snapshot, e: EndpointObs, o: OwnerObs) {
    && o in e.owners && o.ident == IdentOk && PlannedProcess(doc, e.port, o.pid, o.start)
    && !RefusedPid(doc.refused, e.port, o.pid) && !ForDocker(sys, s, e, o)
  }

  ghost predicate OriginalContainer(doc: PlanDoc, results: seq<ResultKind>, e: EndpointObs, c: Container) {
    c in e.containers && PlannedContainer(doc, results, e.port, c.id, false)
  }

  /** "Blocked by original" says exactly that the port is still held by the planned
      incarnation of a process the plan did not refuse there, or by a planned
      container whose stop did not time out. */
  lemma OriginalExactly(sys: Sys, doc: PlanDoc, results: seq<ResultKind>, s: Snapshot, e: EndpointObs)
    requires OncePerPort(doc.resources) && Coherent(e)
    ensures StatusOf(sys, doc, results, s, e) == BlockedOriginal <==>
      (exists o :: OriginalOwner(sys, doc, s, e, o)) || (exists c :: OriginalContainer(doc, results, e, c))
  {
    StatusCases(sys, doc, results, s, e);
    forall o | o in e.owners
      ensures OwnerJudgement(sys, doc, results, s, e, o) == Original <==> OriginalOwner(sys, doc, s, e, o)
    {
      OwnerJudgementMeans(sys, doc, results, s, e, o);
    }
    forall c | c in e.containers
      ensures ContainerJudgement(doc, results, e, c) == Original <==> OriginalContainer(doc, results, e, c)
    {
      ContainerJudgementMeans(doc, results, e, c);
    }
  }

  // ---- and the other statuses ----------------------------------------------------------------

  /** A refusal of the plan for the port that names the PID, the container, or somebody
      who was not visible. */
  predicate RefusesPid(x: Refusal, port: int, pid: int) {
    x.port == port && x.pid == pid && pid > 0
  }

  predicate RefusesName(x: Refusal, port: int, name: string) {
    x.port == port && x.pid <= 0 && x.name == name && name != ""
  }

  predicate RefusesUnseen(x: Refusal, port: int) {
    x.port == port && x.pid <= 0 && x.name == ""
  }

  ghost predicate InPlan(doc: PlanDoc, results: seq<ResultKind>, e: EndpointObs, c: Container) {
    PlannedContainer(doc, results, e.port, c.id, false) || PlannedContainer(doc, results, e.port, c.id, true)
  }

  /** Somebody whom the plan refused is there. */
  ghost predicate HeldByRefused(doc: PlanDoc, results: seq<ResultKind>, e: EndpointObs) {
    || (exists o, x :: o in e.owners && x in doc.refused && RefusesPid(x, e.port, o.pid))
    || (exists c, x :: c in e.containers && x in doc.refused && RefusesName(x, e.port, c.name)
                       && !InPlan(doc, results, e, c))
    || (e.hidden && exists x :: x in doc.refused && RefusesUnseen(x, e.port))
  }

  /** Somebody of whom the plan knows nothing is there. */
  ghost predicate HeldByStranger(sys: Sys, doc: PlanDoc, results: seq<ResultKind>, s: Snapshot, e: EndpointObs) {
    || (exists o :: o in e.owners && o.ident == IdentOk && !ForDocker(sys, s, e, o)
                    && !PlannedProcess(doc, e.port, o.pid, o.start)
                    && forall x | x in doc.refused :: !RefusesPid(x, e.port, o.pid))
    || (exists c :: c in e.containers && !InPlan(doc, results, e, c)
                    && forall x | x in doc.refused :: !RefusesName(x, e.port, c.name))
  }

  lemma RefusedByMeans(doc: PlanDoc, port: int, pid: int, name: string)
    ensures RefusedPid(doc.refused, port, pid) <==> exists x :: x in doc.refused && RefusesPid(x, port, pid)
    ensures RefusedName(doc.refused, port, name) <==> exists x :: x in doc.refused && RefusesName(x, port, name)
    ensures RefusedHidden(doc.refused, port) <==> exists x :: x in doc.refused && RefusesUnseen(x, port)
  {
  }

  lemma RefusedIsJudged(sys: Sys, doc: PlanDoc, results: seq<ResultKind>, s: Snapshot, e: EndpointObs)
    requires OncePerPort(doc.resources)
    ensures Judged(sys, doc, results, s, e, Refused) <==> HeldByRefused(doc, results, e)
  {
    forall o | o in e.owners
      ensures OwnerJudgement(sys, doc, results, s, e, o) == Refused <==>
        exists x :: x in doc.refused && RefusesPid(x, e.port, o.pid)
    {
      OwnerJudgementMeans(sys, doc, results, s, e, o);
      RefusedByMeans(doc, e.port, o.pid, "");
    }
    forall c | c in e.containers
      ensures ContainerJudgement(doc, results, e, c) == Refused <==>
        !InPlan(doc, results, e, c) && exists x :: x in doc.refused && RefusesName(x, e.port, c.name)
    {
      ContainerJudgementMeans(doc, results, e, c);
      RefusedByMeans(doc, e.port, 0, c.name);
    }
    RefusedByMeans(doc, e.port, 0, "");
  }

  lemma StrangerIsJudged(sys: Sys, doc: PlanDoc, results: seq<ResultKind>, s: Snapshot, e: EndpointObs)
    requires OncePerPort(doc.resources)
    ensures Judged(sys, doc, results, s, e, Other) <==> HeldByStranger(sys, doc, results, s, e)
  {
    forall o | o in e.owners
      ensures OwnerJudgement(sys, doc, results, s, e, o) == Other <==>
        && o.ident == IdentOk && !ForDocker(sys, s, e, o) && !PlannedProcess(doc, e.port, o.pid, o.start)
        && forall x | x in doc.refused :: !RefusesPid(x, e.port, o.pid)
    {
      OwnerJudgementMeans(sys, doc, results, s, e, o);
      RefusedByMeans(doc, e.port, o.pid, "");
    }
    forall c | c in e.containers
      ensures ContainerJudgement(doc, results, e, c) == Other <==>
        !InPlan(doc, results, e, c) && forall x | x in doc.refused :: !RefusesName(x, e.port, c.name)
    {
      ContainerJudgementMeans(doc, results, e, c);
      RefusedByMeans(doc, e.port, 0, c.name);
    }
  }

  /** The other ways a port can be blocked, in terms of the document and the endpoint,
      and that anything else that is not free is not verifiable. */
  lemma StatusExactly(sys: Sys, doc: PlanDoc, results: seq<ResultKind>, s: Snapshot, e: EndpointObs)
    requires OncePerPort(doc.resources) && Coherent(e)
    ensures
      var status := StatusOf(sys, doc, results, s, e);
      && (status == BlockedRefused <==> HeldByRefused(doc, results, e) && status != BlockedOriginal)
      && (status == BlockedNewOwner <==>
            HeldByStranger(sys, doc, results, s, e) && status != BlockedOriginal && status != BlockedRefused)
      && (status == Free <==> e.visibility == Complete && !e.occupied)
  {
    StatusCases(sys, doc, results, s, e);
    RefusedIsJudged(sys, doc, results, s, e);
    StrangerIsJudged(sys, doc, results, s, e);
  }

  /** Whoever was not visible when the plan was made, and is still not, blocks the port
      as refused, unless something planned blocks it as well. */
  lemma UnseenStaysRefused(sys: Sys, before: Snapshot, opts: PlanOptions, now: int, doc: PlanDoc,
                           results: seq<ResultKind>, s: Snapshot, port: int)
    requires Observe.Collected(before) && IsPlanOf(sys, before, opts, now, doc) && port in opts.ports
    requires Observe.Endpoint(sys, before, port).hidden && Observe.Endpoint(sys, s, port).hidden
    ensures Report(sys, doc, results, s, port).status in {BlockedRefused, BlockedOriginal}
  {
    BuiltPlanNamesOnce(sys, before, opts, now, doc);
    PlanDecisions.HiddenIsRefused(sys, before, opts, now, doc, port);
    assert RefusesUnseen(PlanDecisions.HiddenRefusal(port), port);
    EndpointCoherent(sys, s, port);
    StatusExactly(sys, doc, results, s, Observe.Endpoint(sys, s, port));
  }

  // ---- plans name everybody once -----------------------------------------------------------

  lemma NamedOnce(rs: seq<PlanResource>)
    requires forall i, j | 0 <= i < j < |rs| && rs[i].provider != DockerProvider && rs[j].provider != DockerProvider ::
      rs[i].pid != rs[j].pid
    requires forall i, j | 0 <= i < j < |rs| && rs[i].provider == DockerProvider && rs[j].provider == DockerProvider ::
      rs[i].containerId != rs[j].containerId
    ensures OncePerPort(rs)
  {
  }

  /** A plan made from one observation has one resource per PID and per container. */
  lemma BuiltPlanNamesOnce(sys: Sys, s: Snapshot, opts: PlanOptions, now: int, doc: PlanDoc)
    requires Observe.Collected(s) && IsPlanOf(sys, s, opts, now, doc)
    ensures OncePerPort(doc.resources)
  {
    PlanTheorems.ResourcesTotal(sys, s, opts, now, doc);
    var rs := doc.resources;
    forall i, j | 0 <= i < j < |rs|
      ensures rs[i].provider != DockerProvider && rs[j].provider != DockerProvider ==> rs[i].pid != rs[j].pid
      ensures rs[i].provider == DockerProvider && rs[j].provider == DockerProvider ==>
        rs[i].containerId != rs[j].containerId
    {
      PlanTheorems.PlannedIsUsable(sys, s, opts, now, doc, rs[i]);
      PlanTheorems.PlannedIsUsable(sys, s, opts, now, doc, rs[j]);
      assert rs[i] in rs && rs[j] in rs && rs[i] != rs[j];
    }
    NamedOnce(rs);
  }

  // ---- what is still there is reported as such ----------------------------------------------

  /** The observation shows the process on the port, with that start token, under a
      name that is not Docker's. */
  ghost predicate StillThere(sys: Sys, s: Snapshot, port: int, pid: int, start: string) {
    && pid > 0 && (exists l :: Observe.Live(s, l, port) && l.pid == pid)
    && var o := Observe.OwnerAt(s, port, pid);
       o.ident == IdentOk && o.start == start && !sys.infra(o.name)
  }

  /** A planned process that is still there is never taken for anybody else: for a
      plan made from any observation, whatever its results were, each port on which
      it is planned and still shown is reported as blocked by the original. */
  lemma SurvivorIsOriginal(sys: Sys, before: Snapshot, opts: PlanOptions, now: int, doc: PlanDoc,
                           results: seq<ResultKind>, s: Snapshot, r: PlanResource, port: int)
    requires Observe.Collected(before) && IsPlanOf(sys, before, opts, now, doc) && Observe.Collected(s)
    requires r in doc.resources && r.provider != DockerProvider && port in r.ports
    requires StillThere(sys, s, port, r.pid, r.start)
    ensures Report(sys, doc, results, s, port).status == BlockedOriginal
  {
    BuiltPlanNamesOnce(sys, before, opts, now, doc);
    PlannedIsNotRefused(sys, before, opts, now, doc, r, port);
    var e := Observe.Endpoint(sys, s, port);
    var o := Observe.OwnerAt(s, port, r.pid);
    Observe.OwnersOfMembers(s, port);
    EndpointCoherent(sys, s, port);
    OriginalExactly(sys, doc, results, s, e);
    var i :| 0 <= i < |doc.resources| && doc.resources[i] == r;
    assert NamesProcess(doc.resources, i, port, r.pid);
    SurvivorOwns(s, port, r.pid);
    assert OriginalOwner(sys, doc, s, e, o);
  }

  lemma SurvivorOwns(s: Snapshot, port: int, pid: int)
    requires Observe.Collected(s) && exists l :: Observe.Live(s, l, port) && l.pid == pid
    ensures Observe.OwnerAt(s, port, pid) in Observe.OwnersOf(s, port) && Observe.OwnerAt(s, port, pid).pid == pid
  {
    Observe.OwnersOfMembers(s, port);
    var l :| Observe.Live(s, l, port) && l.pid == pid;
    assert l in s.owners && pid in s.idents && Observe.IdentSound(pid, s.idents[pid]);
  }

  /** A plan does not both act on a PID and refuse it on the same port. */
  lemma PlannedIsNotRefused(sys: Sys, s: Snapshot, opts: PlanOptions, now: int, doc: PlanDoc, r: PlanResource,
                            port: int)
    requires Observe.Collected(s) && IsPlanOf(sys, s, opts, now, doc)
    requires r in doc.resources && r.provider != DockerProvider && port in r.ports
    ensures port in opts.ports && !RefusedPid(doc.refused, port, r.pid)
  {
    PlanTheorems.PlannedIsUsable(sys, s, opts, now, doc, r);
    PlanToSignal.PlannedWasShown(sys, s, opts, now, doc, r, port);
    var l :| PlanToSignal.ShownBy(sys, s, port, r.pid, r.start, l);
    SurvivorOwns(s, port, r.pid);
    var o := Observe.OwnerAt(s, port, r.pid);
    PlanTheorems.OwnerAccounting(sys, s, opts, now, doc, port, o);
    assert PlanTheorems.OwnerPlanned(doc, port, o);
  }

  // ---- what is free, and who is reported ------------------------------------------------------

  /** Free, row by row: every source was read; the table lacks the port; every owner row
      of it is of a process that had exited when it was looked up; and no container
      publishes it. */
  lemma FreeInFull(sys: Sys, doc: PlanDoc, results: seq<ResultKind>, s: Snapshot, port: int)
    requires Observe.Collected(s)
    ensures Report(sys, doc, results, s, port).status == Free <==>
      && s.ownerErr.None? && s.dockerErr.None? && s.tableOK && port !in s.tableHas
      && (forall l | l in s.owners && l.port == port ::
            l.pid > 0 && l.pid in s.idents && s.idents[l.pid].ident == IdentGone)
      && (forall c | c in s.containers :: port !in c.ports)
  {
    FreeExactly(sys, doc, results, s, port);
    if Observe.NobodyNamed(s, port) {
      forall l | l in s.owners && l.port == port
        ensures l.pid > 0 && l.pid in s.idents && s.idents[l.pid].ident == IdentGone
      {
        assert Observe.Row(s, l, port) && !Observe.Live(s, l, port);
      }
    }
  }

  /** An endpoint is reported under its own port and protocol, with exactly the visible
      owners and the containers of the port as its holders. */
  lemma HoldersExactly(sys: Sys, doc: PlanDoc, results: seq<ResultKind>, s: Snapshot, port: int)
    ensures
      var out, e := Report(sys, doc, results, s, port), Observe.Endpoint(sys, s, port);
      && out.port == port && out.protocol == s.protocol && out.visibility == e.visibility
      && forall h :: h in out.holders <==>
           || (exists o :: o in e.owners && h == Holder(o.pid, "", o.name))
           || (exists c :: c in e.containers && h == Holder(0, c.id, c.name))
  {
    var e := Observe.Endpoint(sys, s, port);
    var hs := HoldersOf(e);
    forall o | o in e.owners ensures Holder(o.pid, "", o.name) in hs {
      var i :| 0 <= i < |e.owners| && e.owners[i] == o;
      assert hs[i] == Holder(o.pid, "", o.name);
    }
    forall c | c in e.containers ensures Holder(0, c.id, c.name) in hs {
      var i :| 0 <= i < |e.containers| && e.containers[i] == c;
      assert hs[|e.owners| + i] == Holder(0, c.id, c.name);
    }
  }
}
