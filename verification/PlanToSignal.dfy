/** From the observation a plan was built from to the signals an apply of it delivers. */
module PlanToSignal {
  import opened Domain
  import opened Plan
  import opened PlanTheorems
  import Observe
  import Replay

  /** The observation shows the process on the port as a live owner with that start
      token, which is neither Docker's own nor protected. */
  ghost predicate ShownAs(sys: Sys, s: Snapshot, port: int, pid: int, start: string) {
    exists l :: ShownBy(sys, s, port, pid, start, l)
  }

  predicate ShownBy(sys: Sys, s: Snapshot, port: int, pid: int, start: string, l: Listener) {
    && Observe.Live(s, l, port) && l.pid == pid && ProtectedBy(sys, pid) == None
    && var o := Observe.OwnerAt(s, port, pid);
       o.ident == IdentOk && o.start == start && !sys.infra(o.name) && !(s.namesUnavailable && o.name == "")
  }

  /** A verdict that uses a process is one on an owner that may be used. */
  lemma UsedOwner(sys: Sys, s: Snapshot, opts: PlanOptions, e: EndpointObs, v: Verdict) returns (o: OwnerObs)
    requires OwnersKnown(s, e) && ContainersKnown(s, e) && v in VerdictsOn(sys, s, opts, e)
    requires v.Use? && v.r.provider == NativeProvider
    ensures o in e.owners && v == OwnVerdict(sys, s, opts, e, o)
  {
    VerdictsEach(sys, s, opts, e);
    VerdictOriginOf(sys, s, opts, e, VerdictsOn(sys, s, opts, e), v);
    o :| o in e.owners && v == OwnVerdict(sys, s, opts, e, o);
  }

  lemma OwnerMayBeUsed(sys: Sys, s: Snapshot, opts: PlanOptions, e: EndpointObs, o: OwnerObs)
    requires OwnVerdict(sys, s, opts, e, o).Use?
    ensures ProtectedBy(sys, o.pid) == None && o.ident == IdentOk && !sys.infra(o.name)
    ensures !(s.namesUnavailable && o.name == "")
    ensures
      var r := OwnVerdict(sys, s, opts, e, o).r;
      r.pid == o.pid && r.start == o.start && r.id == ProcResourceId(o.pid, o.start)
  {
  }

  lemma UsedWasShown(sys: Sys, s: Snapshot, opts: PlanOptions, port: int, v: Verdict)
    requires Observe.Collected(s) && v in Rules(sys, s, opts)(port) && v.Use? && v.r.provider == NativeProvider
    ensures v.r.id == ProcResourceId(v.r.pid, v.r.start) && v.r.pid > 0 && ShownAs(sys, s, port, v.r.pid, v.r.start)
  {
    var e := Observe.Endpoint(sys, s, port);
    EndpointIsKnown(sys, s, port);
    var o := UsedOwner(sys, s, opts, e, v);
    OwnerMayBeUsed(sys, s, opts, e, o);
    OwnerIsShown(sys, s, port, o);
  }

  lemma OwnerIsShown(sys: Sys, s: Snapshot, port: int, o: OwnerObs)
    requires Observe.Collected(s) && o in Observe.OwnersOf(s, port)
    requires ProtectedBy(sys, o.pid) == None && o.ident == IdentOk && !sys.infra(o.name)
    requires !(s.namesUnavailable && o.name == "")
    ensures o.pid > 0 && ShownAs(sys, s, port, o.pid, o.start)
  {
    Observe.OwnersOfMembers(s, port);
    var l :| Observe.Live(s, l, port) && o == Observe.OwnerAt(s, port, l.pid);
    assert ShownBy(sys, s, port, o.pid, o.start, l);
  }

  /** Whatever else is used under the same ID is the same process. */
  lemma SameProcess(sys: Sys, s: Snapshot, opts: PlanOptions, port: int, v: Verdict, pid: int, start: string)
    requires Observe.Collected(s) && v in Rules(sys, s, opts)(port) && v.Use? && pid > 0
    requires v.r.id == ProcResourceId(pid, start)
    ensures ShownAs(sys, s, port, pid, start)
  {
    UseIsUsable(sys, s, opts, port, v);
    if UsableContainer(s, opts, v.r) {
      IdKindsDiffer(pid, start, v.r.containerId);
    } else {
      UsedWasShown(sys, s, opts, port, v);
      ProcIdInjective(v.r.pid, v.r.start, pid, start);
    }
  }

  /** A planned process was shown so on every port its resource lists. */
  lemma PlannedWasShown(sys: Sys, s: Snapshot, opts: PlanOptions, now: int, doc: PlanDoc, r: PlanResource, port: int)
    requires Observe.Collected(s) && IsPlanOf(sys, s, opts, now, doc) && r in doc.resources
    requires r.provider == NativeProvider && port in r.ports
    ensures port in opts.ports && ShownAs(sys, s, port, r.pid, r.start)
  {
    PlannedIsUsable(sys, s, opts, now, doc, r);
    var v := VerdictFor(Rules(sys, s, opts), opts.ports, port, r.id);
    SameProcess(sys, s, opts, port, v, r.pid, r.start);
  }

  lemma VerdictFor(rule: int -> seq<Verdict>, ports: seq<int>, port: int, id: string) returns (v: Verdict)
    requires UsedOn(rule, ports, |ports|, port, id)
    ensures port in ports && v in rule(port) && v.Use? && v.r.id == id
  {
    assert ports[..|ports|] == ports;
    v :| v in rule(port) && v.Use? && v.r.id == id;
  }

  ghost predicate ShownOnAsked(sys: Sys, s: Snapshot, opts: PlanOptions, pid: int, start: string) {
    exists port :: port in opts.ports && ShownAs(sys, s, port, pid, start)
  }

  /** Whatever the applies on a host do, and whatever else happens there: a signal
      delivered by an apply of a plan that was built from an observation reaches a
      process that this observation showed as a live, unprotected owner of a
      requested port, and none of Docker's own. */
  lemma DeliveriesWereShown(sys: Sys, h: Replay.Host, t: seq<Replay.HostEvent>, d: Replay.Delivery,
                            s: Snapshot, opts: PlanOptions, now: int)
    requires Replay.HostInv(sys, h) && Replay.HostRun(sys, h, t).Some? && d in Replay.HostRun(sys, h, t).value.log
    requires d.sender < |Replay.HostRun(sys, h, t).value.applies|
    requires Observe.Collected(s) && IsPlanOf(sys, s, opts, now, Replay.HostRun(sys, h, t).value.applies[d.sender].doc)
    ensures ShownOnAsked(sys, s, opts, d.pid, d.start)
  {
    Replay.EveryDeliveryPlanned(sys, h, t);
    var doc := Replay.HostRun(sys, h, t).value.applies[d.sender].doc;
    var r := doc.resources[d.k];
    assert r in doc.resources;
    PlannedIsUsable(sys, s, opts, now, doc, r);
    var port := r.ports[0];
    assert port in r.ports;
    PlannedWasShown(sys, s, opts, now, doc, r, port);
  }
}
