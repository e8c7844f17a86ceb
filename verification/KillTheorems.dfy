/** What the classic plan targets, refuses and covers. */
module KillTheorems {
  import opened Domain
  import opened Sorting
  import opened KillRows
  import Listeners

  // ---- the rows, described without their order ----------------------------------------

  lemma {:induction false} ContainerRowsMembers(port: int, cs: seq<ContainerRef>, n: nat)
    requires n <= |cs|
    ensures forall p :: p in ContainerRows(port, cs, n) <==> exists i :: 0 <= i < n && p == ContainerRow(port, cs[i])
  {
    if n > 0 { ContainerRowsMembers(port, cs, n - 1); }
  }

  lemma {:induction false} ListenerRowsMembers(rule: Listener -> Option<RowPlan>, ls: seq<Listener>, n: nat)
    requires n <= |ls|
    ensures forall p :: p in ListenerRows(rule, ls, n) <==> exists i :: 0 <= i < n && rule(ls[i]) == Some(p)
  {
    if n > 0 { ListenerRowsMembers(rule, ls, n - 1); }
  }

  ghost predicate RowOfPort(rule: Listener -> Option<RowPlan>, dk: DockerState, ls: seq<Listener>, port: int,
                            p: RowPlan)
  {
    || (p == FreeRow(port) && ContainersAt(dk, port) == [] && forall l | l in ls :: l.port != port)
    || (exists c :: c in ContainersAt(dk, port) && p == ContainerRow(port, c))
    || (exists l :: l in ls && l.port == port && rule(l) == Some(p))
  }

  lemma PortRowsMembers(rule: Listener -> Option<RowPlan>, dk: DockerState, ls: seq<Listener>, port: int)
    ensures forall p :: p in PortRows(rule, dk, ls, port) <==> RowOfPort(rule, dk, ls, port, p)
  {
    var cs, on := ContainersAt(dk, port), Listeners.OnPort(ls, |ls|, port);
    ContainerRowsMembers(port, cs, |cs|);
    ListenerRowsMembers(rule, on, |on|);
    Listeners.OnPortMembers(ls, |ls|, port);
    assert ls[..|ls|] == ls;
    forall p ensures p in PortRows(rule, dk, ls, port) <==> RowOfPort(rule, dk, ls, port, p) {
      PortRowMember(rule, dk, ls, port, on, p);
    }
  }

  lemma PortRowMember(rule: Listener -> Option<RowPlan>, dk: DockerState, ls: seq<Listener>, port: int,
                      on: seq<Listener>, p: RowPlan)
    requires on == Listeners.OnPort(ls, |ls|, port) && forall l :: l in on <==> l in ls && l.port == port
    ensures p in PortRows(rule, dk, ls, port) <==> RowOfPort(rule, dk, ls, port, p)
  {
    var cs := ContainersAt(dk, port);
    if on != [] { assert on[0] in on; }
    ContainerRowIn(port, cs, p);
    ListenerRowIn(rule, on, p);
  }

  lemma ContainerRowIn(port: int, cs: seq<ContainerRef>, p: RowPlan)
    ensures p in ContainerRows(port, cs, |cs|) <==> exists c :: c in cs && p == ContainerRow(port, c)
  {
    ContainerRowsMembers(port, cs, |cs|);
    if c :| c in cs && p == ContainerRow(port, c) {
      var i :| 0 <= i < |cs| && cs[i] == c;
    }
  }

  lemma ListenerRowIn(rule: Listener -> Option<RowPlan>, on: seq<Listener>, p: RowPlan)
    ensures p in ListenerRows(rule, on, |on|) <==> exists l :: l in on && rule(l) == Some(p)
  {
    ListenerRowsMembers(rule, on, |on|);
    if l :| l in on && rule(l) == Some(p) {
      var i :| 0 <= i < |on| && on[i] == l;
    }
  }

  ghost predicate RowOfPorts(rule: Listener -> Option<RowPlan>, dk: DockerState, ls: seq<Listener>, ports: seq<int>,
                             n: nat, p: RowPlan)
    requires n <= |ports|
  {
    exists i :: 0 <= i < n && RowOfPort(rule, dk, ls, ports[i], p)
  }

  lemma OneMorePort(rule: Listener -> Option<RowPlan>, dk: DockerState, ls: seq<Listener>, ports: seq<int>, n: nat,
                    p: RowPlan)
    requires 0 < n <= |ports|
    ensures RowOfPorts(rule, dk, ls, ports, n, p) <==>
      RowOfPorts(rule, dk, ls, ports, n - 1, p) || RowOfPort(rule, dk, ls, ports[n - 1], p)
  {
  }

  lemma {:induction false} AllRowsMembers(rule: Listener -> Option<RowPlan>, dk: DockerState, ls: seq<Listener>,
                                          ports: seq<int>, n: nat)
    requires n <= |ports|
    ensures forall p :: p in AllRows(rule, dk, ls, ports, n) <==> RowOfPorts(rule, dk, ls, ports, n, p)
  {
    if n > 0 {
      AllRowsMembers(rule, dk, ls, ports, n - 1);
      PortRowsMembers(rule, dk, ls, ports[n - 1]);
      forall p ensures p in AllRows(rule, dk, ls, ports, n) <==> RowOfPorts(rule, dk, ls, ports, n, p) {
        OneMorePort(rule, dk, ls, ports, n, p);
      }
    }
  }

  ghost predicate RowPlannedFor(sys: Sys, lst: Listing, dk: DockerState, lookup: int -> Lookup, ports: seq<int>,
                                p: RowPlan)
  {
    exists port :: port in ports && RowOfPort(Ruling(sys, lst.namesUnavailable, dk, lookup), dk, lst.listeners, port, p)
  }

  lemma PlannedRowsMembers(sys: Sys, lst: Listing, dk: DockerState, lookup: int -> Lookup, ports: seq<int>)
    ensures forall p :: p in PlannedRows(sys, lst, dk, lookup, ports) <==> RowPlannedFor(sys, lst, dk, lookup, ports, p)
  {
    var rule := Ruling(sys, lst.namesUnavailable, dk, lookup);
    AllRowsMembers(rule, dk, lst.listeners, ports, |ports|);
    forall p ensures p in PlannedRows(sys, lst, dk, lookup, ports) <==> RowPlannedFor(sys, lst, dk, lookup, ports, p) {
      if port :| port in ports && RowOfPort(rule, dk, lst.listeners, port, p) {
        var i :| 0 <= i < |ports| && ports[i] == port;
      }
    }
  }

  // ---- what is targeted -----------------------------------------------------------------

  /** Everything that must hold before a process may be killed. */
  predicate Actable(sys: Sys, lst: Listing, lookup: int -> Lookup, l: Listener) {
    && l.pid > 1 && l.pid != sys.self && !(sys.os == Windows && l.pid == 4)
    && !sys.infra(l.process)
    && (lst.namesUnavailable ==> l.process != "")
    && Verifiable(lookup(l.pid))
  }

  /** Why a listener is refused, whatever order the checks come in. */
  predicate RefusalFits(sys: Sys, nameless: bool, dk: DockerState, lookup: int -> Lookup, l: Listener,
                        why: RowReason)
  {
    var plain := !sys.infra(l.process);
    var allowed := l.pid > 1 && l.pid != sys.self && !(sys.os == Windows && l.pid == 4);
    var named := l.process != "" || !nameless;
    match why
    case HeldByDocker(failed, missing) =>
      !plain && (failed <==> dk.warned) && (missing <==> !dk.warned && !dk.available)
    case Protected(NotVisible) => plain && l.pid == 0
    case Protected(LowPid) => plain && l.pid <= 1 && l.pid != 0
    case Protected(Itself) => plain && l.pid > 1 && l.pid == sys.self
    case Protected(WindowsKernel) => plain && sys.os == Windows && l.pid == 4 && l.pid != sys.self
    case Nameless => plain && allowed && !named
    case Unverifiable => plain && allowed && named && !Verifiable(lookup(l.pid))
    case _ => false
  }

  /** The lookup gave a start token, or says that the process is gone or that the
      platform has no identities. */
  predicate Verifiable(id: Lookup) {
    ReadAs(id, id.start) || id.err == Some(NotFound) || WithoutIdentities(id)
  }

  /** Each row that is refused says why, and that is so. */
  lemma RefusedRowsSayWhy(sys: Sys, lst: Listing, dk: DockerState, lookup: int -> Lookup, ports: seq<int>, p: RowPlan)
    requires p in PlannedRows(sys, lst, dk, lookup, ports) && p.status == RowFailed
    ensures p.reason.Some? && exists l ::
      && l in lst.listeners && l.port in ports && p == RefusedRow(l, p.reason.value)
      && RefusalFits(sys, lst.namesUnavailable, dk, lookup, l, p.reason.value)
  {
    PlannedRowsMembers(sys, lst, dk, lookup, ports);
    var rule := Ruling(sys, lst.namesUnavailable, dk, lookup);
    var port :| port in ports && RowOfPort(rule, dk, lst.listeners, port, p);
    var l :| l in lst.listeners && l.port == port && rule(l) == Some(p);
    RefusalOfListener(sys, lst.namesUnavailable, dk, lookup, l);
  }

  lemma RefusalOfListener(sys: Sys, nameless: bool, dk: DockerState, lookup: int -> Lookup, l: Listener)
    ensures
      var p := ListenerRow(sys, nameless, dk, lookup, l);
      p.Some? && p.value.status == RowFailed ==>
        && p.value.reason.Some? && p.value == RefusedRow(l, p.value.reason.value)
        && RefusalFits(sys, nameless, dk, lookup, l, p.value.reason.value)
  {
    CapturingMeans(lookup(l.pid));
  }

  lemma RowTargets(sys: Sys, lst: Listing, dk: DockerState, lookup: int -> Lookup, l: Listener)
    ensures
      var p := ListenerRow(sys, lst.namesUnavailable, dk, lookup, l);
      if Actable(sys, lst, lookup, l) then p == Some(KillRow(l)) else p.Some? ==> p.value.target.None?
  {
  }

  /** A process is targeted exactly when some row on a requested port may be acted
      on, a container exactly when it publishes one; nothing is targeted twice. */
  lemma TargetedExactly(sys: Sys, lst: Listing, dk: DockerState, lookup: int -> Lookup, ports: seq<int>)
    ensures
      var ts := Targets(PlannedRows(sys, lst, dk, lookup, ports));
      && NoDuplicates(ts)
      && (forall pid :: Process(pid) in ts <==>
            exists l :: l in lst.listeners && l.port in ports && l.pid == pid && Actable(sys, lst, lookup, l))
      && (forall cid :: Ctr(cid) in ts <==>
            exists port, c :: port in ports && c in ContainersAt(dk, port) && c.id == cid)
  {
    var plan := PlannedRows(sys, lst, dk, lookup, ports);
    TargetsMeans(plan);
    PlannedRowsMembers(sys, lst, dk, lookup, ports);
    forall pid ensures Process(pid) in Targets(plan) <==>
      exists l :: l in lst.listeners && l.port in ports && l.pid == pid && Actable(sys, lst, lookup, l)
    {
      ProcessTargeted(sys, lst, dk, lookup, ports, plan, pid);
    }
    forall cid ensures Ctr(cid) in Targets(plan) <==>
      exists port, c :: port in ports && c in ContainersAt(dk, port) && c.id == cid
    {
      ContainerTargeted(sys, lst, dk, lookup, ports, plan, cid);
    }
  }

  lemma ProcessTargeted(sys: Sys, lst: Listing, dk: DockerState, lookup: int -> Lookup, ports: seq<int>,
                        plan: seq<RowPlan>, pid: int)
    requires forall p :: p in plan <==> RowPlannedFor(sys, lst, dk, lookup, ports, p)
    ensures (exists p :: p in plan && p.target == Some(Process(pid))) <==>
      exists l :: l in lst.listeners && l.port in ports && l.pid == pid && Actable(sys, lst, lookup, l)
  {
    var rule := Ruling(sys, lst.namesUnavailable, dk, lookup);
    if p :| p in plan && p.target == Some(Process(pid)) {
      var port :| port in ports && RowOfPort(rule, dk, lst.listeners, port, p);
      var l :| l in lst.listeners && l.port == port && rule(l) == Some(p);
      RowTargets(sys, lst, dk, lookup, l);
    }
    if l :| l in lst.listeners && l.port in ports && l.pid == pid && Actable(sys, lst, lookup, l) {
      RowTargets(sys, lst, dk, lookup, l);
      assert rule(l) == Some(KillRow(l));
      assert RowOfPort(rule, dk, lst.listeners, l.port, KillRow(l));
      assert KillRow(l) in plan;
    }
  }

  lemma ContainerTargeted(sys: Sys, lst: Listing, dk: DockerState, lookup: int -> Lookup, ports: seq<int>,
                          plan: seq<RowPlan>, cid: string)
    requires forall p :: p in plan <==> RowPlannedFor(sys, lst, dk, lookup, ports, p)
    ensures (exists p :: p in plan && p.target == Some(Ctr(cid))) <==>
      exists port, c :: port in ports && c in ContainersAt(dk, port) && c.id == cid
  {
    var rule := Ruling(sys, lst.namesUnavailable, dk, lookup);
    if p :| p in plan && p.target == Some(Ctr(cid)) {
      var port :| port in ports && RowOfPort(rule, dk, lst.listeners, port, p);
      if l :| l in lst.listeners && l.port == port && rule(l) == Some(p) {
        RowTargets(sys, lst, dk, lookup, l);
      }
    }
    if port, c :| port in ports && c in ContainersAt(dk, port) && c.id == cid {
      assert RowOfPort(rule, dk, lst.listeners, port, ContainerRow(port, c));
      assert ContainerRow(port, c) in plan;
    }
  }

  /** The part of Actable that depends on the name a row shows. */
  predicate NameAllows(sys: Sys, lst: Listing, l: Listener) {
    !sys.infra(l.process) && (lst.namesUnavailable ==> l.process != "")
  }

  /** Where some row of a PID may be acted on, the name of each of its rows allows
      it: a condition on the listing that can be tested before anything is planned. */
  ghost predicate NamesAgree(sys: Sys, lst: Listing, lookup: int -> Lookup, ports: seq<int>) {
    forall l, m | l in lst.listeners && m in lst.listeners && l.pid == m.pid ::
      m.port in ports && Actable(sys, lst, lookup, m) ==> NameAllows(sys, lst, l)
  }

  /** No row of a targeted process forbids acting on it - it is not PID 1 or below,
      killport itself, the Windows kernel, part of Docker, without a name where
      names are missing, or one whose identity could not be looked up - if and only
      if the names of its rows agree about it. */
  lemma TargetsAreSafeExactly(sys: Sys, lst: Listing, dk: DockerState, lookup: int -> Lookup, ports: seq<int>)
    ensures
      (forall l | l in lst.listeners && Process(l.pid) in Targets(PlannedRows(sys, lst, dk, lookup, ports)) ::
         Actable(sys, lst, lookup, l))
      <==> NamesAgree(sys, lst, lookup, ports)
  {
    TargetedExactly(sys, lst, dk, lookup, ports);
    var ts := Targets(PlannedRows(sys, lst, dk, lookup, ports));
    if NamesAgree(sys, lst, lookup, ports) {
      forall l | l in lst.listeners && Process(l.pid) in ts ensures Actable(sys, lst, lookup, l) {
        var m :| m in lst.listeners && m.port in ports && m.pid == l.pid && Actable(sys, lst, lookup, m);
        assert NameAllows(sys, lst, l);
      }
    } else {
      var l, m :| l in lst.listeners && m in lst.listeners && l.pid == m.pid && m.port in ports
        && Actable(sys, lst, lookup, m) && !NameAllows(sys, lst, l);
      assert Process(m.pid) in ts && !Actable(sys, lst, lookup, l);
    }
  }

  ghost predicate OneName(ls: seq<Listener>) {
    forall l, m | l in ls && m in ls && l.pid == m.pid :: l.process == m.process
  }

  /** One name per PID is enough. */
  lemma TargetsAreSafe(sys: Sys, lst: Listing, dk: DockerState, lookup: int -> Lookup, ports: seq<int>, l: Listener)
    requires OneName(lst.listeners) && l in lst.listeners
    requires Process(l.pid) in Targets(PlannedRows(sys, lst, dk, lookup, ports))
    ensures Actable(sys, lst, lookup, l)
  {
    TargetsAreSafeExactly(sys, lst, dk, lookup, ports);
  }

  /** Names can disagree: one PID, shown under an ordinary name on a requested port
      and under a Docker name on another, is targeted all the same. */
  lemma TwoNamesTarget(sys: Sys, lookup: int -> Lookup, app: string, docker: string)
    requires !sys.infra(app) && sys.infra(docker) && app != ""
    requires sys.self != 700 && Capturing(lookup(700)) != Unverified
    ensures
      var lst := Listing([Listener(80, 700, app, ""), Listener(443, 700, docker, "")], false);
      && Process(700) in Targets(PlannedRows(sys, lst, DockerState(false, false, map[]), lookup, [80]))
      && lst.listeners[1].pid == 700 && !Actable(sys, lst, lookup, lst.listeners[1])
  {
    var lst := Listing([Listener(80, 700, app, ""), Listener(443, 700, docker, "")], false);
    TargetedExactly(sys, lst, DockerState(false, false, map[]), lookup, [80]);
    var l := lst.listeners[0];
    assert l in lst.listeners && l.port in [80] && Actable(sys, lst, lookup, l);
  }

  // ---- what is covered -------------------------------------------------------------------

  /** A row with a target is planned and names its owner, one without is a refusal
      or a free port. */
  predicate WellShaped(p: RowPlan) {
    && (p.owner.Some? ==> p.owner.value.port == p.port)
    && (if p.target.Some? then p.status == RowPlanned && p.owner.Some? && p.reason.None?
        else if p.owner.Some? then p.status == RowFailed && p.reason.Some?
        else p.status == RowFree && p.reason.None?)
  }

  lemma RowsAreWellShaped(sys: Sys, lst: Listing, dk: DockerState, lookup: int -> Lookup, ports: seq<int>)
    ensures forall p | p in PlannedRows(sys, lst, dk, lookup, ports) :: WellShaped(p) && p.port in ports
  {
    PlannedRowsMembers(sys, lst, dk, lookup, ports);
    var rule := Ruling(sys, lst.namesUnavailable, dk, lookup);
    forall p | p in PlannedRows(sys, lst, dk, lookup, ports) ensures WellShaped(p) && p.port in ports {
      var port :| port in ports && RowOfPort(rule, dk, lst.listeners, port, p);
      PortRowShape(sys, lst, dk, lookup, port, p);
    }
  }

  lemma ListenerRowShape(sys: Sys, nameless: bool, dk: DockerState, lookup: int -> Lookup, l: Listener)
    ensures
      var p := ListenerRow(sys, nameless, dk, lookup, l);
      p.Some? ==> WellShaped(p.value) && p.value.port == l.port && p.value.owner == Some(OwnerKey(l.port, l.pid, ""))
  {
  }

  lemma PortRowShape(sys: Sys, lst: Listing, dk: DockerState, lookup: int -> Lookup, port: int, p: RowPlan)
    requires RowOfPort(Ruling(sys, lst.namesUnavailable, dk, lookup), dk, lst.listeners, port, p)
    ensures WellShaped(p) && p.port == port
  {
    var rule := Ruling(sys, lst.namesUnavailable, dk, lookup);
    if l :| l in lst.listeners && l.port == port && rule(l) == Some(p) {
      ListenerRowShape(sys, lst.namesUnavailable, dk, lookup, l);
    }
  }

  /** The row is that of a container on its port, or of a listener on it. */
  ghost predicate RowNames(lst: Listing, dk: DockerState, p: RowPlan) {
    || (exists c :: c in ContainersAt(dk, p.port) && p.owner == Some(OwnerKey(p.port, 0, c.id))
                    && p.name == c.name && p.target == Some(Ctr(c.id)))
    || (exists l :: l in lst.listeners && l.port == p.port && p.owner == Some(OwnerKey(p.port, l.pid, ""))
                    && p.name == l.process && (p.target.None? || p.target == Some(Process(l.pid))))
  }

  /** A row that has an owner is shown under that owner's key and name, and what is done
      for it is done to that owner. */
  lemma RowsNameTheirOwners(sys: Sys, lst: Listing, dk: DockerState, lookup: int -> Lookup, ports: seq<int>, p: RowPlan)
    requires p in PlannedRows(sys, lst, dk, lookup, ports) && p.owner.Some?
    ensures RowNames(lst, dk, p)
  {
    PlannedRowsMembers(sys, lst, dk, lookup, ports);
    var port :| port in ports &&
      RowOfPort(Ruling(sys, lst.namesUnavailable, dk, lookup), dk, lst.listeners, port, p);
    PortRowNames(sys, lst, dk, lookup, port, p);
  }

  lemma PortRowNames(sys: Sys, lst: Listing, dk: DockerState, lookup: int -> Lookup, port: int, p: RowPlan)
    requires RowOfPort(Ruling(sys, lst.namesUnavailable, dk, lookup), dk, lst.listeners, port, p) && p.owner.Some?
    ensures RowNames(lst, dk, p)
  {
    if c :| c in ContainersAt(dk, port) && p == ContainerRow(port, c) {
      assert p.name == c.name;
    } else {
      var l :| l in lst.listeners && l.port == port && ListenerRow(sys, lst.namesUnavailable, dk, lookup, l) == Some(p);
      ListenerRowNames(sys, lst.namesUnavailable, dk, lookup, l);
    }
  }

  lemma ListenerRowNames(sys: Sys, nameless: bool, dk: DockerState, lookup: int -> Lookup, l: Listener)
    ensures
      var p := ListenerRow(sys, nameless, dk, lookup, l);
      p.Some? ==>
        && p.value.owner == Some(OwnerKey(l.port, l.pid, "")) && p.value.port == l.port && p.value.name == l.process
        && (p.value.target.None? || p.value.target == Some(Process(l.pid)))
  {
  }

  ghost predicate HasRow(plan: seq<RowPlan>, key: OwnerKey) {
    exists p :: p in plan && p.owner == Some(key)
  }

  /** Every owner of a requested port has a row under its own key, except a Docker
      process that a container on the port explains; a port has a free row exactly
      when it has no owner at all. */
  lemma EveryOwnerHasRow(sys: Sys, lst: Listing, dk: DockerState, lookup: int -> Lookup, ports: seq<int>, port: int)
    requires port in ports
    ensures
      var plan := PlannedRows(sys, lst, dk, lookup, ports);
      && (forall c | c in ContainersAt(dk, port) :: HasRow(plan, OwnerKey(port, 0, c.id)))
      && (forall l | l in lst.listeners && l.port == port ::
            HasRow(plan, OwnerKey(port, l.pid, "")) || (sys.infra(l.process) && ContainersAt(dk, port) != []))
      && (FreeRow(port) in plan <==> ContainersAt(dk, port) == [] && forall l | l in lst.listeners :: l.port != port)
  {
    var plan := PlannedRows(sys, lst, dk, lookup, ports);
    forall c | c in ContainersAt(dk, port) ensures HasRow(plan, OwnerKey(port, 0, c.id)) {
      ContainerHasRow(sys, lst, dk, lookup, ports, port, c);
    }
    forall l | l in lst.listeners && l.port == port && !(sys.infra(l.process) && ContainersAt(dk, port) != [])
      ensures HasRow(plan, OwnerKey(port, l.pid, ""))
    {
      ListenerHasRow(sys, lst, dk, lookup, ports, l);
    }
    FreeRowExactly(sys, lst, dk, lookup, ports, port);
  }

  lemma ContainerHasRow(sys: Sys, lst: Listing, dk: DockerState, lookup: int -> Lookup, ports: seq<int>, port: int,
                        c: ContainerRef)
    requires port in ports && c in ContainersAt(dk, port)
    ensures HasRow(PlannedRows(sys, lst, dk, lookup, ports), OwnerKey(port, 0, c.id))
  {
    PlannedRowsMembers(sys, lst, dk, lookup, ports);
    assert RowOfPort(Ruling(sys, lst.namesUnavailable, dk, lookup), dk, lst.listeners, port, ContainerRow(port, c));
    assert ContainerRow(port, c) in PlannedRows(sys, lst, dk, lookup, ports);
  }

  lemma ListenerHasRow(sys: Sys, lst: Listing, dk: DockerState, lookup: int -> Lookup, ports: seq<int>, l: Listener)
    requires l.port in ports && l in lst.listeners && !(sys.infra(l.process) && ContainersAt(dk, l.port) != [])
    ensures HasRow(PlannedRows(sys, lst, dk, lookup, ports), OwnerKey(l.port, l.pid, ""))
  {
    PlannedRowsMembers(sys, lst, dk, lookup, ports);
    var rule := Ruling(sys, lst.namesUnavailable, dk, lookup);
    ListenerRowShape(sys, lst.namesUnavailable, dk, lookup, l);
    assert RowOfPort(rule, dk, lst.listeners, l.port, rule(l).value);
    assert rule(l).value in PlannedRows(sys, lst, dk, lookup, ports);
  }

  lemma FreeRowMeans(sys: Sys, lst: Listing, dk: DockerState, lookup: int -> Lookup, q: int, port: int)
    requires RowOfPort(Ruling(sys, lst.namesUnavailable, dk, lookup), dk, lst.listeners, q, FreeRow(port))
    ensures q == port && ContainersAt(dk, port) == [] && forall l | l in lst.listeners :: l.port != port
  {
    var rule := Ruling(sys, lst.namesUnavailable, dk, lookup);
    if l :| l in lst.listeners && l.port == q && rule(l) == Some(FreeRow(port)) {
      ListenerRowShape(sys, lst.namesUnavailable, dk, lookup, l);
      assert false;
    }
  }

  lemma FreeRowExactly(sys: Sys, lst: Listing, dk: DockerState, lookup: int -> Lookup, ports: seq<int>, port: int)
    requires port in ports
    ensures FreeRow(port) in PlannedRows(sys, lst, dk, lookup, ports) <==>
      ContainersAt(dk, port) == [] && forall l | l in lst.listeners :: l.port != port
  {
    var rule := Ruling(sys, lst.namesUnavailable, dk, lookup);
    PlannedRowsMembers(sys, lst, dk, lookup, ports);
    if ContainersAt(dk, port) == [] && forall l | l in lst.listeners :: l.port != port {
      assert RowOfPort(rule, dk, lst.listeners, port, FreeRow(port));
    }
    if FreeRow(port) in PlannedRows(sys, lst, dk, lookup, ports) {
      var q :| q in ports && RowOfPort(rule, dk, lst.listeners, q, FreeRow(port));
      FreeRowMeans(sys, lst, dk, lookup, q, port);
    }
  }
}
