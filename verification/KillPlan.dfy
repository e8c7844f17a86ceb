/** internal/cli/kill.go: planKill. */
module KillPlan {
  import opened Domain
  import opened KillRows
  import opened KillDraft
  import Listeners

  lemma Regroup<T>(a: seq<T>, b: seq<T>, c: seq<T>)
    ensures (a + b) + c == a + (b + c)
  {
  }

  /** The draft of plan, extended by the rows of the first n containers. */
  ghost predicate ContainersSoFar(port: int, cs: seq<ContainerRef>, n: nat, d: Draft, lookup: int -> Lookup,
                                  plan: seq<RowPlan>)
    requires n <= |cs|
    reads d, d.rows, d.acts
  {
    Drafted(d, plan + ContainerRows(port, cs, n), lookup)
  }

  lemma NoContainers(port: int, cs: seq<ContainerRef>, d: Draft, lookup: int -> Lookup, plan: seq<RowPlan>)
    requires Drafted(d, plan, lookup)
    ensures ContainersSoFar(port, cs, 0, d, lookup, plan)
  {
    assert plan + ContainerRows(port, cs, 0) == plan;
  }

  method NextContainer(port: int, cs: seq<ContainerRef>, n: nat, d: Draft, lookup: int -> Lookup,
                       ghost plan: seq<RowPlan>)
    requires n < |cs| && ContainersSoFar(port, cs, n, d, lookup, plan)
    modifies d
    ensures ContainersSoFar(port, cs, n + 1, d, lookup, plan) && fresh(d.made - old(d.made))
  {
    ghost var done := PlanContainer(port, cs[n], d, lookup, plan + ContainerRows(port, cs, n));
    Regroup(plan, ContainerRows(port, cs, n), [ContainerRow(port, cs[n])]);
  }

  method PlanContainers(port: int, cs: seq<ContainerRef>, d: Draft, lookup: int -> Lookup, ghost plan: seq<RowPlan>)
    requires Drafted(d, plan, lookup)
    modifies d
    ensures ContainersSoFar(port, cs, |cs|, d, lookup, plan) && fresh(d.made - old(d.made))
  {
    NoContainers(port, cs, d, lookup, plan);
    ghost var before := d.made;
    var n := 0;
    while n < |cs|
      invariant n <= |cs| && ContainersSoFar(port, cs, n, d, lookup, plan)
      invariant fresh(d.made - before)
    {
      NextContainer(port, cs, n, d, lookup, plan);
      n := n + 1;
    }
  }

  /** The draft of plan, extended by the rows of the first n listeners. */
  ghost predicate ListenersSoFar(rule: Listener -> Option<RowPlan>, ls: seq<Listener>, n: nat, d: Draft,
                                 lookup: int -> Lookup, plan: seq<RowPlan>)
    requires n <= |ls|
    reads d, d.rows, d.acts
  {
    Drafted(d, plan + ListenerRows(rule, ls, n), lookup)
  }

  lemma NoListeners(rule: Listener -> Option<RowPlan>, ls: seq<Listener>, d: Draft, lookup: int -> Lookup,
                    plan: seq<RowPlan>)
    requires Drafted(d, plan, lookup)
    ensures ListenersSoFar(rule, ls, 0, d, lookup, plan)
  {
    assert plan + ListenerRows(rule, ls, 0) == plan;
  }

  method NextListener(sys: Sys, nameless: bool, dk: DockerState, lookup: int -> Lookup, ls: seq<Listener>, n: nat,
                      d: Draft, ghost rule: Listener -> Option<RowPlan>, ghost plan: seq<RowPlan>)
    requires n < |ls| && ListenersSoFar(rule, ls, n, d, lookup, plan) && rule == Ruling(sys, nameless, dk, lookup)
    modifies d
    ensures ListenersSoFar(rule, ls, n + 1, d, lookup, plan) && fresh(d.made - old(d.made))
  {
    ghost var done := PlanListener(sys, nameless, dk, lookup, ls[n], d, rule(ls[n]), plan + ListenerRows(rule, ls, n));
    Regroup(plan, ListenerRows(rule, ls, n), Present(rule(ls[n])));
  }

  method PlanListeners(sys: Sys, nameless: bool, dk: DockerState, lookup: int -> Lookup, ls: seq<Listener>, d: Draft,
                       ghost rule: Listener -> Option<RowPlan>, ghost plan: seq<RowPlan>)
    requires Drafted(d, plan, lookup) && rule == Ruling(sys, nameless, dk, lookup)
    modifies d
    ensures ListenersSoFar(rule, ls, |ls|, d, lookup, plan) && fresh(d.made - old(d.made))
  {
    NoListeners(rule, ls, d, lookup, plan);
    ghost var before := d.made;
    var n := 0;
    while n < |ls|
      invariant n <= |ls| && ListenersSoFar(rule, ls, n, d, lookup, plan)
      invariant fresh(d.made - before)
    {
      NextListener(sys, nameless, dk, lookup, ls, n, d, rule, plan);
      n := n + 1;
    }
  }

  method PlanOwners(sys: Sys, nameless: bool, dk: DockerState, lookup: int -> Lookup, port: int,
                    conts: seq<ContainerRef>, on: seq<Listener>, d: Draft,
                    ghost rule: Listener -> Option<RowPlan>, ghost plan: seq<RowPlan>)
    returns (ghost done: seq<RowPlan>)
    requires Drafted(d, plan, lookup)
    requires rule == Ruling(sys, nameless, dk, lookup)
    modifies d
    ensures done == plan + (ContainerRows(port, conts, |conts|) + ListenerRows(rule, on, |on|))
    ensures Drafted(d, done, lookup) && fresh(d.made - old(d.made))
  {
    PlanContainers(port, conts, d, lookup, plan);
    PlanListeners(sys, nameless, dk, lookup, on, d, rule, plan + ContainerRows(port, conts, |conts|));
    done := plan + (ContainerRows(port, conts, |conts|) + ListenerRows(rule, on, |on|));
    Regroup(plan, ContainerRows(port, conts, |conts|), ListenerRows(rule, on, |on|));
  }

  method PlanPort(sys: Sys, nameless: bool, dk: DockerState, lookup: int -> Lookup, port: int,
                  byPort: map<int, seq<Listener>>, ls: seq<Listener>, d: Draft,
                  ghost rule: Listener -> Option<RowPlan>, ghost plan: seq<RowPlan>)
    returns (ghost done: seq<RowPlan>)
    requires Drafted(d, plan, lookup) && Listeners.Grouped(byPort, ls, |ls|)
    requires rule == Ruling(sys, nameless, dk, lookup)
    modifies d
    ensures done == plan + PortRows(rule, dk, ls, port)
    ensures Drafted(d, done, lookup) && fresh(d.made - old(d.made))
  {
    var conts := ContainersAt(dk, port);
    var on := Listeners.Group(byPort, port);
    if |conts| == 0 && |on| == 0 {
      done := PlanFree(port, d, lookup, plan);
    } else {
      done := PlanOwners(sys, nameless, dk, lookup, port, conts, on, d, rule, plan);
    }
  }

  method NewDraft(ghost lookup: int -> Lookup) returns (d: Draft)
    ensures Drafted(d, [], lookup) && fresh(d) && fresh(d.made)
  {
    d := new Draft();
  }

  /** The first n ports have been planned. */
  ghost predicate PlannedSoFar(rule: Listener -> Option<RowPlan>, dk: DockerState, lst: Listing, ports: seq<int>,
                               n: nat, d: Draft, lookup: int -> Lookup)
    requires n <= |ports|
    reads d, d.rows, d.acts
  {
    Drafted(d, AllRows(rule, dk, lst.listeners, ports, n), lookup)
  }

  method PlanNext(sys: Sys, lst: Listing, dk: DockerState, lookup: int -> Lookup, ports: seq<int>, n: nat,
                  byPort: map<int, seq<Listener>>, d: Draft, ghost rule: Listener -> Option<RowPlan>)
    requires n < |ports| && PlannedSoFar(rule, dk, lst, ports, n, d, lookup)
    requires Listeners.Grouped(byPort, lst.listeners, |lst.listeners|)
    requires rule == Ruling(sys, lst.namesUnavailable, dk, lookup)
    modifies d
    ensures PlannedSoFar(rule, dk, lst, ports, n + 1, d, lookup) && fresh(d.made - old(d.made))
  {
    ghost var done := PlanPort(sys, lst.namesUnavailable, dk, lookup, ports[n], byPort, lst.listeners, d, rule,
                               AllRows(rule, dk, lst.listeners, ports, n));
  }

  method DraftAll(sys: Sys, ports: seq<int>, lst: Listing, dk: DockerState, lookup: int -> Lookup)
    returns (d: Draft)
    ensures Drafted(d, PlannedRows(sys, lst, dk, lookup, ports), lookup) && fresh(d) && fresh(d.made)
  {
    d := NewDraft(lookup);
    ghost var rule := Ruling(sys, lst.namesUnavailable, dk, lookup);
    PlanPorts(sys, lst, dk, lookup, ports, d, rule);
  }

  method PlanPorts(sys: Sys, lst: Listing, dk: DockerState, lookup: int -> Lookup, ports: seq<int>, d: Draft,
                   ghost rule: Listener -> Option<RowPlan>)
    requires Drafted(d, [], lookup) && rule == Ruling(sys, lst.namesUnavailable, dk, lookup)
    modifies d
    ensures PlannedSoFar(rule, dk, lst, ports, |ports|, d, lookup) && fresh(d.made - old(d.made))
  {
    var byPort := Listeners.GroupByPort(lst.listeners);
    for n := 0 to |ports|
      invariant PlannedSoFar(rule, dk, lst, ports, n, d, lookup) && fresh(d.made - old(d.made))
    {
      PlanNext(sys, lst, dk, lookup, ports, n, byPort, d, rule);
    }
  }

  /** Every row shows what the listing and Docker call for; rows share one act per
      PID and one per container, listed in the order they first come up. */
  method PlanKill(sys: Sys, ports: seq<int>, lst: Listing, dk: DockerState, lookup: int -> Lookup)
    returns (rows: seq<Row>, acts: seq<Act>)
    ensures RowsShow(rows, acts, PlannedRows(sys, lst, dk, lookup, ports))
    ensures ActsAre(acts, Targets(PlannedRows(sys, lst, dk, lookup, ports)))
    ensures forall a | a in acts && a.target.Process? :: a.captured == Capturing(lookup(a.target.pid)) != Unverified
    ensures fresh(rows) && fresh(acts)
  {
    var d := DraftAll(sys, ports, lst, dk, lookup);
    rows, acts := d.rows, d.acts;
    forall a | a in acts && a.target.Process? ensures a.captured == Capturing(lookup(a.target.pid)) != Unverified {
      ListedIsVerified(d, PlannedRows(sys, lst, dk, lookup, ports), lookup, a);
    }
  }

  lemma ListedIsVerified(d: Draft, plan: seq<RowPlan>, lookup: int -> Lookup, a: Act)
    requires Drafted(d, plan, lookup) && a in d.acts && a.target.Process?
    ensures a.captured == Capturing(lookup(a.target.pid)) != Unverified
  {
    var i :| 0 <= i < |d.acts| && d.acts[i] == a;
    assert a.target in Targets(plan);
    var b := d.procAct[a.target.pid];
    assert d.ProcessKept(a.target.pid, lookup);
    var j :| 0 <= j < |d.acts| && d.acts[j] == b;
    TargetsMeans(plan);
  }
}
