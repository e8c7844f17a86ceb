/** internal/cli/kill.go: planKill's local state - the rows, the acts, and the maps
    that make rows share them. */
module KillDraft {
  import opened Domain
  import opened KillRows

  class Draft {
    var rows: seq<Row>
    var acts: seq<Act>
    var procAct: map<int, Act>
    var ctrAct: map<string, Act>
    ghost var made: set<object>      // every row and act so far

    /** The rows show the plan, and the acts are exactly one per target ts. */
    ghost predicate Valid(plan: seq<RowPlan>, ts: seq<Target>, lookup: int -> Lookup)
      reads this, rows, acts
    {
      RowsShow(rows, acts, plan) && ActsAre(acts, ts) && Kept(ts, lookup) && Made()
    }

    /** The maps lead from a PID or container to its act. */
    predicate Kept(ts: seq<Target>, lookup: int -> Lookup)
      reads this
    {
      && (forall pid | pid in procAct :: ProcessKept(pid, lookup))
      && (forall cid | cid in ctrAct :: ctrAct[cid].target == Ctr(cid) && ctrAct[cid] in acts)
      && (forall t | t in ts ::
            if t.Process? then t.pid in procAct && procAct[t.pid].captured != Unverified else t.cid in ctrAct)
    }

    predicate ProcessKept(pid: int, lookup: int -> Lookup)
      reads this
      requires pid in procAct
    {
      var a := procAct[pid];
      a.target == Process(pid) && a.captured == Capturing(lookup(pid)) && (a.captured != Unverified ==> a in acts)
    }

    ghost predicate Made()
      reads this
    {
      (forall i | 0 <= i < |rows| :: rows[i] in made) && (forall i | 0 <= i < |acts| :: acts[i] in made)
    }

    constructor ()
      ensures rows == [] && acts == [] && procAct == map[] && ctrAct == map[] && made == {}
    {
      rows, acts, procAct, ctrAct, made := [], [], map[], map[], {};
    }

    /** Adds the row for p, which shares act a. */
    method AddRow(p: RowPlan, a: Act?, ghost plan: seq<RowPlan>)
      requires RowsShow(rows, acts, plan) && Made()
      requires a == null <==> p.target.None?
      requires a != null ==> p.target == Some(a.target) && a in acts
      modifies this`rows, this`made
      ensures RowsShow(rows, acts, plan + [p])
      ensures Made() && fresh(made - old(made))
    {
      var row := new Row(p.port, p.owner, p.name, a, p.status, p.reason);
      rows := rows + [row];
      made := made + {row};
    }

    /** The act for a container: the one there is, or a new one. */
    method StopAct(c: ContainerRef, ghost plan: seq<RowPlan>, ghost ts: seq<Target>, lookup: int -> Lookup)
      returns (a: Act)
      requires Valid(plan, ts, lookup)
      modifies this`acts, this`ctrAct, this`made
      ensures Valid(plan, Push(ts, Some(Ctr(c.id))), lookup) && fresh(made - old(made))
      ensures a.target == Ctr(c.id) && a in acts
    {
      if c.id in ctrAct {
        a := ctrAct[c.id];
        assert a in acts;
      } else {
        a := new Act.Stop(c);
        ctrAct := ctrAct[c.id := a];
        acts := acts + [a];
        made := made + {a};
      }
    }

    /** The act for a PID: its identity is looked up once, and an act whose
        lookup failed is remembered but never listed. */
    method KillAct(l: Listener, ghost plan: seq<RowPlan>, ghost ts: seq<Target>, lookup: int -> Lookup) returns (a: Act)
      requires Valid(plan, ts, lookup)
      modifies this`acts, this`procAct, this`made
      ensures Valid(plan, if Capturing(lookup(l.pid)) == Unverified then ts else Push(ts, Some(Process(l.pid))), lookup)
      ensures fresh(made - old(made))
      ensures a.target == Process(l.pid) && a.captured == Capturing(lookup(l.pid))
      ensures a.captured != Unverified ==> a in acts
    {
      if l.pid in procAct {
        a := procAct[l.pid];
        assert ProcessKept(l.pid, lookup);
      } else {
        a := NewKillAct(l, plan, ts, lookup);
      }
    }

    method NewKillAct(l: Listener, ghost plan: seq<RowPlan>, ghost ts: seq<Target>, lookup: int -> Lookup)
      returns (a: Act)
      requires Valid(plan, ts, lookup) && l.pid !in procAct
      modifies this`acts, this`procAct, this`made
      ensures Valid(plan, if Capturing(lookup(l.pid)) == Unverified then ts else Push(ts, Some(Process(l.pid))), lookup)
      ensures fresh(made - old(made))
      ensures a.target == Process(l.pid) && a.captured == Capturing(lookup(l.pid))
      ensures a.captured != Unverified ==> a in acts
    {
      a := new Act.Kill(l.pid, l.process, lookup(l.pid));
      if a.captured == Unverified {
        procAct := procAct[l.pid := a];
      } else {
        List(a, l.pid, plan, ts, lookup);
      }
    }

    method List(a: Act, pid: int, ghost plan: seq<RowPlan>, ghost ts: seq<Target>, lookup: int -> Lookup)
      requires Valid(plan, ts, lookup) && pid !in procAct
      requires a.target == Process(pid) && a.captured == Capturing(lookup(pid)) != Unverified && a.err.None?
      modifies this`acts, this`procAct, this`made
      ensures Valid(plan, Push(ts, Some(Process(pid))), lookup)
      ensures made == old(made) + {a} && a in acts
    {
      procAct := procAct[pid := a];
      acts := acts + [a];
      made := made + {a};
    }

    method AddContainer(port: int, c: ContainerRef, ghost plan: seq<RowPlan>, ghost ts: seq<Target>,
                        lookup: int -> Lookup)
      requires Valid(plan, ts, lookup)
      modifies this
      ensures Valid(plan + [ContainerRow(port, c)], Push(ts, Some(Ctr(c.id))), lookup) && fresh(made - old(made))
    {
      var a := StopAct(c, plan, ts, lookup);
      AddRow(RowPlan(port, Some(OwnerKey(port, 0, c.id)), Some(Ctr(c.id)), c.name, RowPlanned, None), a, plan);
    }

    method AddFree(port: int, ghost plan: seq<RowPlan>, ghost ts: seq<Target>, lookup: int -> Lookup)
      requires Valid(plan, ts, lookup)
      modifies this
      ensures Valid(plan + [FreeRow(port)], ts, lookup) && fresh(made - old(made))
    {
      AddRow(FreeRow(port), null, plan);
    }

    method AddRefusal(l: Listener, reason: RowReason, ghost plan: seq<RowPlan>, ghost ts: seq<Target>,
                      lookup: int -> Lookup)
      requires Valid(plan, ts, lookup)
      modifies this
      ensures Valid(plan + [RefusedRow(l, reason)], ts, lookup) && fresh(made - old(made))
    {
      AddRow(RefusedRow(l, reason), null, plan);
    }

    method AddProcess(l: Listener, ghost plan: seq<RowPlan>, ghost ts: seq<Target>, lookup: int -> Lookup)
      requires Valid(plan, ts, lookup)
      modifies this
      ensures
        var p := if Capturing(lookup(l.pid)) == Unverified then RefusedRow(l, Unverifiable) else KillRow(l);
        Valid(plan + [p], Push(ts, p.target), lookup)
      ensures fresh(made - old(made))
    {
      var a := KillAct(l, plan, ts, lookup);
      if a.captured == Unverified {
        AddRow(RefusedRow(l, Unverifiable), null, plan);
      } else {
        AddRow(KillRow(l), a, plan);
      }
    }

    method AddListener(sys: Sys, nameless: bool, dk: DockerState, lookup: int -> Lookup, l: Listener,
                       ghost plan: seq<RowPlan>, ghost ts: seq<Target>)
      requires Valid(plan, ts, lookup)
      modifies this
      ensures
        var p := ListenerRow(sys, nameless, dk, lookup, l);
        if p.Some? then Valid(plan + [p.value], Push(ts, p.value.target), lookup) else Valid(plan, ts, lookup)
      ensures fresh(made - old(made))
    {
      var reason: Option<RowReason>;
      if sys.infra(l.process) {
        if |ContainersAt(dk, l.port)| > 0 {
          return;
        }
        reason := Some(HeldByDocker(dk.warned, !dk.warned && !dk.available));
      } else {
        reason := ProtectedReason(sys, l.pid);
      }
      if reason.None? && nameless && l.process == "" {
        reason := Some(Nameless);
      }
      if reason.Some? {
        AddRefusal(l, reason.value, plan, ts, lookup);
      } else {
        AddProcess(l, plan, ts, lookup);
      }
    }
  }

  /** rows[i] shows plan[i]; a row with a target shares an act of the list. */
  ghost predicate RowsShow(rows: seq<Row>, acts: seq<Act>, plan: seq<RowPlan>)
    reads rows
  {
    && |rows| == |plan|
    && (forall i | 0 <= i < |rows| :: rows[i].Shows(plan[i]) && (rows[i].act != null ==> rows[i].act in acts))
    && (forall i, j | 0 <= i < j < |rows| :: rows[i] != rows[j])
  }

  /** The acts have these targets, and nothing has been recorded on them. */
  ghost predicate ActsAre(acts: seq<Act>, ts: seq<Target>)
    reads acts
  {
    |acts| == |ts| && forall i | 0 <= i < |acts| :: acts[i].target == ts[i] && acts[i].err.None?
  }

  /** The draft's rows are those of the plan, and its acts those the plan calls for. */
  ghost predicate Drafted(d: Draft, plan: seq<RowPlan>, lookup: int -> Lookup)
    reads d, d.rows, d.acts
  {
    d.Valid(plan, Targets(plan), lookup)
  }

  method PlanContainer(port: int, c: ContainerRef, d: Draft, lookup: int -> Lookup, ghost plan: seq<RowPlan>)
    returns (ghost done: seq<RowPlan>)
    requires Drafted(d, plan, lookup)
    modifies d
    ensures done == plan + [ContainerRow(port, c)]
    ensures Drafted(d, done, lookup) && fresh(d.made - old(d.made))
  {
    d.AddContainer(port, c, plan, Targets(plan), lookup);
    done := plan + [ContainerRow(port, c)];
    TargetsSnoc(plan, ContainerRow(port, c));
  }

  method PlanListener(sys: Sys, nameless: bool, dk: DockerState, lookup: int -> Lookup, l: Listener, d: Draft,
                      ghost p: Option<RowPlan>, ghost plan: seq<RowPlan>)
    returns (ghost done: seq<RowPlan>)
    requires Drafted(d, plan, lookup) && p == ListenerRow(sys, nameless, dk, lookup, l)
    modifies d
    ensures done == plan + Present(p)
    ensures Drafted(d, done, lookup) && fresh(d.made - old(d.made))
  {
    d.AddListener(sys, nameless, dk, lookup, l, plan, Targets(plan));
    if p.Some? {
      TargetsSnoc(plan, p.value);
      done := plan + [p.value];
    } else {
      done := plan;
    }
  }

  method PlanFree(port: int, d: Draft, lookup: int -> Lookup, ghost plan: seq<RowPlan>)
    returns (ghost done: seq<RowPlan>)
    requires Drafted(d, plan, lookup)
    modifies d
    ensures done == plan + [FreeRow(port)]
    ensures Drafted(d, done, lookup) && fresh(d.made - old(d.made))
  {
    d.AddFree(port, plan, Targets(plan), lookup);
    done := plan + [FreeRow(port)];
    TargetsSnoc(plan, FreeRow(port));
  }
}
