/** internal/cli/kill.go: runKill, the classic kill as a whole. */
module KillCommand {
  import opened Domain
  import opened Sorting
  import opened KillRows
  import opened KillDraft
  import opened KillPlan
  import opened KillExecute
  import opened KillRun

  method AnyFailed(rows: seq<Row>) returns (failed: bool)
    ensures failed <==> exists r :: r in rows && r.status == RowFailed
  {
    failed := false;
    for n := 0 to |rows|
      invariant failed <==> exists r :: r in rows[..n] && r.status == RowFailed
    {
      assert rows[..n + 1] == rows[..n] + [rows[n]];
      failed := failed || rows[n].status == RowFailed;
    }
    assert rows[..|rows|] == rows;
  }

  method InitialOwners(ls: seq<Listener>, dk: DockerState) returns (m: set<OwnerKey>)
    ensures m == InitialSet(ls, dk)
  {
    m := {};
    for n := 0 to |ls|
      invariant m == set i | 0 <= i < n :: OwnerKey(ls[i].port, ls[i].pid, "")
    {
      m := m + {OwnerKey(ls[n].port, ls[n].pid, "")};
    }
    assert m == set l | l in ls :: OwnerKey(l.port, l.pid, "");
    ghost var native := m;
    var left := dk.owners.Keys;
    while left != {}
      invariant left <= dk.owners.Keys
      invariant m == native + set p, c | p in dk.owners && p !in left && c in dk.owners[p] :: OwnerKey(p, 0, c.id)
      decreases left
    {
      var port := Pick(left);
      left := left - {port};
      var cs := dk.owners[port];
      m := m + set c | c in cs :: OwnerKey(port, 0, c.id);
    }
  }

  method PlanRun(sys: Sys, ports: seq<int>, lst: Listing, dk: DockerState, lookup: int -> Lookup)
    returns (rows: seq<Row>, acts: seq<Act>)
    ensures RowsShow(rows, acts, PlannedRows(sys, lst, dk, lookup, ports))
    ensures ActsHave(acts, Targets(PlannedRows(sys, lst, dk, lookup, ports)))
    ensures DistinctActs(acts) && OneTargetEach(acts) && Captured(acts, lookup) && Unmarked(acts)
    ensures DistinctRows(rows) && forall i | 0 <= i < |rows| :: FromPlan(rows[i])
    ensures fresh(rows) && fresh(acts)
  {
    rows, acts := PlanKill(sys, ports, lst, dk, lookup);
    ghost var plan := PlannedRows(sys, lst, dk, lookup, ports);
    TargetsMeans(plan);
    TargetsDiffer(acts, Targets(plan));
    PlannedRowsAreFromPlan(sys, lst, dk, lookup, ports, rows, acts);
  }

  method PlanAndExecute(sys: Sys, ports: seq<int>, lst: Listing, dk: DockerState, lookup: int -> Lookup, dryRun: bool,
                        w: World)
    returns (rows: seq<Row>, acts: seq<Act>, calls: seq<Call>, ghost order: seq<nat>)
    ensures ActsHave(acts, Targets(PlannedRows(sys, lst, dk, lookup, ports)))
    ensures DistinctRows(rows) && forall i | 0 <= i < |rows| :: FromPlan(rows[i])
    ensures RowsShow(rows, acts, PlannedRows(sys, lst, dk, lookup, ports))
    ensures dryRun ==> calls == []
    ensures !dryRun ==> EveryOnce(order, |acts|) && calls == CallsIn(acts, order) && DifferentTargets(calls)
    ensures !dryRun ==> CallsAsked(sys, lst, dk, lookup, ports, calls) && CarriedOut(acts, w, lookup)
    ensures fresh(rows) && fresh(acts)
  {
    rows, acts := PlanRun(sys, ports, lst, dk, lookup);
    ghost var peak;
    calls, order, peak := Execute(acts, w, dryRun);
    if !dryRun {
      OneCallEach(acts, order);
      CallsExactly(acts, order, lookup);
      FitIsAsked(sys, lst, dk, lookup, ports, calls, acts);
      forall i | 0 <= i < |acts| ensures ErrorFits(w, lookup, acts[i].target, acts[i].err) {
        ErrorMeans(w, lookup, acts[i]);
      }
    }
  }

  ghost function WhichActed(rows: seq<Row>): (acted: seq<bool>)
    reads set i | 0 <= i < |rows| :: rows[i].act
    ensures ActedAre(acted, rows)
  {
    if rows == [] then [] else
      assert forall i | 0 <= i < |rows| - 1 :: rows[..|rows| - 1][i] == rows[i];
      WhichActed(rows[..|rows| - 1]) + [Acted(rows[|rows| - 1])]
  }

  /** What follows the acts of a real run. */
  method FinishRun(sys: Sys, ports: seq<int>, lst: Listing, dk: DockerState, lookup: int -> Lookup, w: World,
                   planned: seq<Row>, acts: seq<Act>, poll: nat -> Enumeration)
    returns (rows: seq<Row>, failed: bool, ghost acted: seq<bool>, ghost seen: Option<Sight>)
    requires DistinctRows(planned) && forall i | 0 <= i < |planned| :: FromPlan(planned[i])
    requires RowsShow(planned, acts, PlannedRows(sys, lst, dk, lookup, ports)) && CarriedOut(acts, w, lookup)
    modifies planned
    ensures failed <==> exists r :: r in rows && r.status == RowFailed
    ensures Ended(planned, acted, rows, seen, poll, InitialSet(lst.listeners, dk))
    ensures RowsOf(planned, acts, PlannedRows(sys, lst, dk, lookup, ports))
    ensures RowsEnd(planned, PlannedRows(sys, lst, dk, lookup, ports), w, lookup, seen, poll)
    ensures AddedRows(planned, rows, lst, dk) && CleanMeans(planned, rows, seen, poll)
  {
    ghost var plan := PlannedRows(sys, lst, dk, lookup, ports);
    ShownRows(planned, acts, plan);
    var initial := InitialOwners(lst.listeners, dk);
    rows, acted, seen := Finish(planned, initial, poll, Reasons(plan));
    failed := AnyFailed(rows);
    RowsEndAsSeen(sys, ports, lst, dk, lookup, w, planned, acts, acted, rows, seen, poll);
    AddedExplained(planned, acted, rows, seen, poll, lst, dk);
    EndedIsClean(planned, acted, rows, seen, poll, initial);
  }

  method Finish(planned: seq<Row>, initial: set<OwnerKey>, poll: nat -> Enumeration,
                ghost why: seq<Option<RowReason>>)
    returns (rows: seq<Row>, ghost acted: seq<bool>, ghost seen: Option<Sight>)
    requires StillRefused(planned, why)
    requires DistinctRows(planned) && forall i | 0 <= i < |planned| :: FromPlan(planned[i])
    modifies planned
    ensures Ended(planned, acted, rows, seen, poll, initial) && StillRefused(planned, why)
  {
    acted := WhichActed(planned);
    rows, seen := FinishRows(planned, initial, poll, acted, why);
    assert ActedAre(acted, planned);
  }

  /** runKill. In a dry run nothing is called and the rows are the plan. Otherwise the
      calls are those that the listing, Docker and the lookups call for, one each; every
      row ends as its act and the last enumeration say; and when no row failed, either
      no act succeeded and every row is a free port, or that enumeration showed no
      owner - containers included, when one was stopped - on any port acted on. */
  method RunKill(sys: Sys, ports: seq<int>, lst: Listing, dk: DockerState, lookup: int -> Lookup, dryRun: bool,
                 w: World, poll: nat -> Enumeration)
    returns (rows: seq<Row>, failed: bool, calls: seq<Call>, acts: seq<Act>,
             ghost order: seq<nat>, ghost planned: seq<Row>, ghost acted: seq<bool>, ghost seen: Option<Sight>)
    ensures failed <==> exists r :: r in rows && r.status == RowFailed
    ensures ActsHave(acts, Targets(PlannedRows(sys, lst, dk, lookup, ports)))
    ensures dryRun ==> calls == [] && RowsShow(rows, acts, PlannedRows(sys, lst, dk, lookup, ports))
    ensures !dryRun ==> EveryOnce(order, |acts|) && calls == CallsIn(acts, order) && DifferentTargets(calls)
    ensures !dryRun ==> CallsAsked(sys, lst, dk, lookup, ports, calls)
    ensures !dryRun ==> Ended(planned, acted, rows, seen, poll, InitialSet(lst.listeners, dk))
    ensures !dryRun ==> RowsOf(planned, acts, PlannedRows(sys, lst, dk, lookup, ports))
    ensures !dryRun ==> RowsEnd(planned, PlannedRows(sys, lst, dk, lookup, ports), w, lookup, seen, poll)
    ensures !dryRun ==> AddedRows(planned, rows, lst, dk)
    ensures !dryRun ==> CleanMeans(planned, rows, seen, poll)
  {
    rows, acts, calls, order := PlanAndExecute(sys, ports, lst, dk, lookup, dryRun, w);
    planned, seen, acted := rows, None, [];
    if dryRun {
      failed := AnyFailed(rows);
    } else {
      rows, failed, acted, seen := FinishRun(sys, ports, lst, dk, lookup, w, rows, acts, poll);
    }
  }
}
