/** What every reachable state of an apply satisfies. */
module SchedulerInvariant {
  import opened Domain
  import opened Plan
  import opened Outcome
  import opened Scheduler
  import opened Counting

  /** A goroutine between its start and the release of its semaphore slot. */
  function Holds(p: Phase): nat {
    if p.Queued? || p.Skipped? || p.Released? || p.Exited? then 0 else 1
  }

  function Runs(p: Phase): nat {
    if p.Queued? || p.Skipped? || p.Exited? then 0 else 1
  }

  predicate Settled(p: Phase) {
    p.Skipped? || p.Stored? || p.Released? || p.Exited?
  }

  function KindOf(p: Phase): ResultKind
    requires Settled(p)
  {
    if p.Skipped? then NotAttempted else p.kind
  }

  function Index(a: Apply): nat {
    if a.pc.Finished? then |a.doc.resources| else a.pc.i
  }

  function DispatcherHolds(a: Apply): nat {
    if a.pc.AtCheck? || a.pc.AtSpawn? then 1 else 0
  }

  ghost predicate CellOk(a: Apply, k: nat)
    requires k < |a.phases| == |a.results| == |a.attempted| == |a.doc.resources|
  {
    var p := a.phases[k];
    && (p.Queued? <==> k >= Index(a))
    && (a.results[k] == if Settled(p) then Some(NewResult(a.doc.resources[k], KindOf(p))) else None)
    && (a.attempted[k] <==> Settled(p) && !p.Skipped? && p.attempted)
    && (p.Skipped? ==> a.cancelled)
    && (a.pc.Finished? ==> p.Skipped? || p.Exited?)
  }

  predicate Sized(a: Apply) {
    && |a.phases| == |a.results| == |a.attempted| == |a.doc.resources|
    && Index(a) <= |a.doc.resources| && (a.pc.AtCheck? || a.pc.AtSpawn? ==> Index(a) < |a.doc.resources|)
  }

  predicate Counted(a: Apply)
    requires Sized(a)
  {
    var n := |a.doc.resources|;
    && a.slots == Sum(Holds, a.phases, n) + DispatcherHolds(a) && a.slots <= MAX_CONCURRENT
    && a.running == Sum(Runs, a.phases, n)
  }

  ghost predicate Cells(a: Apply)
    requires Sized(a)
  {
    && (forall k | 0 <= k < |a.phases| :: CellOk(a, k))
    && (a.skipped <==> exists k :: 0 <= k < |a.phases| && a.phases[k].Skipped?)
  }

  ghost predicate Inv(a: Apply) {
    Sized(a) && Counted(a) && Cells(a)
  }

  lemma InitInv(doc: PlanDoc)
    ensures Inv(Init(doc))
  {
    var a := Init(doc);
    SumZero(Holds, a.phases, |a.phases|);
    SumZero(Runs, a.phases, |a.phases|);
  }

  lemma DispatcherCounts(a: Apply, ev: Event, b: Apply)
    requires Sized(a) && Counted(a) && DispatcherStep(a, ev) == Some(b)
    requires a.pc.AtCheck? || a.pc.AtSpawn? ==> a.phases[a.pc.i].Queued?
    ensures Sized(b) && Counted(b)
  {
    if ev.Skip? {
      SumUpdate(Holds, a.phases, |a.phases|, a.pc.i, Phase.Skipped);
      SumUpdate(Runs, a.phases, |a.phases|, a.pc.i, Phase.Skipped);
    } else if ev.Spawn? {
      SumUpdate(Holds, a.phases, |a.phases|, a.pc.i, Started);
      SumUpdate(Runs, a.phases, |a.phases|, a.pc.i, Started);
    }
  }

  lemma DispatcherCells(a: Apply, ev: Event, b: Apply)
    requires Inv(a) && DispatcherStep(a, ev) == Some(b) && Sized(b)
    ensures Cells(b)
  {
    forall k | 0 <= k < |a.phases| ensures CellOk(b, k) && (a.phases[k].Skipped? ==> b.phases[k].Skipped?) {
      assert CellOk(a, k);
      if ev.Finish? {
        SumZero(Runs, a.phases, |a.phases|);
      }
    }
    if ev.Skip? {
      assert b.phases[a.pc.i].Skipped?;
    }
  }

  lemma DispatcherKeeps(a: Apply, ev: Event, b: Apply)
    requires Inv(a) && DispatcherStep(a, ev) == Some(b)
    ensures Inv(b) && b.doc == a.doc && b.cancelled == a.cancelled
  {
    if a.pc.AtCheck? || a.pc.AtSpawn? {
      assert CellOk(a, a.pc.i);
    }
    DispatcherCounts(a, ev, b);
    DispatcherCells(a, ev, b);
  }

  predicate Shape(p: Phase, q: Phase, ev: Event) {
    && Runs(p) == 1 && !q.Queued? && !q.Skipped?
    && Holds(p) == Holds(q) + (if ev.Release? then 1 else 0)
    && Runs(p) == Runs(q) + (if ev.Exit? then 1 else 0)
    && (Settled(q) <==> Settled(p) || ev.Store?)
    && (Settled(p) ==> q.kind == p.kind && q.attempted == p.attempted)
    && (ev.Store? ==> p.Returned? && q == Stored(p.kind, p.attempted))
  }

  /** A goroutine's step leaves queued and skipped resources alone and never
      changes which slot or wait-group token it owes except by giving it back. */
  lemma PhaseStepShape(sys: Sys, r: PlanResource, cancelled: bool, p: Phase, ev: Event, q: Phase)
    requires IsWorker(ev) && PhaseStep(sys, r, cancelled, p, ev) == Some(q)
    ensures Shape(p, q, ev)
  {
  }

  lemma MoveCounts(a: Apply, i: nat, ev: Event, q: Phase)
    requires Sized(a) && Counted(a) && i < |a.doc.resources| && Shape(a.phases[i], q, ev)
    requires Effect(a, i, ev).Some?
    ensures Sized(Move(Effect(a, i, ev).value, i, q)) && Counted(Move(Effect(a, i, ev).value, i, q))
  {
    SumUpdate(Holds, a.phases, |a.phases|, i, q);
    SumUpdate(Runs, a.phases, |a.phases|, i, q);
  }

  lemma MovedCell(a: Apply, i: nat, ev: Event, q: Phase)
    requires Sized(a) && i < |a.doc.resources| && CellOk(a, i) && Shape(a.phases[i], q, ev)
    requires Effect(a, i, ev).Some? && Sized(Move(Effect(a, i, ev).value, i, q))
    ensures CellOk(Move(Effect(a, i, ev).value, i, q), i) && (a.phases[i].Skipped? <==> q.Skipped?)
  {
  }

  lemma OtherCell(a: Apply, i: nat, ev: Event, q: Phase, k: nat)
    requires Sized(a) && i < |a.doc.resources| && k < |a.doc.resources| && k != i && CellOk(a, k)
    requires Effect(a, i, ev).Some? && Sized(Move(Effect(a, i, ev).value, i, q))
    ensures CellOk(Move(Effect(a, i, ev).value, i, q), k) && Move(Effect(a, i, ev).value, i, q).phases[k] == a.phases[k]
  {
  }

  lemma MoveCells(a: Apply, i: nat, ev: Event, q: Phase)
    requires Sized(a) && Cells(a) && i < |a.doc.resources| && Shape(a.phases[i], q, ev)
    requires Effect(a, i, ev).Some? && Sized(Move(Effect(a, i, ev).value, i, q))
    ensures Cells(Move(Effect(a, i, ev).value, i, q))
  {
    var b := Move(Effect(a, i, ev).value, i, q);
    forall k | 0 <= k < |a.phases| ensures CellOk(b, k) && (a.phases[k].Skipped? <==> b.phases[k].Skipped?) {
      if k == i { MovedCell(a, i, ev, q); } else { OtherCell(a, i, ev, q, k); }
    }
  }

  lemma WorkerKeeps(sys: Sys, a: Apply, ev: Event, b: Apply)
    requires Inv(a) && IsWorker(ev) && Step(sys, a, ev) == Some(b)
    ensures Inv(b) && b.doc == a.doc && b.cancelled == a.cancelled
  {
    var q := PhaseStep(sys, a.doc.resources[ev.i], a.cancelled, a.phases[ev.i], ev).value;
    PhaseStepShape(sys, a.doc.resources[ev.i], a.cancelled, a.phases[ev.i], ev, q);
    MoveCounts(a, ev.i, ev, q);
    MoveCells(a, ev.i, ev, q);
  }

  lemma StepKeeps(sys: Sys, a: Apply, ev: Event, b: Apply)
    requires Inv(a) && Step(sys, a, ev) == Some(b)
    ensures Inv(b) && b.doc == a.doc && (a.cancelled ==> b.cancelled)
  {
    if ev.Cancel? {
      assert forall k | 0 <= k < |a.doc.resources| :: CellOk(a, k) ==> CellOk(b, k);
    } else if IsWorker(ev) {
      WorkerKeeps(sys, a, ev, b);
    } else {
      DispatcherKeeps(a, ev, b);
    }
  }

  lemma RunSnoc(sys: Sys, a: Apply, t: seq<Event>, ev: Event)
    requires Run(sys, a, t).Some?
    ensures Run(sys, a, t + [ev]) == Step(sys, Run(sys, a, t).value, ev)
  {
    assert (t + [ev])[..|t|] == t;
  }

  /** The invariant over whole runs. */
  lemma {:induction false} RunKeeps(sys: Sys, a: Apply, t: seq<Event>)
    requires Inv(a) && Run(sys, a, t).Some?
    ensures Inv(Run(sys, a, t).value) && Run(sys, a, t).value.doc == a.doc
    ensures a.cancelled ==> Run(sys, a, t).value.cancelled
  {
    if t != [] {
      RunKeeps(sys, a, t[..|t| - 1]);
      StepKeeps(sys, Run(sys, a, t[..|t| - 1]).value, t[|t| - 1], Run(sys, a, t).value);
    }
  }

  // ---- at most four in flight --------------------------------------------------------

  /** The actions in flight: spawned, and their slot not given back yet. */
  function InFlight(a: Apply): nat
    requires |a.phases| >= |a.doc.resources|
  {
    Sum(Holds, a.phases, |a.doc.resources|)
  }

  lemma AtMostFourInFlight(sys: Sys, doc: PlanDoc, t: seq<Event>)
    requires Run(sys, Init(doc), t).Some?
    ensures
      var a := Run(sys, Init(doc), t).value;
      |a.phases| >= |a.doc.resources| && InFlight(a) <= MAX_CONCURRENT
  {
    InitInv(doc);
    RunKeeps(sys, Init(doc), t);
  }

  /** When the dispatcher has finished: every resource has its own result, no
      slot is held, and no goroutine is left. */
  lemma FinishedMeans(sys: Sys, doc: PlanDoc, t: seq<Event>)
    requires Run(sys, Init(doc), t).Some? && Run(sys, Init(doc), t).value.pc.Finished?
    ensures
      var a := Run(sys, Init(doc), t).value;
      && a.slots == 0 && a.running == 0 && |a.results| == |doc.resources|
      && forall k | 0 <= k < |doc.resources| ::
           a.results[k].Some? && exists kind :: a.results[k].value == NewResult(doc.resources[k], kind)
  {
    InitInv(doc);
    RunKeeps(sys, Init(doc), t);
    var a := Run(sys, Init(doc), t).value;
    forall k | 0 <= k < |doc.resources|
      ensures Holds(a.phases[k]) == 0 && Runs(a.phases[k]) == 0
      ensures a.results[k].Some? && exists kind :: a.results[k].value == NewResult(doc.resources[k], kind)
    {
      assert CellOk(a, k);
    }
    SumZero(Holds, a.phases, |a.phases|);
    SumZero(Runs, a.phases, |a.phases|);
  }
}
