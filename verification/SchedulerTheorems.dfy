/** Properties of every run of one apply. */
module SchedulerTheorems {
  import opened Domain
  import opened Plan
  import opened Scheduler
  import opened SchedulerInvariant
  import opened Counting

  // ---- termination and progress ----------------------------------------------------

  function PhaseRank(p: Phase): nat {
    match p
    case Queued => 14
    case Started => 12
    case Collecting => 11
    case Collected(_) => 10
    case Judging(_) => 9
    case Signalling(_, _) => 8
    case StopReady(_) => 8
    case Stopping => 7
    case Rechecking => 6
    case Returned(_, _) => 5
    case Stored(_, _) => 4
    case Released(_, _) => 3
    case Skipped => 0
    case Exited(_, _) => 0
  }

  function PcRank(a: Apply): nat
    requires Sized(a)
  {
    var left := 3 * (|a.doc.resources| - Index(a));
    match a.pc
    case AtAcquire(_) => left + 1
    case AtCheck(_) => left
    case AtSpawn(_) => left - 1
    case Finished => 0
  }

  function RunRank(a: Apply): nat
    requires Sized(a)
  {
    PcRank(a) + Sum(PhaseRank, a.phases, |a.phases|)
  }

  function ProgramStep(ev: Event): nat {
    if ev.Cancel? then 0 else 1
  }

  lemma PhaseRankFalls(sys: Sys, r: PlanResource, cancelled: bool, p: Phase, ev: Event, q: Phase)
    requires IsWorker(ev) && PhaseStep(sys, r, cancelled, p, ev) == Some(q)
    ensures PhaseRank(q) < PhaseRank(p)
  {
  }

  lemma WorkerRankFalls(sys: Sys, a: Apply, ev: Event, b: Apply)
    requires Inv(a) && Sized(b) && IsWorker(ev) && Step(sys, a, ev) == Some(b)
    ensures RunRank(b) + 1 <= RunRank(a)
  {
    var q := PhaseStep(sys, a.doc.resources[ev.i], a.cancelled, a.phases[ev.i], ev).value;
    PhaseRankFalls(sys, a.doc.resources[ev.i], a.cancelled, a.phases[ev.i], ev, q);
    SumUpdate(PhaseRank, a.phases, |a.phases|, ev.i, q);
  }

  lemma DispatcherRankFalls(a: Apply, ev: Event, b: Apply)
    requires Inv(a) && Sized(b) && DispatcherStep(a, ev) == Some(b)
    ensures RunRank(b) + 1 <= RunRank(a)
  {
    if ev.Skip? || ev.Spawn? {
      assert CellOk(a, ev.i);
      SumUpdate(PhaseRank, a.phases, |a.phases|, ev.i, if ev.Skip? then Phase.Skipped else Started);
    }
  }

  lemma RankFalls(sys: Sys, a: Apply, ev: Event, b: Apply)
    requires Inv(a) && Inv(b) && Step(sys, a, ev) == Some(b)
    ensures RunRank(b) + ProgramStep(ev) <= RunRank(a)
  {
    if IsWorker(ev) {
      WorkerRankFalls(sys, a, ev, b);
    } else if !ev.Cancel? {
      DispatcherRankFalls(a, ev, b);
    }
  }

  lemma {:induction false} RunRankFalls(sys: Sys, a: Apply, t: seq<Event>)
    requires Inv(a) && Run(sys, a, t).Some?
    ensures Inv(Run(sys, a, t).value)
    ensures RunRank(Run(sys, a, t).value) + Count(ProgramStep, t) <= RunRank(a)
  {
    RunKeeps(sys, a, t);
    if t != [] {
      RunRankFalls(sys, a, t[..|t| - 1]);
      CountSnoc(ProgramStep, t);
      RankFalls(sys, Run(sys, a, t[..|t| - 1]).value, t[|t| - 1], Run(sys, a, t).value);
    }
  }

  /** Every run is finite: whatever the schedule, at most 17 steps per resource
      and one more (cancellations apart). */
  lemma RunsAreBounded(sys: Sys, doc: PlanDoc, t: seq<Event>)
    requires Run(sys, Init(doc), t).Some?
    ensures Count(ProgramStep, t) <= 17 * |doc.resources| + 1
  {
    InitInv(doc);
    RunRankFalls(sys, Init(doc), t);
    SumConstant(PhaseRank, Init(doc).phases, |doc.resources|, 14);
  }

  ghost function NextEvent(p: Phase, i: nat, pre: Snapshot, id: Lookup): Event {
    match p
    case Started => Enter(i)
    case Collecting => Collect(i, pre)
    case Collected(_) => Resume(i)
    case Judging(_) => Judge(i, id)
    case Signalling(_, _) => SignalCall(i, SignalError)
    case StopReady(_) => StopCall(i)
    case Stopping => StopDone(i, StopOk)
    case Rechecking => StopAgain(i, Again(true, false, false))
    case Returned(_, _) => Store(i)
    case Stored(_, _) => Release(i)
    case Released(_, _) => Exit(i)
    case _ => Finish
  }

  lemma WorkerCanStep(sys: Sys, a: Apply, i: nat, pre: Snapshot, id: Lookup)
    requires Inv(a) && i < |a.phases| && Runs(a.phases[i]) > 0
    ensures Step(sys, a, NextEvent(a.phases[i], i, pre, id)).Some?
  {
    SumAtLeast(Runs, a.phases, |a.phases|, i);
    SumAtLeast(Holds, a.phases, |a.phases|, i);
  }

  /** No deadlock: until the dispatcher has finished, some step of the program
      can be taken, whatever the world answers. */
  lemma NeverStuck(sys: Sys, a: Apply, pre: Snapshot, id: Lookup)
    requires Inv(a) && !a.pc.Finished?
    ensures exists ev: Event :: !ev.Cancel? && Step(sys, a, ev).Some?
  {
    var n := |a.doc.resources|;
    if a.pc.AtCheck? {
      assert CellOk(a, a.pc.i);
      assert Step(sys, a, if a.cancelled then Skip(a.pc.i) else Admit(a.pc.i)).Some?;
    } else if a.pc.AtSpawn? {
      assert Step(sys, a, Spawn(a.pc.i)).Some?;
    } else if a.pc.i < n && a.slots < MAX_CONCURRENT {
      assert Step(sys, a, Acquire(a.pc.i)).Some?;
    } else if a.pc.i == n && a.running == 0 {
      assert Step(sys, a, Finish).Some?;
    } else {
      SumZero(Runs, a.phases, n);
      SumZero(Holds, a.phases, n);
      var i :| 0 <= i < n && Runs(a.phases[i]) > 0;
      WorkerCanStep(sys, a, i, pre, id);
      assert !NextEvent(a.phases[i], i, pre, id).Cancel?;
    }
  }

  /** Whatever the world answers, the goroutine takes the answer, at the call that asks
      for it and nowhere else. */
  lemma EveryAnswerIsTaken(sys: Sys, a: Apply, i: nat, pre: Snapshot, id: Lookup, answer: SignalAnswer,
                           stop: StopAnswer, again: Again)
    requires Inv(a) && i < |a.phases|
    ensures Step(sys, a, Collect(i, pre)).Some? <==> a.phases[i].Collecting?
    ensures Step(sys, a, Judge(i, id)).Some? <==> a.phases[i].Judging?
    ensures Step(sys, a, SignalCall(i, answer)).Some? <==> a.phases[i].Signalling?
    ensures Step(sys, a, StopCall(i)).Some? <==> a.phases[i].StopReady?
    ensures Step(sys, a, StopDone(i, stop)).Some? <==> a.phases[i].Stopping? && Sayable(stop)
    ensures Step(sys, a, StopAgain(i, again)).Some? <==> a.phases[i].Rechecking?
  {
  }

  /** The dispatcher waits for two things only: for a slot while four actions are in
      flight, and at the end for the goroutines that are left. */
  ghost predicate Waiting(a: Apply)
    requires Sized(a)
  {
    a.pc.AtAcquire? &&
    if a.pc.i < |a.doc.resources| then InFlight(a) == MAX_CONCURRENT
      else exists k :: 0 <= k < |a.phases| && Runs(a.phases[k]) > 0
  }

  function NextDispatch(a: Apply): Event {
    match a.pc
    case AtAcquire(i) => if i < |a.doc.resources| then Acquire(i) else Finish
    case AtCheck(i) => if a.cancelled then Skip(i) else Admit(i)
    case AtSpawn(i) => Spawn(i)
    case Finished => Finish
  }

  lemma DispatcherWaitsExactly(a: Apply)
    requires Inv(a) && !a.pc.Finished?
    ensures DispatcherStep(a, NextDispatch(a)).Some? <==> !Waiting(a)
    ensures forall ev | DispatcherStep(a, ev).Some? :: ev == NextDispatch(a)
  {
    if a.pc.AtCheck? { assert CellOk(a, a.pc.i); }
    SumZero(Runs, a.phases, |a.phases|);
  }

  // ---- and up to four really run at once ----------------------------------------------------

  /** The first m actions have been started and none has moved. */
  ghost predicate Launched(a: Apply, m: nat) {
    && Inv(a) && m <= |a.phases| && a.pc == AtAcquire(m) && !a.cancelled && a.slots == m
    && forall k | 0 <= k < m :: a.phases[k].Started?
  }

  lemma LaunchSteps(a: Apply, m: nat) returns (b1: Apply, b2: Apply, b: Apply)
    requires Launched(a, m) && m < MAX_CONCURRENT && m < |a.doc.resources|
    ensures DispatcherStep(a, Acquire(m)) == Some(b1) && DispatcherStep(b1, Admit(m)) == Some(b2)
    ensures DispatcherStep(b2, Spawn(m)) == Some(b) && Launched(b, m + 1) && b.doc == a.doc
  {
    b1 := a.(slots := a.slots + 1, pc := AtCheck(m));
    b2 := b1.(pc := AtSpawn(m));
    b := Move(b2, m, Started).(running := a.running + 1, pc := AtAcquire(m + 1));
    DispatcherKeeps(a, Acquire(m), b1);
    DispatcherKeeps(b1, Admit(m), b2);
    DispatcherKeeps(b2, Spawn(m), b);
  }

  lemma LaunchNext(sys: Sys, doc: PlanDoc, t: seq<Event>, a: Apply, m: nat) returns (u: seq<Event>, b: Apply)
    requires Run(sys, Init(doc), t) == Some(a) && a.doc == doc && Launched(a, m)
    requires m < MAX_CONCURRENT && m < |doc.resources|
    ensures Run(sys, Init(doc), u) == Some(b) && b.doc == doc && Launched(b, m + 1)
  {
    var b1, b2;
    b1, b2, b := LaunchSteps(a, m);
    RunSnoc(sys, Init(doc), t, Acquire(m));
    RunSnoc(sys, Init(doc), t + [Acquire(m)], Admit(m));
    RunSnoc(sys, Init(doc), t + [Acquire(m)] + [Admit(m)], Spawn(m));
    u := t + [Acquire(m)] + [Admit(m)] + [Spawn(m)];
  }

  lemma {:induction false} LaunchAll(sys: Sys, doc: PlanDoc, m: nat) returns (t: seq<Event>, a: Apply)
    requires m <= MAX_CONCURRENT && m <= |doc.resources|
    ensures Run(sys, Init(doc), t) == Some(a) && a.doc == doc && Launched(a, m)
  {
    InitInv(doc);
    if m == 0 {
      t, a := [], Init(doc);
    } else {
      var u, b := LaunchAll(sys, doc, m - 1);
      t, a := LaunchNext(sys, doc, u, b, m - 1);
    }
  }

  /** Four actions, or all of a smaller plan, can be in flight at once. */
  lemma FourCanRun(sys: Sys, doc: PlanDoc)
    ensures exists t ::
      && Run(sys, Init(doc), t).Some? && Sized(Run(sys, Init(doc), t).value)
      && Run(sys, Init(doc), t).value.doc == doc
      && InFlight(Run(sys, Init(doc), t).value) ==
        if |doc.resources| < MAX_CONCURRENT then |doc.resources| else MAX_CONCURRENT
  {
    var t, a := LaunchAll(sys, doc, if |doc.resources| < MAX_CONCURRENT then |doc.resources| else MAX_CONCURRENT);
    assert Run(sys, Init(doc), t).Some? && InFlight(a) == a.slots;
  }

  // ---- once each --------------------------------------------------------------------

  function SetsResult(k: nat): Event -> nat {
    (ev: Event) => if (ev.Store? && ev.i == k) || (ev.Skip? && ev.i == k) then 1 else 0
  }

  function Mutates(ev: Event): nat {
    if ev.SignalCall? || ev.StopCall? then 1 else 0
  }

  function ActsOn(k: nat): Event -> nat {
    (ev: Event) => if (ev.SignalCall? && ev.i == k) || (ev.StopCall? && ev.i == k) then 1 else 0
  }

  predicate BeforeCall(p: Phase) {
    p.Queued? || p.Skipped? || p.Started? || p.Collecting? || p.Collected? || p.Judging? || p.Signalling? ||
      p.StopReady?
  }

  lemma PhaseOnce(sys: Sys, r: PlanResource, cancelled: bool, p: Phase, ev: Event, q: Phase)
    requires IsWorker(ev) && PhaseStep(sys, r, cancelled, p, ev) == Some(q)
    ensures ev.SignalCall? || ev.StopCall? ==> BeforeCall(p) && !BeforeCall(q)
    ensures BeforeCall(q) ==> BeforeCall(p)
  {
  }

  lemma WorkerOnce(sys: Sys, a: Apply, ev: Event, b: Apply, k: nat)
    requires Inv(a) && IsWorker(ev) && Step(sys, a, ev) == Some(b) && k < |a.doc.resources| && Sized(b)
    ensures (if a.results[k].Some? then 1 else 0) + SetsResult(k)(ev) == if b.results[k].Some? then 1 else 0
    ensures ActsOn(k)(ev) == 1 ==> BeforeCall(a.phases[k]) && !BeforeCall(b.phases[k])
    ensures BeforeCall(b.phases[k]) ==> BeforeCall(a.phases[k])
  {
    if ev.i == k {
      assert CellOk(a, k);
      PhaseOnce(sys, a.doc.resources[k], a.cancelled, a.phases[k], ev, b.phases[k]);
    }
  }

  lemma DispatcherOnce(a: Apply, ev: Event, b: Apply, k: nat)
    requires Inv(a) && !IsWorker(ev) && DispatcherStep(a, ev) == Some(b) && k < |a.doc.resources| && Sized(b)
    ensures (if a.results[k].Some? then 1 else 0) + SetsResult(k)(ev) == if b.results[k].Some? then 1 else 0
    ensures BeforeCall(b.phases[k]) ==> BeforeCall(a.phases[k])
  {
    assert CellOk(a, k);
  }

  lemma OnceStep(sys: Sys, a: Apply, ev: Event, b: Apply, k: nat)
    requires Inv(a) && Step(sys, a, ev) == Some(b) && k < |a.doc.resources| && Sized(b)
    ensures (if a.results[k].Some? then 1 else 0) + SetsResult(k)(ev) == if b.results[k].Some? then 1 else 0
    ensures ActsOn(k)(ev) == 1 ==> BeforeCall(a.phases[k]) && !BeforeCall(b.phases[k])
    ensures BeforeCall(b.phases[k]) ==> BeforeCall(a.phases[k])
  {
    if IsWorker(ev) {
      WorkerOnce(sys, a, ev, b, k);
    } else if !ev.Cancel? {
      DispatcherOnce(a, ev, b, k);
    }
  }

  /** Each result is set exactly as often as it is present, and each resource is
      acted on at most once. */
  lemma {:induction false} OnceEach(sys: Sys, doc: PlanDoc, t: seq<Event>, k: nat)
    requires Run(sys, Init(doc), t).Some? && k < |doc.resources|
    ensures
      var a := Run(sys, Init(doc), t).value;
      && Inv(a) && a.doc == doc
      && Count(SetsResult(k), t) == (if a.results[k].Some? then 1 else 0)
      && Count(ActsOn(k), t) <= 1 && (BeforeCall(a.phases[k]) ==> Count(ActsOn(k), t) == 0)
  {
    InitInv(doc);
    RunKeeps(sys, Init(doc), t);
    if t != [] {
      OnceEach(sys, doc, t[..|t| - 1], k);
      CountSnoc(SetsResult(k), t);
      CountSnoc(ActsOn(k), t);
      OnceStep(sys, Run(sys, Init(doc), t[..|t| - 1]).value, t[|t| - 1], Run(sys, Init(doc), t).value, k);
    }
  }

  // ---- after a cancellation ----------------------------------------------------------

  /** Past its last context check and not yet at its call. */
  function MayCall(p: Phase): nat {
    if p.Judging? || p.Signalling? || p.StopReady? then 1 else 0
  }

  lemma PhaseMayCall(sys: Sys, r: PlanResource, p: Phase, ev: Event, q: Phase)
    requires IsWorker(ev) && PhaseStep(sys, r, true, p, ev) == Some(q)
    ensures MayCall(q) + Mutates(ev) <= MayCall(p)
  {
  }

  lemma CancelledStep(sys: Sys, a: Apply, ev: Event, b: Apply)
    requires Inv(a) && a.cancelled && Step(sys, a, ev) == Some(b) && Sized(b)
    ensures Sum(MayCall, b.phases, |b.phases|) + Mutates(ev) <= Sum(MayCall, a.phases, |a.phases|)
  {
    if IsWorker(ev) {
      var q := PhaseStep(sys, a.doc.resources[ev.i], a.cancelled, a.phases[ev.i], ev).value;
      PhaseMayCall(sys, a.doc.resources[ev.i], a.phases[ev.i], ev, q);
      SumUpdate(MayCall, a.phases, |a.phases|, ev.i, q);
    } else if ev.Skip? {
      SumUpdate(MayCall, a.phases, |a.phases|, ev.i, Phase.Skipped);
    } else if ev.Spawn? {
      SumUpdate(MayCall, a.phases, |a.phases|, ev.i, Started);
    }
  }

  lemma {:induction false} CancelledRun(sys: Sys, a: Apply, u: seq<Event>)
    requires Inv(a) && a.cancelled && Run(sys, a, u).Some?
    ensures Inv(Run(sys, a, u).value)
    ensures Sum(MayCall, Run(sys, a, u).value.phases, |Run(sys, a, u).value.phases|) + Count(Mutates, u)
            <= Sum(MayCall, a.phases, |a.phases|)
  {
    RunKeeps(sys, a, u);
    if u != [] {
      var v := u[..|u| - 1];
      CancelledRun(sys, a, v);
      RunKeeps(sys, a, v);
      CountSnoc(Mutates, u);
      CancelledStep(sys, Run(sys, a, v).value, u[|u| - 1], Run(sys, a, u).value);
    }
  }

  /** However the run continues after a cancellation, at most four further
      signals or docker stops are issued. */
  lemma AtMostFourAfterCancel(sys: Sys, doc: PlanDoc, t: seq<Event>, u: seq<Event>)
    requires Run(sys, Init(doc), t).Some? && Run(sys, Init(doc), t).value.cancelled
    requires Run(sys, Run(sys, Init(doc), t).value, u).Some?
    ensures Count(Mutates, u) <= MAX_CONCURRENT
  {
    InitInv(doc);
    RunKeeps(sys, Init(doc), t);
    var a := Run(sys, Init(doc), t).value;
    CancelledRun(sys, a, u);
    SumMonotone(MayCall, Holds, a.phases, |a.phases|);
  }
}
