/** How much was done: the counts that apply reports, over every run. */
module ActionAccounting {
  import opened Domain
  import opened Plan
  import opened Outcome
  import opened Scheduler
  import opened SchedulerInvariant
  import opened Counting
  import ApplyResult

  // ---- counts ---------------------------------------------------------------------

  function Accepted(ev: Event): nat {
    if ev.SignalCall? && ev.answer == Delivered then 1 else 0
  }

  function StopsIssued(ev: Event): nat {
    if ev.StopCall? then 1 else 0
  }

  function PanicsBeforeCall(ev: Event): nat {
    if ev.PanicEarly? then 1 else 0
  }

  function SaysNoSuch(ev: Event): nat {
    if ev.StopDone? && ev.stop.StopErr? && ev.stop.noSuch then 1 else 0
  }

  function NeverStarted(ev: Event): nat {
    if ev.StopDone? && ev.stop.StopErr? && !ev.stop.started then 1 else 0
  }

  predicate CancelIn(t: seq<Event>) {
    exists j :: 0 <= j < |t| && t[j].Cancel?
  }

  /** "No such container" answers that arrive neither with a deadline nor after a
      cancellation; the others are taken for timeouts. */
  function Unfound(t: seq<Event>): nat {
    if t == [] then 0 else
      var ev := t[|t| - 1];
      Unfound(t[..|t| - 1]) +
      if SaysNoSuch(ev) == 1 && !ev.stop.deadline && !CancelIn(t[..|t| - 1]) then 1 else 0
  }

  function SentPhase(p: Phase): nat {
    if (p.Returned? || p.Stored? || p.Released? || p.Exited?) && p.kind == SignalSent then 1 else 0
  }

  /** Whether the resource will count as an executed action. */
  function Charge(p: Phase): nat {
    if p.Stopping? || p.Rechecking? then 1
    else if (p.Returned? || p.Stored? || p.Released? || p.Exited?) && p.attempted then 1
    else 0
  }

  lemma PhaseAccounts(sys: Sys, r: PlanResource, cancelled: bool, p: Phase, ev: Event, q: Phase)
    requires IsWorker(ev) && PhaseStep(sys, r, cancelled, p, ev) == Some(q)
    ensures SentPhase(q) == SentPhase(p) + Accepted(ev)
    ensures Charge(q) + (if SaysNoSuch(ev) == 1 && !ev.stop.deadline && !cancelled then 1 else 0)
            == Charge(p) + Accepted(ev) + StopsIssued(ev) + PanicsBeforeCall(ev)
  {
  }

  lemma WorkerAccounts(sys: Sys, a: Apply, ev: Event, b: Apply)
    requires Inv(a) && IsWorker(ev) && Step(sys, a, ev) == Some(b) && Sized(b)
    ensures Sum(SentPhase, b.phases, |b.phases|) == Sum(SentPhase, a.phases, |a.phases|) + Accepted(ev)
    ensures Sum(Charge, b.phases, |b.phases|)
            + (if SaysNoSuch(ev) == 1 && !ev.stop.deadline && !a.cancelled then 1 else 0)
            == Sum(Charge, a.phases, |a.phases|) + Accepted(ev) + StopsIssued(ev) + PanicsBeforeCall(ev)
  {
    var q := PhaseStep(sys, a.doc.resources[ev.i], a.cancelled, a.phases[ev.i], ev).value;
    PhaseAccounts(sys, a.doc.resources[ev.i], a.cancelled, a.phases[ev.i], ev, q);
    SumUpdate(SentPhase, a.phases, |a.phases|, ev.i, q);
    SumUpdate(Charge, a.phases, |a.phases|, ev.i, q);
  }

  lemma DispatcherAccounts(a: Apply, ev: Event, b: Apply)
    requires Inv(a) && DispatcherStep(a, ev) == Some(b) && Sized(b)
    ensures Sum(SentPhase, b.phases, |b.phases|) == Sum(SentPhase, a.phases, |a.phases|)
    ensures Sum(Charge, b.phases, |b.phases|) == Sum(Charge, a.phases, |a.phases|)
  {
    if ev.Skip? || ev.Spawn? {
      assert CellOk(a, ev.i);
      QueuedAccounts(a, ev.i, if ev.Skip? then Phase.Skipped else Started);
    }
  }

  lemma QueuedAccounts(a: Apply, i: nat, q: Phase)
    requires i < |a.phases| && a.phases[i].Queued? && (q.Skipped? || q.Started?)
    ensures Sum(SentPhase, a.phases[i := q], |a.phases|) == Sum(SentPhase, a.phases, |a.phases|)
    ensures Sum(Charge, a.phases[i := q], |a.phases|) == Sum(Charge, a.phases, |a.phases|)
  {
    SumUpdate(SentPhase, a.phases, |a.phases|, i, q);
    SumUpdate(Charge, a.phases, |a.phases|, i, q);
  }

  lemma StepAccounts(sys: Sys, a: Apply, ev: Event, b: Apply)
    requires Inv(a) && Step(sys, a, ev) == Some(b) && Sized(b)
    ensures Sum(SentPhase, b.phases, |b.phases|) == Sum(SentPhase, a.phases, |a.phases|) + Accepted(ev)
    ensures Sum(Charge, b.phases, |b.phases|)
            + (if SaysNoSuch(ev) == 1 && !ev.stop.deadline && !a.cancelled then 1 else 0)
            == Sum(Charge, a.phases, |a.phases|) + Accepted(ev) + StopsIssued(ev) + PanicsBeforeCall(ev)
  {
    if IsWorker(ev) {
      WorkerAccounts(sys, a, ev, b);
    } else if !ev.Cancel? {
      DispatcherAccounts(a, ev, b);
    }
  }

  lemma CancelInSnoc(t: seq<Event>)
    requires t != []
    ensures CancelIn(t) <==> CancelIn(t[..|t| - 1]) || t[|t| - 1].Cancel?
  {
    var u := t[..|t| - 1];
    assert forall j | 0 <= j < |u| :: u[j] == t[j];
  }

  lemma {:induction false} CancelSeen(sys: Sys, a: Apply, t: seq<Event>)
    requires Inv(a) && Run(sys, a, t).Some?
    ensures Run(sys, a, t).value.cancelled <==> a.cancelled || CancelIn(t)
  {
    if t != [] {
      var u := t[..|t| - 1];
      CancelSeen(sys, a, u);
      CancelInSnoc(t);
      RunKeeps(sys, a, u);
      CancelOnlyByCancel(sys, Run(sys, a, u).value, t[|t| - 1], Run(sys, a, t).value);
    }
  }

  lemma CancelOnlyByCancel(sys: Sys, a: Apply, ev: Event, b: Apply)
    requires Inv(a) && Step(sys, a, ev) == Some(b)
    ensures b.cancelled <==> a.cancelled || ev.Cancel?
  {
    if !ev.Cancel? {
      if IsWorker(ev) { WorkerKeeps(sys, a, ev, b); } else { DispatcherKeeps(a, ev, b); }
    }
  }

  /** The books balance after every prefix of every run. */
  lemma {:induction false} BooksBalance(sys: Sys, doc: PlanDoc, t: seq<Event>)
    requires Run(sys, Init(doc), t).Some?
    ensures
      var a := Run(sys, Init(doc), t).value;
      && Inv(a) && a.doc == doc
      && Sum(SentPhase, a.phases, |a.phases|) == Count(Accepted, t)
      && Sum(Charge, a.phases, |a.phases|) + Unfound(t)
         == Count(Accepted, t) + Count(StopsIssued, t) + Count(PanicsBeforeCall, t)
  {
    InitInv(doc);
    RunKeeps(sys, Init(doc), t);
    if t == [] {
      SumZero(SentPhase, Init(doc).phases, |doc.resources|);
      SumZero(Charge, Init(doc).phases, |doc.resources|);
    } else {
      var u := t[..|t| - 1];
      BooksBalance(sys, doc, u);
      InitInv(doc);
      CancelSeen(sys, Init(doc), u);
      CountSnoc(Accepted, t);
      CountSnoc(StopsIssued, t);
      CountSnoc(PanicsBeforeCall, t);
      StepAccounts(sys, Run(sys, Init(doc), u).value, t[|t| - 1], Run(sys, Init(doc), t).value);
    }
  }

  function SentResult(r: Option<ApplyResource>): nat {
    if r.Some? && r.value.result == SignalSent then 1 else 0
  }

  lemma {:induction false} FinishedSums(a: Apply, n: nat)
    requires Inv(a) && a.pc.Finished? && n <= |a.phases|
    ensures Sum(SentPhase, a.phases, n) == Sum(SentResult, a.results, n)
    ensures Sum(Charge, a.phases, n) == ApplyResult.CountTrue(a.attempted[..n])
  {
    if n > 0 {
      FinishedSums(a, n - 1);
      assert CellOk(a, n - 1);
      assert a.attempted[..n][..n - 1] == a.attempted[..n - 1];
    }
  }

  /** Of a finished run: as many signal_sent results as signals accepted, and
      actions executed are the accepted signals, the stops issued and the panics
      before a call, less the stops answered "no such container" in time. */
  lemma ActionsAccounted(sys: Sys, doc: PlanDoc, t: seq<Event>)
    requires Run(sys, Init(doc), t).Some? && Run(sys, Init(doc), t).value.pc.Finished?
    ensures
      var a := Run(sys, Init(doc), t).value;
      && Count(SentResult, a.results) == Count(Accepted, t)
      && ApplyResult.CountTrue(a.attempted) + Unfound(t)
         == Count(Accepted, t) + Count(StopsIssued, t) + Count(PanicsBeforeCall, t)
  {
    BooksBalance(sys, doc, t);
    var a := Run(sys, Init(doc), t).value;
    FinishedSums(a, |a.phases|);
    assert a.attempted[..|a.attempted|] == a.attempted;
  }

  /** A "no such container" answer is masked when it comes with a deadline or
      after a cancellation: the stop is then counted as executed. */
  ghost predicate MaskedAt(t: seq<Event>, j: nat)
    requires j < |t|
  {
    SaysNoSuch(t[j]) == 1 && (t[j].stop.deadline || CancelIn(t[..j]))
  }

  lemma {:induction false} UnfoundOrMasked(t: seq<Event>)
    ensures Unfound(t) <= Count(SaysNoSuch, t)
    ensures Unfound(t) == Count(SaysNoSuch, t) <==> forall j | 0 <= j < |t| :: !MaskedAt(t, j)
  {
    if t != [] {
      var u := t[..|t| - 1];
      UnfoundOrMasked(u);
      CountSnoc(SaysNoSuch, t);
      forall j | 0 <= j < |u| ensures MaskedAt(t, j) <==> MaskedAt(u, j) {
        assert u[..j] == t[..j];
      }
      assert MaskedAt(t, |u|) <==> SaysNoSuch(t[|u|]) == 1 && (t[|u|].stop.deadline || CancelIn(u));
    }
  }

  /** Without panics, "signals accepted plus stops issued less those answered
      no such container" is the executed count exactly when no such answer was
      masked by a deadline or a cancellation. */
  lemma SimpleCountExactly(sys: Sys, doc: PlanDoc, t: seq<Event>)
    requires Run(sys, Init(doc), t).Some? && Run(sys, Init(doc), t).value.pc.Finished?
    requires Count(PanicsBeforeCall, t) == 0
    ensures
      ApplyResult.CountTrue(Run(sys, Init(doc), t).value.attempted) + Count(SaysNoSuch, t)
        == Count(Accepted, t) + Count(StopsIssued, t)
      <==> forall j | 0 <= j < |t| :: !MaskedAt(t, j)
  {
    ActionsAccounted(sys, doc, t);
    UnfoundOrMasked(t);
  }

  /** The executed count is that of the actions really carried out - signals
      accepted, and stops that docker was started for and knew the container of - if
      and only if no "no such container" was masked and docker was started for every
      stop issued. */
  lemma RealCountExactly(sys: Sys, doc: PlanDoc, t: seq<Event>)
    requires Run(sys, Init(doc), t).Some? && Run(sys, Init(doc), t).value.pc.Finished?
    requires Count(PanicsBeforeCall, t) == 0
    ensures
      ApplyResult.CountTrue(Run(sys, Init(doc), t).value.attempted) + Count(SaysNoSuch, t) + Count(NeverStarted, t)
        == Count(Accepted, t) + Count(StopsIssued, t)
      <==> (forall j | 0 <= j < |t| :: !MaskedAt(t, j)) && forall j | 0 <= j < |t| :: NeverStarted(t[j]) == 0
  {
    ActionsAccounted(sys, doc, t);
    UnfoundOrMasked(t);
    SumZero(NeverStarted, t, |t|);
  }

  // ---- the count that the simple formula misses -----------------------------------------

  /** One planned container, docker reachable: the stop meets its deadline, whatever
      else its answer says. */
  function MaskedEvent(pre: Snapshot, stop: StopAnswer, n: nat): Event {
    match n
    case 0 => Acquire(0)
    case 1 => Admit(0)
    case 2 => Spawn(0)
    case 3 => Enter(0)
    case 4 => Collect(0, pre)
    case 5 => Resume(0)
    case 6 => Judge(0, Lookup("", NoStrength, None))
    case 7 => StopCall(0)
    case 8 => StopDone(0, stop)
    case 9 => StopAgain(0, Again(true, false, false))
    case 10 => Store(0)
    case 11 => Release(0)
    case 12 => Exit(0)
    case _ => Finish
  }

  function MaskedRun(pre: Snapshot, stop: StopAnswer): seq<Event> {
    seq(14, n requires 0 <= n => MaskedEvent(pre, stop, n))
  }

  function MaskedPhase(pre: Snapshot, n: nat): Phase {
    match n
    case 0 => Queued
    case 1 => Queued
    case 2 => Queued
    case 3 => Started
    case 4 => Collecting
    case 5 => Phase.Collected(pre)
    case 6 => Judging(pre)
    case 7 => StopReady(pre)
    case 8 => Stopping
    case 9 => Rechecking
    case 10 => Returned(Stopped, true)
    case 11 => Stored(Stopped, true)
    case 12 => Released(Stopped, true)
    case _ => Exited(Stopped, true)
  }

  /** The state before the n-th of those events. */
  function MaskedState(doc: PlanDoc, pre: Snapshot, n: nat): Apply
    requires |doc.resources| == 1
  {
    Apply(doc, false,
      if n == 0 then AtAcquire(0) else if n == 1 then AtCheck(0) else if n == 2 then AtSpawn(0)
      else if n < 14 then AtAcquire(1) else Finished,
      if 1 <= n <= 11 then 1 else 0, if 3 <= n <= 12 then 1 else 0,
      [MaskedPhase(pre, n)],
      [if n <= 10 then None else Some(NewResult(doc.resources[0], Stopped))], [n > 10], false)
  }

  lemma MaskedDispatch(sys: Sys, doc: PlanDoc, pre: Snapshot, stop: StopAnswer, n: nat)
    requires |doc.resources| == 1 && (n < 3 || n == 13)
    ensures Step(sys, MaskedState(doc, pre, n), MaskedEvent(pre, stop, n)) == Some(MaskedState(doc, pre, n + 1))
  {
    if n == 2 { assert [Queued][0 := Started] == [Started]; }
  }

  lemma MaskedAct(sys: Sys, doc: PlanDoc, pre: Snapshot, stop: StopAnswer, n: nat)
    requires |doc.resources| == 1 && 3 <= n < 10 && stop.StopErr? && stop.deadline && Sayable(stop)
    requires n >= 6 ==> doc.resources[0].provider == DockerProvider && StopAllowed(pre, doc.resources[0])
    ensures Step(sys, MaskedState(doc, pre, n), MaskedEvent(pre, stop, n)) == Some(MaskedState(doc, pre, n + 1))
  {
    var p, q := MaskedPhase(pre, n), MaskedPhase(pre, n + 1);
    assert PhaseStep(sys, doc.resources[0], false, p, MaskedEvent(pre, stop, n)) == Some(q);
    assert [p][0 := q] == [q];
  }

  lemma MaskedLeave(sys: Sys, doc: PlanDoc, pre: Snapshot, stop: StopAnswer, n: nat)
    requires |doc.resources| == 1 && 10 <= n < 13
    ensures Step(sys, MaskedState(doc, pre, n), MaskedEvent(pre, stop, n)) == Some(MaskedState(doc, pre, n + 1))
  {
    var p, q := MaskedPhase(pre, n), MaskedPhase(pre, n + 1);
    var r := Some(NewResult(doc.resources[0], Stopped));
    assert [p][0 := q] == [q] && [None][0 := r] == [r] && [false][0 := true] == [true];
  }

  lemma RunOneMore(sys: Sys, a: Apply, t: seq<Event>, n: nat, b: Apply)
    requires n < |t| && Run(sys, a, t[..n]) == Some(b)
    ensures Run(sys, a, t[..n + 1]) == Step(sys, b, t[n])
  {
    assert t[..n + 1][..n] == t[..n];
  }

  lemma {:induction false} MaskedReaches(sys: Sys, doc: PlanDoc, pre: Snapshot, stop: StopAnswer, n: nat)
    requires |doc.resources| == 1 && n <= 14 && stop.StopErr? && stop.deadline && Sayable(stop)
    requires n > 6 ==> doc.resources[0].provider == DockerProvider && StopAllowed(pre, doc.resources[0])
    ensures Run(sys, Init(doc), MaskedRun(pre, stop)[..n]) == Some(MaskedState(doc, pre, n))
  {
    if n == 0 {
      assert Init(doc) == MaskedState(doc, pre, 0);
    } else {
      MaskedReaches(sys, doc, pre, stop, n - 1);
      RunOneMore(sys, Init(doc), MaskedRun(pre, stop), n - 1, MaskedState(doc, pre, n - 1));
      if n - 1 < 3 || n - 1 == 13 {
        MaskedDispatch(sys, doc, pre, stop, n - 1);
      } else if n - 1 < 10 {
        MaskedAct(sys, doc, pre, stop, n - 1);
      } else {
        MaskedLeave(sys, doc, pre, stop, n - 1);
      }
    }
  }

  lemma MaskedHasNoPanic(pre: Snapshot, stop: StopAnswer)
    ensures |MaskedRun(pre, stop)| == 14 && Count(PanicsBeforeCall, MaskedRun(pre, stop)) == 0
    ensures MaskedRun(pre, stop)[8] == StopDone(0, stop)
  {
    SumZero(PanicsBeforeCall, MaskedRun(pre, stop), 14);
  }

  lemma MaskedFinishes(sys: Sys, doc: PlanDoc, pre: Snapshot, stop: StopAnswer)
    requires |doc.resources| == 1 && stop.StopErr? && stop.deadline && Sayable(stop)
    requires doc.resources[0].provider == DockerProvider && StopAllowed(pre, doc.resources[0])
    ensures
      var t := MaskedRun(pre, stop);
      && Run(sys, Init(doc), t).Some? && Run(sys, Init(doc), t).value.pc.Finished?
      && Count(PanicsBeforeCall, t) == 0 && |t| == 14 && t[8] == StopDone(0, stop)
  {
    MaskedHasNoPanic(pre, stop);
    MaskedReaches(sys, doc, pre, stop, 14);
    assert MaskedRun(pre, stop)[..14] == MaskedRun(pre, stop);
  }

  /** The simple formula is false of this finished, panic-free run: the answer says
      "no such container" together with the deadline. */
  lemma SimpleCountFails(sys: Sys, doc: PlanDoc, pre: Snapshot)
    requires |doc.resources| == 1 && doc.resources[0].provider == DockerProvider && StopAllowed(pre, doc.resources[0])
    ensures
      var t := MaskedRun(pre, StopErr(true, true, true, false));
      && Run(sys, Init(doc), t).Some? && Run(sys, Init(doc), t).value.pc.Finished? && Count(PanicsBeforeCall, t) == 0
      && ApplyResult.CountTrue(Run(sys, Init(doc), t).value.attempted) + Count(SaysNoSuch, t)
         != Count(Accepted, t) + Count(StopsIssued, t)
  {
    var t := MaskedRun(pre, StopErr(true, true, true, false));
    MaskedFinishes(sys, doc, pre, StopErr(true, true, true, false));
    SimpleCountExactly(sys, doc, t);
    assert MaskedAt(t, 8);
  }

  /** A stop for which docker was never started is counted as executed. */
  lemma RealCountFails(sys: Sys, doc: PlanDoc, pre: Snapshot)
    requires |doc.resources| == 1 && doc.resources[0].provider == DockerProvider && StopAllowed(pre, doc.resources[0])
    ensures
      var t := MaskedRun(pre, StopErr(false, true, false, false));
      && Run(sys, Init(doc), t).Some? && Run(sys, Init(doc), t).value.pc.Finished? && Count(PanicsBeforeCall, t) == 0
      && ApplyResult.CountTrue(Run(sys, Init(doc), t).value.attempted) + Count(SaysNoSuch, t) + Count(NeverStarted, t)
         != Count(Accepted, t) + Count(StopsIssued, t)
  {
    var t := MaskedRun(pre, StopErr(false, true, false, false));
    MaskedFinishes(sys, doc, pre, StopErr(false, true, false, false));
    RealCountExactly(sys, doc, t);
    assert NeverStarted(t[8]) == 1;
  }
}
