/** internal/cli/apply.go: applyPlan as a whole, from the run of its goroutines to
    the result document. What the document says is traced back to the run. */
module ApplyRun {
  import opened Domain
  import opened ExitClass
  import opened Plan
  import opened Outcome
  import opened Scheduler
  import opened SchedulerInvariant
  import opened Counting
  import opened ActionAccounting
  import opened ApplyResult

  /** Whether an event gives its resource a result that is not harmless: a signal
      that was refused, failed or found another process, a stop that failed, a stop
      that timed out and may not have happened, a panic, or killport's own PID. */
  function Harm(sys: Sys, r: PlanResource, cancelled: bool, ev: Event): nat {
    match ev
    case SignalCall(_, answer) => if answer in {Changed, NotPermitted, SignalError} then 1 else 0
    case StopDone(_, stop) => if stop.StopErr? && !stop.deadline && !cancelled && !stop.noSuch then 1 else 0
    case StopAgain(_, again) => if again.failed || !again.avail || again.listed then 1 else 0
    case Judge(_, _) => if r.provider != DockerProvider && r.pid == sys.self then 1 else 0
    case PanicEarly(_) => 1
    case PanicStopping(_) => 1
    case _ => 0
  }

  function HarmAt(sys: Sys, doc: PlanDoc, cancelled: bool, ev: Event): nat {
    if IsWorker(ev) && ev.i < |doc.resources| then Harm(sys, doc.resources[ev.i], cancelled, ev) else 0
  }

  /** The harmful events of a run; a failed stop counts as one only before the
      cancellation, after it Docker is asked again. */
  function Harms(sys: Sys, doc: PlanDoc, t: seq<Event>): nat {
    if t == [] then 0 else
      Harms(sys, doc, t[..|t| - 1]) + HarmAt(sys, doc, CancelIn(t[..|t| - 1]), t[|t| - 1])
  }

  predicate SkipIn(t: seq<Event>) {
    exists j :: 0 <= j < |t| && t[j].Skip?
  }

  function HarmPhase(p: Phase): nat {
    if (p.Returned? || p.Stored? || p.Released? || p.Exited?) && !Harmless(p.kind) then 1 else 0
  }

  lemma PhaseHarms(sys: Sys, r: PlanResource, cancelled: bool, p: Phase, ev: Event, q: Phase)
    requires IsWorker(ev) && PhaseStep(sys, r, cancelled, p, ev) == Some(q)
    ensures HarmPhase(q) == HarmPhase(p) + Harm(sys, r, cancelled, ev)
  {
  }

  lemma WorkerHarms(sys: Sys, a: Apply, ev: Event, b: Apply)
    requires Inv(a) && IsWorker(ev) && Step(sys, a, ev) == Some(b) && Sized(b)
    ensures Sum(HarmPhase, b.phases, |b.phases|) ==
      Sum(HarmPhase, a.phases, |a.phases|) + HarmAt(sys, a.doc, a.cancelled, ev)
  {
    var q := PhaseStep(sys, a.doc.resources[ev.i], a.cancelled, a.phases[ev.i], ev).value;
    PhaseHarms(sys, a.doc.resources[ev.i], a.cancelled, a.phases[ev.i], ev, q);
    SumUpdate(HarmPhase, a.phases, |a.phases|, ev.i, q);
  }

  lemma DispatcherHarms(a: Apply, ev: Event, b: Apply)
    requires Inv(a) && DispatcherStep(a, ev) == Some(b) && Sized(b)
    ensures Sum(HarmPhase, b.phases, |b.phases|) == Sum(HarmPhase, a.phases, |a.phases|)
  {
    if ev.Skip? || ev.Spawn? {
      assert CellOk(a, ev.i);
      SumUpdate(HarmPhase, a.phases, |a.phases|, ev.i, if ev.Skip? then Phase.Skipped else Started);
    }
  }

  lemma StepHarms(sys: Sys, a: Apply, ev: Event, b: Apply)
    requires Inv(a) && Step(sys, a, ev) == Some(b) && Sized(b)
    ensures Sum(HarmPhase, b.phases, |b.phases|) ==
      Sum(HarmPhase, a.phases, |a.phases|) + HarmAt(sys, a.doc, a.cancelled, ev)
  {
    if IsWorker(ev) {
      WorkerHarms(sys, a, ev, b);
    } else if !ev.Cancel? {
      DispatcherHarms(a, ev, b);
    }
  }

  lemma StepSkips(sys: Sys, a: Apply, ev: Event, b: Apply)
    requires Step(sys, a, ev) == Some(b)
    ensures b.skipped <==> a.skipped || ev.Skip?
    ensures ev.Skip? ==> a.cancelled
  {
  }

  lemma SkipInSnoc(t: seq<Event>)
    requires t != []
    ensures SkipIn(t) <==> SkipIn(t[..|t| - 1]) || t[|t| - 1].Skip?
  {
    var u := t[..|t| - 1];
    assert forall j | 0 <= j < |u| :: u[j] == t[j];
  }

  ghost predicate Ledger(sys: Sys, doc: PlanDoc, t: seq<Event>, a: Apply) {
    && Sum(HarmPhase, a.phases, |a.phases|) == Harms(sys, doc, t)
    && (a.skipped <==> SkipIn(t)) && (a.skipped ==> a.cancelled)
  }

  lemma LedgerStep(sys: Sys, doc: PlanDoc, t: seq<Event>, a: Apply, ev: Event, b: Apply)
    requires Inv(a) && a.doc == doc && Ledger(sys, doc, t, a) && (a.cancelled <==> CancelIn(t))
    requires Step(sys, a, ev) == Some(b) && Sized(b) && (a.cancelled ==> b.cancelled)
    ensures Ledger(sys, doc, t + [ev], b)
  {
    var u := t + [ev];
    assert u[..|t|] == t;
    StepHarms(sys, a, ev, b);
    StepSkips(sys, a, ev, b);
    SkipInSnoc(u);
  }

  lemma {:induction false} RunLedger(sys: Sys, doc: PlanDoc, t: seq<Event>)
    requires Run(sys, Init(doc), t).Some?
    ensures Ledger(sys, doc, t, Run(sys, Init(doc), t).value)
  {
    InitInv(doc);
    if t == [] {
      SumZero(HarmPhase, Init(doc).phases, |doc.resources|);
    } else {
      var u, ev := t[..|t| - 1], t[|t| - 1];
      RunLedger(sys, doc, u);
      RunKeeps(sys, Init(doc), u);
      CancelSeen(sys, Init(doc), u);
      StepKeeps(sys, Run(sys, Init(doc), u).value, ev, Run(sys, Init(doc), t).value);
      LedgerStep(sys, doc, u, Run(sys, Init(doc), u).value, ev, Run(sys, Init(doc), t).value);
      assert u + [ev] == t;
    }
  }

  function KindsOf(results: seq<Option<ApplyResource>>): seq<ResultKind>
    requires forall i | 0 <= i < |results| :: results[i].Some?
  {
    seq(|results|, i requires 0 <= i < |results| => results[i].value.result)
  }

  ghost predicate AllStored(a: Apply) {
    |a.results| == |a.attempted| == |a.doc.resources| && forall i | 0 <= i < |a.results| :: a.results[i].Some?
  }

  predicate AllHarmless(kinds: seq<ResultKind>) {
    forall i | 0 <= i < |kinds| :: Harmless(kinds[i])
  }

  lemma FinishedCell(a: Apply, i: nat)
    requires Inv(a) && a.pc.Finished? && i < |a.doc.resources|
    ensures a.results[i].Some? && (Harmless(a.results[i].value.result) <==> HarmPhase(a.phases[i]) == 0)
  {
    assert CellOk(a, i);
  }

  lemma FinishedCells(a: Apply)
    requires Inv(a) && a.pc.Finished?
    ensures AllStored(a) &&
      (AllHarmless(KindsOf(a.results)) <==> forall i | 0 <= i < |a.phases| :: HarmPhase(a.phases[i]) == 0)
  {
    forall i | 0 <= i < |a.results|
      ensures a.results[i].Some? && (Harmless(a.results[i].value.result) <==> HarmPhase(a.phases[i]) == 0)
    {
      FinishedCell(a, i);
    }
    var kinds := KindsOf(a.results);
    assert forall i | 0 <= i < |kinds| :: Harmless(kinds[i]) <==> HarmPhase(a.phases[i]) == 0;
  }

  /** A finished run: every result is there, and they are all harmless exactly when
      nothing harmful happened. */
  lemma HarmlessExactly(sys: Sys, doc: PlanDoc, t: seq<Event>)
    requires Run(sys, Init(doc), t).Some? && Run(sys, Init(doc), t).value.pc.Finished?
    ensures
      var a := Run(sys, Init(doc), t).value;
      a.doc == doc && AllStored(a) && (AllHarmless(KindsOf(a.results)) <==> Harms(sys, doc, t) == 0)
  {
    InitInv(doc);
    RunKeeps(sys, Init(doc), t);
    RunLedger(sys, doc, t);
    var a := Run(sys, Init(doc), t).value;
    FinishedCells(a);
    SumZero(HarmPhase, a.phases, |a.phases|);
  }

  /** What the end of a run says about it. */
  lemma FinishedRun(sys: Sys, a: Apply, t: seq<Event>)
    requires Run(sys, Init(a.doc), t) == Some(a) && a.pc.Finished?
    ensures AllStored(a) && (AllHarmless(KindsOf(a.results)) <==> Harms(sys, a.doc, t) == 0)
    ensures (a.skipped <==> SkipIn(t)) && (a.skipped ==> a.cancelled)
    ensures CountTrue(a.attempted) + Unfound(t) ==
      Count(Accepted, t) + Count(StopsIssued, t) + Count(PanicsBeforeCall, t)
  {
    ActionsAccounted(sys, a.doc, t);
    HarmlessExactly(sys, a.doc, t);
    RunLedger(sys, a.doc, t);
  }

  /** applyPlan once its goroutines have ended; t is the run that led there, and
      cancelled the state of the context at the very end. The document counts the
      actions of the run, and its class is ok exactly when no resource was skipped,
      nothing harmful happened, and every port is free. */
  method FinishRun(sys: Sys, a: Apply, ghost t: seq<Event>, cancelled: bool, w: Watch, lookup: int -> Lookup)
    returns (out: ApplyDoc, observations: nat)
    requires Run(sys, Init(a.doc), t) == Some(a) && a.pc.Finished? && (a.cancelled ==> cancelled)
    requires Plausible(w) && a.doc.request.grace >= 0
    ensures out.executed + Unfound(t) == Count(Accepted, t) + Count(StopsIssued, t) + Count(PanicsBeforeCall, t)
    ensures |out.resources| == |a.doc.resources| && 1 <= observations <= 5 * a.doc.request.grace + 1
    ensures AllStored(a) && out.endpoints == Seen(sys, a.doc, KindsOf(a.results), w, observations - 1)
    ensures forall i | 0 <= i < |out.resources| :: out.resources[i].result == a.results[i].value.result
    ensures out.interrupted <==> cancelled && (SkipIn(t) || !AllFree(out.endpoints))
    ensures out.exitClass == OK <==> !SkipIn(t) && Harms(sys, a.doc, t) == 0 && AllFree(out.endpoints)
  {
    FinishedRun(sys, a, t);
    out, observations := FinishApply(sys, a.doc, KindsOf(a.results), a.attempted, a.skipped, cancelled, w, lookup);
  }
}
