/** On what evidence something was done: what an action had observed and looked up
    when it made its call, over every run. */
module ActionEvidence {
  import opened Domain
  import opened Plan
  import opened Outcome
  import opened Scheduler
  import opened SchedulerInvariant
  import Observe

  // ---- evidence -----------------------------------------------------------------------

  /** Resource k left the queue at m, was observed as pre at n, later than m. */
  ghost predicate ObservedAfterQueue(t: seq<Event>, k: nat, pre: Snapshot) {
    exists m, n :: 0 <= m < n < |t| && t[m] == Acquire(k) && t[n] == Collect(k, pre)
  }

  ghost predicate LeftQueue(t: seq<Event>, k: nat) {
    exists m :: 0 <= m < |t| && t[m] == Acquire(k)
  }

  ghost predicate JudgedWith(t: seq<Event>, k: nat, id: Lookup) {
    exists n :: 0 <= n < |t| && t[n] == Judge(k, id)
  }

  ghost predicate Evidence(sys: Sys, doc: PlanDoc, t: seq<Event>, k: nat, p: Phase)
    requires k < |doc.resources|
  {
    var r := doc.resources[k];
    && (!p.Queued? ==> LeftQueue(t, k))
    && (p.Collected? || p.Judging? || p.Signalling? || p.StopReady? ==> ObservedAfterQueue(t, k, p.pre))
    && (p.Signalling? ==>
          JudgedWith(t, k, p.id) && r.provider != DockerProvider && r.pid != sys.self
          && !NoLongerHolds(sys, p.pre, r, p.id))
    && (p.StopReady? ==> r.provider == DockerProvider && StopAllowed(p.pre, r))
  }

  lemma EvidenceGrows(sys: Sys, doc: PlanDoc, t: seq<Event>, ev: Event, k: nat, p: Phase)
    requires k < |doc.resources| && Evidence(sys, doc, t, k, p)
    ensures Evidence(sys, doc, t + [ev], k, p)
  {
    var u := t + [ev];
    assert forall j | 0 <= j < |t| :: u[j] == t[j];
    if LeftQueue(t, k) {
      var m :| 0 <= m < |t| && t[m] == Acquire(k);
      assert u[m] == Acquire(k);
    }
    if p.Signalling? {
      var n :| 0 <= n < |t| && t[n] == Judge(k, p.id);
      assert u[n] == Judge(k, p.id);
    }
    if p.Collected? || p.Judging? || p.Signalling? || p.StopReady? {
      var m, n :| 0 <= m < n < |t| && t[m] == Acquire(k) && t[n] == Collect(k, p.pre);
      assert u[m] == Acquire(k) && u[n] == Collect(k, p.pre);
    }
  }

  lemma PhaseEvidence(sys: Sys, doc: PlanDoc, t: seq<Event>, ev: Event, k: nat, cancelled: bool, p: Phase, q: Phase)
    requires k < |doc.resources| && Evidence(sys, doc, t, k, p)
    requires IsWorker(ev) && ev.i == k && PhaseStep(sys, doc.resources[k], cancelled, p, ev) == Some(q)
    ensures Evidence(sys, doc, t + [ev], k, q)
  {
    EvidenceGrows(sys, doc, t, ev, k, p);
    var u := t + [ev];
    assert u[|t|] == ev;
    if ev.Collect? {
      var m :| 0 <= m < |t| && t[m] == Acquire(k);
      assert u[m] == Acquire(k);
    }
  }

  /** The dispatcher's position is itself evidence that the resource left the queue. */
  ghost predicate DispatcherEvidence(a: Apply, t: seq<Event>) {
    a.pc.AtCheck? || a.pc.AtSpawn? ==> LeftQueue(t, a.pc.i)
  }

  lemma LeftQueueGrows(t: seq<Event>, ev: Event, k: nat)
    ensures LeftQueue(t, k) || ev == Acquire(k) ==> LeftQueue(t + [ev], k)
  {
    var u := t + [ev];
    if LeftQueue(t, k) {
      var m :| 0 <= m < |t| && t[m] == Acquire(k);
      assert u[m] == Acquire(k);
    }
    assert u[|t|] == ev;
  }

  predicate Unobserved(p: Phase) {
    p.Queued? || p.Skipped? || p.Started? || p.Collecting?
  }

  lemma DispatcherPhase(a: Apply, ev: Event, b: Apply, k: nat)
    requires Inv(a) && DispatcherStep(a, ev) == Some(b) && k < |a.phases| && Sized(b) && b.doc == a.doc
    ensures b.phases[k] == a.phases[k] ||
      (a.phases[k].Queued? && k == a.pc.i && !a.pc.AtAcquire? && Unobserved(b.phases[k]))
  {
    assert CellOk(a, k);
  }

  lemma WorkerEvidence(sys: Sys, a: Apply, t: seq<Event>, ev: Event, b: Apply, k: nat)
    requires Inv(a) && IsWorker(ev) && Step(sys, a, ev) == Some(b) && Sized(b) && b.doc == a.doc
    requires k < |a.doc.resources| && Evidence(sys, a.doc, t, k, a.phases[k])
    ensures Evidence(sys, a.doc, t + [ev], k, b.phases[k])
  {
    if ev.i == k {
      PhaseEvidence(sys, a.doc, t, ev, k, a.cancelled, a.phases[k], b.phases[k]);
    } else {
      EvidenceGrows(sys, a.doc, t, ev, k, a.phases[k]);
      assert b.phases[k] == a.phases[k];
    }
  }

  lemma QueueEvidence(sys: Sys, a: Apply, t: seq<Event>, ev: Event, b: Apply, k: nat)
    requires Inv(a) && DispatcherStep(a, ev) == Some(b) && Sized(b) && b.doc == a.doc && k < |a.doc.resources|
    requires Evidence(sys, a.doc, t, k, a.phases[k]) && DispatcherEvidence(a, t)
    ensures Evidence(sys, a.doc, t + [ev], k, b.phases[k])
  {
    EvidenceGrows(sys, a.doc, t, ev, k, a.phases[k]);
    LeftQueueGrows(t, ev, k);
    DispatcherPhase(a, ev, b, k);
  }

  lemma StepEvidence(sys: Sys, a: Apply, t: seq<Event>, ev: Event, b: Apply, k: nat)
    requires Inv(a) && Step(sys, a, ev) == Some(b) && Sized(b) && b.doc == a.doc && k < |a.doc.resources|
    requires Evidence(sys, a.doc, t, k, a.phases[k]) && DispatcherEvidence(a, t)
    ensures Evidence(sys, a.doc, t + [ev], k, b.phases[k])
  {
    if IsWorker(ev) {
      WorkerEvidence(sys, a, t, ev, b, k);
    } else if ev.Cancel? {
      EvidenceGrows(sys, a.doc, t, ev, k, a.phases[k]);
    } else {
      QueueEvidence(sys, a, t, ev, b, k);
    }
  }

  ghost predicate Evidences(sys: Sys, doc: PlanDoc, t: seq<Event>, a: Apply) {
    && a.doc == doc && |a.phases| == |doc.resources| && DispatcherEvidence(a, t)
    && forall k | 0 <= k < |doc.resources| :: Evidence(sys, doc, t, k, a.phases[k])
  }

  lemma EvidencesStep(sys: Sys, doc: PlanDoc, t: seq<Event>, a: Apply, ev: Event, b: Apply)
    requires Inv(a) && Step(sys, a, ev) == Some(b) && Evidences(sys, doc, t, a)
    ensures Evidences(sys, doc, t + [ev], b)
  {
    StepKeeps(sys, a, ev, b);
    forall k | 0 <= k < |doc.resources| ensures Evidence(sys, doc, t + [ev], k, b.phases[k]) {
      StepEvidence(sys, a, t, ev, b, k);
    }
    DispatcherEvidenceStep(sys, t, a, ev, b);
  }

  lemma DispatcherEvidenceStep(sys: Sys, t: seq<Event>, a: Apply, ev: Event, b: Apply)
    requires Inv(a) && Step(sys, a, ev) == Some(b) && DispatcherEvidence(a, t)
    ensures DispatcherEvidence(b, t + [ev])
  {
    if b.pc.AtCheck? || b.pc.AtSpawn? {
      LeftQueueGrows(t, ev, b.pc.i);
    }
  }

  lemma {:induction false} RunEvidence(sys: Sys, a: Apply, t: seq<Event>)
    requires Inv(a) && Evidences(sys, a.doc, [], a) && Run(sys, a, t).Some?
    ensures Evidences(sys, a.doc, t, Run(sys, a, t).value)
  {
    if t != [] {
      var u, ev := t[..|t| - 1], t[|t| - 1];
      RunEvidence(sys, a, u);
      RunKeeps(sys, a, u);
      EvidencesStep(sys, a.doc, u, Run(sys, a, u).value, ev, Run(sys, a, t).value);
      assert u + [ev] == t;
    }
  }

  lemma InitEvidence(sys: Sys, doc: PlanDoc, t: seq<Event>)
    requires Run(sys, Init(doc), t).Some?
    ensures Evidences(sys, doc, t, Run(sys, Init(doc), t).value)
  {
    InitInv(doc);
    RunEvidence(sys, Init(doc), t);
  }

  /** No stale action: whenever a signal is sent, an observation made after the
      resource left the queue did not prove the planned process closed, or the
      identity lookup that followed did not show the planned incarnation alive. */
  lemma NoStaleSignal(sys: Sys, doc: PlanDoc, t: seq<Event>, k: nat, answer: SignalAnswer)
    requires Run(sys, Init(doc), t + [SignalCall(k, answer)]).Some?
    ensures k < |doc.resources| && doc.resources[k].provider != DockerProvider && doc.resources[k].pid != sys.self
    ensures exists pre, id ::
      ObservedAfterQueue(t, k, pre) && JudgedWith(t, k, id) && !NoLongerHolds(sys, pre, doc.resources[k], id)
  {
    var u := t + [SignalCall(k, answer)];
    assert u[..|t|] == t;
    InitEvidence(sys, doc, t);
    var p := Run(sys, Init(doc), t).value.phases[k];
    assert Evidence(sys, doc, t, k, p) && p.Signalling?;
  }

  /** A docker stop is only issued for a planned container that an observation
      made after the queue showed running and publishing a planned port. */
  lemma NoStaleStop(sys: Sys, doc: PlanDoc, t: seq<Event>, k: nat)
    requires Run(sys, Init(doc), t + [StopCall(k)]).Some?
    ensures k < |doc.resources| && doc.resources[k].provider == DockerProvider
    ensures exists pre :: ObservedAfterQueue(t, k, pre) && StopAllowed(pre, doc.resources[k])
  {
    var u := t + [StopCall(k)];
    assert u[..|t|] == t;
    InitEvidence(sys, doc, t);
    var p := Run(sys, Init(doc), t).value.phases[k];
    assert Evidence(sys, doc, t, k, p) && p.StopReady?;
  }

  // ---- the observation of an action is its only one --------------------------------------

  predicate Observed(p: Phase) {
    p.Collected? || p.Judging? || p.Signalling? || p.StopReady?
  }

  ghost predicate OnlyOne(t: seq<Event>, k: nat, p: Phase) {
    && (Unobserved(p) ==> forall n | 0 <= n < |t| && t[n].Collect? :: t[n].i != k)
    && (Observed(p) ==> forall n | 0 <= n < |t| && t[n].Collect? && t[n].i == k :: t[n].pre == p.pre)
    && (Unobserved(p) || p.Collected? || p.Judging? ==> forall n | 0 <= n < |t| && t[n].Judge? :: t[n].i != k)
    && (p.Signalling? ==> forall n | 0 <= n < |t| && t[n].Judge? && t[n].i == k :: t[n].id == p.id)
  }

  lemma OnlyOneGrows(t: seq<Event>, ev: Event, k: nat, p: Phase)
    requires OnlyOne(t, k, p) && !(ev.Collect? && ev.i == k) && !(ev.Judge? && ev.i == k)
    ensures OnlyOne(t + [ev], k, p)
  {
  }

  lemma OnlyOnePhase(sys: Sys, r: PlanResource, cancelled: bool, t: seq<Event>, ev: Event, k: nat, p: Phase, q: Phase)
    requires OnlyOne(t, k, p) && IsWorker(ev) && ev.i == k && PhaseStep(sys, r, cancelled, p, ev) == Some(q)
    ensures OnlyOne(t + [ev], k, q)
  {
    var u := t + [ev];
    assert forall n | 0 <= n < |t| :: u[n] == t[n];
    assert u[|t|] == ev;
    if ev.Judge? {
      assert q.Returned? || (q.StopReady? && q.pre == p.pre) || q == Signalling(p.pre, ev.id);
    }
  }

  lemma OnlyOneStep(sys: Sys, a: Apply, t: seq<Event>, ev: Event, b: Apply, k: nat)
    requires Inv(a) && Step(sys, a, ev) == Some(b) && Sized(b) && b.doc == a.doc && k < |a.doc.resources|
    requires OnlyOne(t, k, a.phases[k])
    ensures OnlyOne(t + [ev], k, b.phases[k])
  {
    if IsWorker(ev) && ev.i == k {
      OnlyOnePhase(sys, a.doc.resources[k], a.cancelled, t, ev, k, a.phases[k], b.phases[k]);
    } else {
      OnlyOneGrows(t, ev, k, a.phases[k]);
      if !IsWorker(ev) && !ev.Cancel? {
        DispatcherPhase(a, ev, b, k);
      }
    }
  }

  lemma {:induction false} RunOnlyOne(sys: Sys, a: Apply, t: seq<Event>, k: nat)
    requires Inv(a) && k < |a.doc.resources| && OnlyOne([], k, a.phases[k]) && Run(sys, a, t).Some?
    ensures Sized(Run(sys, a, t).value) && Run(sys, a, t).value.doc == a.doc &&
      OnlyOne(t, k, Run(sys, a, t).value.phases[k])
  {
    if t != [] {
      var u, ev := t[..|t| - 1], t[|t| - 1];
      RunOnlyOne(sys, a, u, k);
      RunKeeps(sys, a, u);
      OneMoreOnlyOne(sys, Run(sys, a, u).value, u, ev, Run(sys, a, t).value, k);
      assert u + [ev] == t;
    }
  }

  lemma OneMoreOnlyOne(sys: Sys, a: Apply, t: seq<Event>, ev: Event, b: Apply, k: nat)
    requires Inv(a) && Step(sys, a, ev) == Some(b) && k < |a.doc.resources| && OnlyOne(t, k, a.phases[k])
    ensures Sized(b) && b.doc == a.doc && OnlyOne(t + [ev], k, b.phases[k])
  {
    StepKeeps(sys, a, ev, b);
    OnlyOneStep(sys, a, t, ev, b, k);
  }

  lemma SignalEvidence(sys: Sys, a: Apply, t: seq<Event>, k: nat, pre: Snapshot, id: Lookup)
    requires Sized(a) && k < |a.phases| && Evidence(sys, a.doc, t, k, a.phases[k]) && OnlyOne(t, k, a.phases[k])
    requires a.phases[k].Signalling? && Collect(k, pre) in t && Judge(k, id) in t
    ensures !NoLongerHolds(sys, pre, a.doc.resources[k], id)
  {
    var p := a.phases[k];
    var n :| 0 <= n < |t| && t[n] == Collect(k, pre);
    var m :| 0 <= m < |t| && t[m] == Judge(k, id);
    assert p.pre == pre && p.id == id;
  }

  /** A process that an action's observation proves closed, and that the lookup
      after it shows still to be the planned incarnation, is never signalled:
      wherever a signal is sent, neither held of what the action had seen. */
  lemma ClosedIsNeverSignalled(sys: Sys, doc: PlanDoc, t: seq<Event>, k: nat, pre: Snapshot, id: Lookup,
                               answer: SignalAnswer)
    requires Run(sys, Init(doc), t + [SignalCall(k, answer)]).Some?
    requires Collect(k, pre) in t && Judge(k, id) in t
    ensures k < |doc.resources| && !NoLongerHolds(sys, pre, doc.resources[k], id)
  {
    InitInv(doc);
    SignalledFrom(sys, Init(doc), t, k, pre, id, answer);
  }

  lemma SignalledFrom(sys: Sys, a: Apply, t: seq<Event>, k: nat, pre: Snapshot, id: Lookup, answer: SignalAnswer)
    requires Inv(a) && Evidences(sys, a.doc, [], a) && (k < |a.doc.resources| ==> OnlyOne([], k, a.phases[k]))
    requires Run(sys, a, t + [SignalCall(k, answer)]).Some?
    requires Collect(k, pre) in t && Judge(k, id) in t
    ensures k < |a.doc.resources| && !NoLongerHolds(sys, pre, a.doc.resources[k], id)
  {
    assert (t + [SignalCall(k, answer)])[..|t|] == t;
    var b := Run(sys, a, t).value;
    RunKeeps(sys, a, t);
    SignalStepMeans(sys, b, k, answer);
    RunEvidence(sys, a, t);
    RunOnlyOne(sys, a, t, k);
    assert Evidence(sys, a.doc, t, k, b.phases[k]);
    SignalEvidence(sys, b, t, k, pre, id);
  }

  lemma SignalStepMeans(sys: Sys, a: Apply, k: nat, answer: SignalAnswer)
    requires Step(sys, a, SignalCall(k, answer)).Some?
    ensures k < |a.phases| && k < |a.doc.resources| && a.phases[k].Signalling?
  {
  }

  // ---- reaching the verdict of any action ---------------------------------------------

  /** The dispatcher is about to take resource i, and everything before it is done. */
  ghost predicate AtTop(a: Apply, i: nat) {
    && Sized(a) && !a.cancelled && a.pc == AtAcquire(i) && a.slots == 0 && a.running == 0
    && forall k | i <= k < |a.phases| :: a.phases[k].Queued?
  }

  /** No identity was looked up and no signal was sent. */
  predicate Quiet(t: seq<Event>) {
    forall j | 0 <= j < |t| :: !t[j].Judge? && !t[j].SignalCall?
  }

  ghost predicate QuietRun(sys: Sys, doc: PlanDoc, t: seq<Event>, a: Apply) {
    Run(sys, Init(doc), t) == Some(a) && Quiet(t)
  }

  lemma QuietSnoc(sys: Sys, doc: PlanDoc, t: seq<Event>, a: Apply, ev: Event, b: Apply)
    requires QuietRun(sys, doc, t, a) && Step(sys, a, ev) == Some(b) && !ev.Judge? && !ev.SignalCall?
    ensures QuietRun(sys, doc, t + [ev], b)
  {
    RunSnoc(sys, Init(doc), t, ev);
  }

  function Launched(a: Apply, i: nat): Apply
    requires i < |a.phases|
  {
    a.(slots := 1, running := 1, pc := AtAcquire(i + 1), phases := a.phases[i := Started])
  }

  lemma Launch(sys: Sys, doc: PlanDoc, t: seq<Event>, a: Apply, i: nat) returns (u: seq<Event>)
    requires QuietRun(sys, doc, t, a) && AtTop(a, i) && i < |a.phases|
    ensures QuietRun(sys, doc, u, Launched(a, i))
  {
    var b := a.(slots := 1, pc := AtCheck(i));
    QuietSnoc(sys, doc, t, a, Acquire(i), b);
    var c := b.(pc := AtSpawn(i));
    QuietSnoc(sys, doc, t + [Acquire(i)], b, Admit(i), c);
    u := t + [Acquire(i)] + [Admit(i)] + [Spawn(i)];
    QuietSnoc(sys, doc, t + [Acquire(i)] + [Admit(i)], c, Spawn(i), Launched(a, i));
  }

  /** A goroutine moves on without touching anything shared. */
  lemma Advance(sys: Sys, doc: PlanDoc, t: seq<Event>, a: Apply, ev: Event, p: Phase)
    requires QuietRun(sys, doc, t, a) && IsWorker(ev) && !ev.Judge? && !ev.SignalCall?
    requires !ev.Store? && !ev.Release? && !ev.Exit? && ev.i < |a.phases| && ev.i < |a.doc.resources|
    requires PhaseStep(sys, a.doc.resources[ev.i], a.cancelled, a.phases[ev.i], ev) == Some(p)
    ensures QuietRun(sys, doc, t + [ev], Move(a, ev.i, p))
  {
    QuietSnoc(sys, doc, t, a, ev, Move(a, ev.i, p));
  }

  function Kept(a: Apply, i: nat, kind: ResultKind): Apply
    requires i < |a.phases| && i < |a.results| && i < |a.attempted| && i < |a.doc.resources|
  {
    a.(phases := a.phases[i := Stored(kind, true)],
       results := a.results[i := Some(NewResult(a.doc.resources[i], kind))], attempted := a.attempted[i := true])
  }

  lemma StoreStep(sys: Sys, a: Apply, i: nat, kind: ResultKind)
    requires Sized(a) && i < |a.phases| && a.phases[i] == Returned(kind, true)
    ensures Step(sys, a, Store(i)) == Some(Kept(a, i, kind))
  {
  }

  lemma ReleaseStep(sys: Sys, a: Apply, i: nat, kind: ResultKind)
    requires i < |a.phases| && i < |a.doc.resources| && a.phases[i] == Stored(kind, true) && a.slots == 1
    ensures Step(sys, a, Release(i)) == Some(a.(slots := 0, phases := a.phases[i := Released(kind, true)]))
  {
  }

  lemma ExitStep(sys: Sys, a: Apply, i: nat, kind: ResultKind)
    requires i < |a.phases| && i < |a.doc.resources| && a.phases[i] == Released(kind, true) && a.running == 1
    ensures Step(sys, a, Exit(i)) == Some(a.(running := 0, phases := a.phases[i := Exited(kind, true)]))
  {
  }

  /** A goroutine that has its result stores it, gives back its slot and ends. */
  lemma Leave(sys: Sys, doc: PlanDoc, t: seq<Event>, a: Apply, i: nat, kind: ResultKind)
    returns (u: seq<Event>, b: Apply)
    requires QuietRun(sys, doc, t, a) && Sized(a) && i < |a.phases| && a.phases[i] == Returned(kind, true)
    requires a.slots == 1 && a.running == 1
    ensures QuietRun(sys, doc, u, b) && b.phases == a.phases[i := Exited(kind, true)] && Sized(b)
    ensures b.slots == 0 && b.running == 0 && b.pc == a.pc && b.cancelled == a.cancelled && b.doc == a.doc
  {
    var c := Kept(a, i, kind);
    StoreStep(sys, a, i, kind);
    QuietSnoc(sys, doc, t, a, Store(i), c);
    var d := c.(slots := 0, phases := c.phases[i := Released(kind, true)]);
    ReleaseStep(sys, c, i, kind);
    QuietSnoc(sys, doc, t + [Store(i)], c, Release(i), d);
    b := d.(running := 0, phases := d.phases[i := Exited(kind, true)]);
    ExitStep(sys, d, i, kind);
    u := t + [Store(i)] + [Release(i)] + [Exit(i)];
    QuietSnoc(sys, doc, t + [Store(i)] + [Release(i)], d, Exit(i), b);
  }

  /** One resource is out of the way: its goroutine failed at once. */
  lemma PassOne(sys: Sys, doc: PlanDoc, t: seq<Event>, a: Apply, i: nat) returns (u: seq<Event>, b: Apply)
    requires QuietRun(sys, doc, t, a) && AtTop(a, i) && i < |a.phases|
    ensures QuietRun(sys, doc, u, b) && AtTop(b, i + 1) && |b.phases| == |a.phases|
  {
    var v := Launch(sys, doc, t, a, i);
    var s := Launched(a, i);
    Advance(sys, doc, v, s, PanicEarly(i), Returned(ActionFailed, true));
    u, b := Leave(sys, doc, v + [PanicEarly(i)], Move(s, i, Returned(ActionFailed, true)), i, ActionFailed);
  }

  lemma {:induction false} ReachTop(sys: Sys, doc: PlanDoc, i: nat) returns (t: seq<Event>, a: Apply)
    requires i <= |doc.resources|
    ensures QuietRun(sys, doc, t, a) && AtTop(a, i) && |a.phases| == |doc.resources|
  {
    if i == 0 {
      t, a := [], Init(doc);
    } else {
      var u, b := ReachTop(sys, doc, i - 1);
      t, a := PassOne(sys, doc, u, b, i - 1);
    }
  }

  /** Any resource of any plan can come to its verdict with any observation. */
  lemma VerdictIsReachable(sys: Sys, doc: PlanDoc, k: nat, pre: Snapshot) returns (t: seq<Event>, a: Apply)
    requires k < |doc.resources|
    ensures QuietRun(sys, doc, t, a) && a.doc == doc && Sized(a) && a.phases[k] == Judging(pre) && Collect(k, pre) in t
  {
    var u, b := ReachTop(sys, doc, k);
    RunKeepsDoc(sys, doc, u);
    var v := Launch(sys, doc, u, b, k);
    var c := Launched(b, k);
    Advance(sys, doc, v, c, Enter(k), Collecting);
    var d := Move(c, k, Collecting);
    Advance(sys, doc, v + [Enter(k)], d, Collect(k, pre), Phase.Collected(pre));
    var e := Move(d, k, Phase.Collected(pre));
    t, a := v + [Enter(k)] + [Collect(k, pre)] + [Resume(k)], Move(e, k, Judging(pre));
    Advance(sys, doc, v + [Enter(k)] + [Collect(k, pre)], e, Resume(k), Judging(pre));
    assert t[|v| + 1] == Collect(k, pre);
  }

  lemma RunKeepsDoc(sys: Sys, doc: PlanDoc, t: seq<Event>)
    requires Run(sys, Init(doc), t).Some?
    ensures Run(sys, Init(doc), t).value.doc == doc
  {
    InitInv(doc);
    RunKeeps(sys, Init(doc), t);
  }

  ghost predicate SignalsAfter(sys: Sys, doc: PlanDoc, t: seq<Event>, k: nat, pre: Snapshot, id: Lookup) {
    Collect(k, pre) in t && Run(sys, Init(doc), t + [Judge(k, id)] + [SignalCall(k, Delivered)]).Some?
  }

  /** The lookup is needed: when it fails, or names another incarnation, the very
      same observation can end in a signal, for any process of any plan. */
  lemma ClosedSignalledWithoutLookup(sys: Sys, doc: PlanDoc, k: nat, pre: Snapshot, id: Lookup)
    requires k < |doc.resources| && doc.resources[k].provider != DockerProvider && doc.resources[k].pid != sys.self
    requires ProvenClosed(sys, pre, doc.resources[k]) && (id.err.Some? || id.start != doc.resources[k].start)
    ensures exists t :: SignalsAfter(sys, doc, t, k, pre, id)
  {
    var t, a := VerdictIsReachable(sys, doc, k, pre);
    var b := Move(a, k, Signalling(pre, id));
    assert Step(sys, a, Judge(k, id)) == Some(b);
    RunSnoc(sys, Init(doc), t, Judge(k, id));
    RunSnoc(sys, Init(doc), t + [Judge(k, id)], SignalCall(k, Delivered));
    assert SignalsAfter(sys, doc, t, k, pre, id);
  }

  // ---- what proves a process closed ------------------------------------------------------

  ghost predicate OwnsOn(sys: Sys, pre: Snapshot, p: int, pid: int) {
    exists o :: o in Observe.Endpoint(sys, pre, p).owners && o.pid == pid
  }

  ghost predicate LiveRowFor(pre: Snapshot, p: int, pid: int) {
    exists l :: Observe.Live(pre, l, p) && l.pid == pid
  }

  lemma OwnersOnPort(sys: Sys, pre: Snapshot, p: int, pid: int)
    requires Observe.Collected(pre)
    ensures OwnsOn(sys, pre, p, pid) <==> LiveRowFor(pre, p, pid)
  {
    Observe.OwnersOfMembers(pre, p);
    if LiveRowFor(pre, p, pid) {
      var l :| Observe.Live(pre, l, p) && l.pid == pid;
      assert Observe.OwnerAt(pre, p, pid) in Observe.OwnersOf(pre, p);
    }
  }

  ghost predicate Published(pre: Snapshot, p: int) {
    exists c :: c in pre.containers && p in c.ports
  }

  ghost predicate NoLiveRow(pre: Snapshot, p: int) {
    forall l :: !Observe.Live(pre, l, p)
  }

  /** A live row whose identity lookup was denied, and whether its name is Docker's. */
  ghost predicate DeniedRow(sys: Sys, pre: Snapshot, p: int, l: Listener, infra: bool) {
    && Observe.Live(pre, l, p) && Observe.OwnerAt(pre, p, l.pid).ident == IdentDenied
    && sys.infra(Observe.OwnerAt(pre, p, l.pid).name) == infra
  }

  ghost predicate DeniedOn(sys: Sys, pre: Snapshot, p: int, infra: bool) {
    exists l :: DeniedRow(sys, pre, p, l, infra)
  }

  /** Somebody whom the native sources do not show holds the port. */
  ghost predicate Concealed(pre: Snapshot, p: int) {
    Observe.HiddenRow(pre, p) || (pre.tableOK && p in pre.tableHas && NoLiveRow(pre, p))
  }

  /** Somebody on the port is not accounted for; a container that publishes the
      port accounts for the concealed and for Docker's own processes. */
  ghost predicate InDoubt(sys: Sys, pre: Snapshot, p: int) {
    DeniedOn(sys, pre, p, false) || (!Published(pre, p) && (Concealed(pre, p) || DeniedOn(sys, pre, p, true)))
  }

  /** It is only a container that accounts for somebody on the port. */
  ghost predicate Leans(sys: Sys, pre: Snapshot, p: int) {
    Published(pre, p) && (Concealed(pre, p) || DeniedOn(sys, pre, p, true))
  }

  lemma ContainersOnPort(pre: Snapshot, p: int)
    ensures Observe.ContainersOf(pre.containers, p) != [] <==> Published(pre, p)
  {
    Observe.ContainersOfMembers(pre.containers, p);
    var cs := Observe.ContainersOf(pre.containers, p);
    if cs != [] { assert cs[0] in cs; }
  }

  lemma OwnersThere(pre: Snapshot, p: int)
    ensures Observe.OwnersOf(pre, p) == [] <==> NoLiveRow(pre, p)
  {
    Observe.OwnersOfMembers(pre, p);
    var os := Observe.OwnersOf(pre, p);
    if os != [] { assert os[0] in os; }
    if l :| Observe.Live(pre, l, p) { assert Observe.OwnerAt(pre, p, l.pid) in os; }
  }

  lemma DeniedOwners(sys: Sys, pre: Snapshot, p: int, explained: bool)
    ensures (exists o :: o in Observe.OwnersOf(pre, p) && Observe.DeniedActionable(sys, o, explained)) <==>
      DeniedOn(sys, pre, p, false) || (!explained && DeniedOn(sys, pre, p, true))
  {
    Observe.OwnersOfMembers(pre, p);
    if o :| o in Observe.OwnersOf(pre, p) && Observe.DeniedActionable(sys, o, explained) {
      var l :| Observe.Live(pre, l, p) && o == Observe.OwnerAt(pre, p, l.pid);
      assert DeniedRow(sys, pre, p, l, sys.infra(o.name));
    }
    if l, infra :| DeniedRow(sys, pre, p, l, infra) && !(explained && infra) {
      var o := Observe.OwnerAt(pre, p, l.pid);
      assert o in Observe.OwnersOf(pre, p) && Observe.DeniedActionable(sys, o, explained);
    }
  }

  /** The unattributed flag of an endpoint, in terms of the raw observation. */
  lemma UnattributedMeans(sys: Sys, pre: Snapshot, p: int)
    ensures Observe.Endpoint(sys, pre, p).unattributed <==> InDoubt(sys, pre, p)
  {
    ContainersOnPort(pre, p);
    OwnersThere(pre, p);
    DeniedOwners(sys, pre, p, Observe.ContainersOf(pre.containers, p) != []);
  }

  /** A hidden occupant is one that is concealed and that no container accounts for. */
  lemma HiddenMeans(sys: Sys, pre: Snapshot, p: int)
    ensures Observe.Endpoint(sys, pre, p).hidden <==> !Published(pre, p) && Concealed(pre, p)
  {
    ContainersOnPort(pre, p);
    OwnersThere(pre, p);
  }

  predicate ProviderFailed(pre: Snapshot) {
    pre.ownerErr.Some? || pre.dockerErr.Some?
  }

  /** What each visibility means, in terms of the raw observation: a provider failed or
      could not name an owner of the port; else somebody is not accounted for; else
      nothing at all was visible; else the view is complete. */
  lemma VisibilityMeans(sys: Sys, pre: Snapshot, p: int)
    ensures
      var v := Observe.Endpoint(sys, pre, p).visibility;
      var failed := ProviderFailed(pre) || (pre.namesUnavailable && !NoLiveRow(pre, p));
      var blind := !pre.tableOK && NoLiveRow(pre, p) && !Published(pre, p);
      && (v == ProviderUnavailable <==> failed)
      && (v == PermissionLimited <==> !failed && InDoubt(sys, pre, p))
      && (v == NoneVisible <==> !failed && !InDoubt(sys, pre, p) && blind)
      && (v == Complete <==> !failed && !InDoubt(sys, pre, p) && !blind)
  {
    UnattributedMeans(sys, pre, p);
    ContainersOnPort(pre, p);
    OwnersThere(pre, p);
  }

  /** What proves a process closed, in terms of the raw observation: no live row
      shows it on a planned port, every native source was read, and nobody on a
      planned port is unaccounted for. */
  lemma ClosedIsProven(sys: Sys, pre: Snapshot, r: PlanResource)
    requires Observe.Collected(pre) && r.ports != []
    ensures ProvenClosed(sys, pre, r) <==>
      && pre.tableOK && pre.ownerErr.None?
      && (forall p | p in r.ports :: !InDoubt(sys, pre, p))
      && (forall p | p in r.ports :: !LiveRowFor(pre, p, r.pid))
  {
    var first := r.ports[0];
    assert first in r.ports;
    forall p | p in r.ports
      ensures OwnsOn(sys, pre, p, r.pid) <==> LiveRowFor(pre, p, r.pid)
      ensures Observe.Endpoint(sys, pre, p).unattributed <==> InDoubt(sys, pre, p)
    {
      OwnersOnPort(sys, pre, p, r.pid);
      UnattributedMeans(sys, pre, p);
    }
    if ProvenClosed(sys, pre, r) {
      forall p | p in r.ports ensures !LiveRowFor(pre, p, r.pid) {
        assert !OwnsOn(sys, pre, p, r.pid);
      }
    } else {
      var q :| q in r.ports && !(pre.tableOK && pre.ownerErr.None? && !Observe.Endpoint(sys, pre, q).unattributed
        && forall o | o in Observe.Endpoint(sys, pre, q).owners :: o.pid != r.pid);
      assert (exists o :: o in Observe.Endpoint(sys, pre, q).owners && o.pid == r.pid) ==> OwnsOn(sys, pre, q, r.pid);
    }
  }

  // ---- what Docker has to do with it ------------------------------------------------------

  /** The same observation, had Docker failed. */
  function WithoutDocker(pre: Snapshot, error: string): Snapshot {
    pre.(dockerErr := Some(error), containers := [], dockerIds := {})
  }

  lemma DoubtWithoutDocker(sys: Sys, pre: Snapshot, error: string, p: int)
    ensures InDoubt(sys, WithoutDocker(pre, error), p) <==> InDoubt(sys, pre, p) || Leans(sys, pre, p)
  {
    var bare := WithoutDocker(pre, error);
    assert forall l :: Observe.Live(bare, l, p) == Observe.Live(pre, l, p);
    assert forall l :: Observe.Row(bare, l, p) == Observe.Row(pre, l, p);
    assert forall l: Listener :: Observe.OwnerAt(bare, p, l.pid) == Observe.OwnerAt(pre, p, l.pid);
    forall l, infra ensures DeniedRow(sys, bare, p, l, infra) == DeniedRow(sys, pre, p, l, infra) {}
    assert NoLiveRow(bare, p) == NoLiveRow(pre, p);
    assert Observe.HiddenRow(bare, p) == Observe.HiddenRow(pre, p);
    assert !Published(bare, p);
  }

  /** A Docker failure takes a proof of closure away exactly when on some planned
      port only a container accounts for somebody; it never adds one. */
  lemma DockerMattersExactly(sys: Sys, pre: Snapshot, error: string, r: PlanResource)
    requires Observe.Collected(pre) && r.ports != []
    ensures ProvenClosed(sys, WithoutDocker(pre, error), r) <==>
      ProvenClosed(sys, pre, r) && forall p | p in r.ports :: !Leans(sys, pre, p)
  {
    var bare := WithoutDocker(pre, error);
    ClosedIsProven(sys, pre, r);
    ClosedIsProven(sys, bare, r);
    forall p | p in r.ports
      ensures InDoubt(sys, bare, p) <==> InDoubt(sys, pre, p) || Leans(sys, pre, p)
      ensures LiveRowFor(bare, p, r.pid) <==> LiveRowFor(pre, p, r.pid)
    {
      DoubtWithoutDocker(sys, pre, error, p);
      RowsWithoutDocker(pre, error, p, r.pid);
    }
  }

  lemma RowsWithoutDocker(pre: Snapshot, error: string, p: int, pid: int)
    ensures LiveRowFor(WithoutDocker(pre, error), p, pid) <==> LiveRowFor(pre, p, pid)
  {
    assert forall l :: Observe.Live(WithoutDocker(pre, error), l, p) == Observe.Live(pre, l, p);
  }

  /** The comment in noLongerHolds says that a Docker failure cannot turn a proven
      stale action into a signal. It can: the table shows the port in use, its
      holder is not visible, and a container publishes it. With Docker's answer the
      planned process is proven closed, without it it is signalled. */
  lemma DockerFailureSignals(sys: Sys, error: string, cid: string, r: PlanResource, id: Lookup)
    requires r.provider != DockerProvider && r.pid != sys.self && r.ports == [80]
    requires id.err.None? && id.start == r.start
    ensures
      var web := Container(cid, "web", [80], IsFullContainerId(cid));
      var pre := Snapshot(Linux, Tcp, true, {80}, [], None, false, true, None, [web], {cid}, map[]);
      var bare := WithoutDocker(pre, error);
      && Observe.Collected(pre) && Observe.Collected(bare)
      && Decide(sys, pre, r, id) == Returned(NotAttempted, false)
      && Decide(sys, bare, r, id) == Signalling(bare, id)
  {
    var web := Container(cid, "web", [80], IsFullContainerId(cid));
    var pre := Snapshot(Linux, Tcp, true, {80}, [], None, false, true, None, [web], {cid}, map[]);
    assert web in pre.containers && 80 in web.ports;
    assert Published(pre, 80) && 80 in r.ports && Leans(sys, pre, 80);
    ClosedIsProven(sys, pre, r);
    DockerMattersExactly(sys, pre, error, r);
  }

  // ---- the same decisions as loops --------------------------------------------------------

  method Shows(owners: seq<OwnerObs>, pid: int) returns (shown: bool)
    ensures shown <==> exists o :: o in owners && o.pid == pid
  {
    for k := 0 to |owners|
      invariant forall j | 0 <= j < k :: owners[j].pid != pid
    {
      if owners[k].pid == pid {
        assert owners[k] in owners;
        return true;
      }
    }
    shown := false;
  }

  method CheckNoLongerHolds(sys: Sys, pre: Snapshot, r: PlanResource, id: Lookup) returns (closed: bool)
    requires Observe.Collected(pre)
    ensures closed <==> NoLongerHolds(sys, pre, r, id)
  {
    for i := 0 to |r.ports|
      invariant forall j | 0 <= j < i :: ClosedOn(sys, pre, r.ports[j], r.pid)
    {
      var port := r.ports[i];
      assert port in r.ports;
      var e := Observe.ProjectEndpoint(sys, pre, port);
      if !pre.tableOK || pre.ownerErr.Some? || e.unattributed {
        return false;
      }
      var shown := Shows(e.owners, r.pid);
      if shown {
        return false;
      }
    }
    closed := id.err.None? && id.start == r.start;
  }

  method SharesPort(r: PlanResource, c: Container) returns (found: bool)
    ensures found <==> exists p :: p in r.ports && p in c.ports
  {
    for k := 0 to |r.ports|
      invariant forall j | 0 <= j < k :: r.ports[j] !in c.ports
    {
      if r.ports[k] in c.ports {
        var port := r.ports[k];
        assert port in r.ports && port in c.ports;
        return true;
      }
    }
    found := false;
  }

  predicate PublishesAt(pre: Snapshot, r: PlanResource, j: nat)
    requires j < |pre.containers|
  {
    pre.containers[j].id == r.containerId && exists p :: p in r.ports && p in pre.containers[j].ports
  }

  method DockerLists(pre: Snapshot, r: PlanResource) returns (listed: bool, publishing: bool)
    ensures listed <==> r.containerId in pre.dockerIds
    ensures publishing <==> Publishing(pre, r)
  {
    listed, publishing := r.containerId in pre.dockerIds, false;
    for i := 0 to |pre.containers|
      invariant publishing <==> exists j :: 0 <= j < i && PublishesAt(pre, r, j)
    {
      var c := pre.containers[i];
      if c.id == r.containerId {
        var shares := SharesPort(r, c);
        assert shares <==> PublishesAt(pre, r, i);
        publishing := publishing || shares;
      }
    }
    if publishing {
      var j :| 0 <= j < |pre.containers| && PublishesAt(pre, r, j);
      assert pre.containers[j] in pre.containers;
    }
    if Publishing(pre, r) {
      var c :| c in pre.containers && c.id == r.containerId && exists p :: p in r.ports && p in c.ports;
      var j :| 0 <= j < |pre.containers| && pre.containers[j] == c;
      assert PublishesAt(pre, r, j);
    }
  }

  /** One action up to its call, as act, signalProcess and stopContainer decide it. */
  method DecideAction(sys: Sys, pre: Snapshot, r: PlanResource, id: Lookup) returns (next: Phase)
    requires Observe.Collected(pre)
    ensures next == Decide(sys, pre, r, id)
  {
    if r.provider == DockerProvider {
      if pre.dockerErr.Some? || !pre.dockerAvail {
        return Returned(NotAttempted, false);
      }
      var listed, publishing := DockerLists(pre, r);
      if !listed || !publishing {
        return Returned(NotAttempted, false);
      }
      return StopReady(pre);
    }
    if r.pid == sys.self {
      return Returned(ActionFailed, false);
    }
    var closed := CheckNoLongerHolds(sys, pre, r, id);
    next := if closed then Returned(NotAttempted, false) else Signalling(pre, id);
  }
}
