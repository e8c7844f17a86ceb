/** internal/cli/apply.go: what the result of each action says about its run, what a
    cancellation keeps from happening, and which call an action comes to. */
module ActionResults {
  import opened Domain
  import opened Plan
  import opened Outcome
  import opened Scheduler
  import opened SchedulerInvariant
  import opened ActionAccounting
  import opened ActionEvidence
  import Observe

  // ---- results and events --------------------------------------------------------------

  /** Docker stop failed, and that is taken for its answer: it neither met its deadline
      nor came after a cancellation. */
  predicate StopFailed(ev: Event, cancelled: bool) {
    ev.StopDone? && ev.stop.StopErr? && !ev.stop.deadline && !cancelled
  }

  predicate NotListedAnyMore(ev: Event) {
    ev.StopAgain? && ev.again.avail && !ev.again.failed && !ev.again.listed
  }

  /** What must happen for an action to end with that result. */
  predicate Gives(sys: Sys, r: PlanResource, cancelled: bool, ev: Event, kind: ResultKind) {
    match kind
    case SignalSent => ev.SignalCall? && ev.answer == Delivered
    case IdentityChanged => ev.SignalCall? && ev.answer == Changed
    case Stopped => (ev.StopDone? && ev.stop == StopOk) || NotListedAnyMore(ev)
    case TimeoutUnknown => ev.StopAgain? && !NotListedAnyMore(ev)
    case PermissionDenied =>
      (ev.SignalCall? && ev.answer == NotPermitted) ||
      (StopFailed(ev, cancelled) && !ev.stop.noSuch && ev.stop.permission)
    case ActionFailed =>
      (ev.SignalCall? && ev.answer == SignalError) ||
      (StopFailed(ev, cancelled) && !ev.stop.noSuch && !ev.stop.permission) ||
      ev.PanicEarly? || ev.PanicStopping? ||
      (ev.Judge? && r.provider != DockerProvider && r.pid == sys.self)
    case NotAttempted => false
  }

  predicate HasKind(p: Phase, kind: ResultKind) {
    (p.Returned? || p.Stored? || p.Released? || p.Exited?) && p.kind == kind
  }

  lemma PhaseGives(sys: Sys, r: PlanResource, cancelled: bool, p: Phase, ev: Event, q: Phase, kind: ResultKind)
    requires IsWorker(ev) && PhaseStep(sys, r, cancelled, p, ev) == Some(q) && kind != NotAttempted
    ensures HasKind(q, kind) <==> HasKind(p, kind) || Gives(sys, r, cancelled, ev, kind)
  {
  }

  ghost predicate GivenAt(sys: Sys, doc: PlanDoc, t: seq<Event>, k: nat, kind: ResultKind, j: nat)
    requires j < |t| && k < |doc.resources|
  {
    IsWorker(t[j]) && t[j].i == k && Gives(sys, doc.resources[k], CancelIn(t[..j]), t[j], kind)
  }

  ghost predicate Given(sys: Sys, doc: PlanDoc, t: seq<Event>, k: nat, kind: ResultKind)
    requires k < |doc.resources|
  {
    exists j: nat :: j < |t| && GivenAt(sys, doc, t, k, kind, j)
  }

  lemma GivenSnoc(sys: Sys, doc: PlanDoc, t: seq<Event>, k: nat, kind: ResultKind)
    requires t != [] && k < |doc.resources|
    ensures Given(sys, doc, t, k, kind) <==>
      Given(sys, doc, t[..|t| - 1], k, kind) || GivenAt(sys, doc, t, k, kind, |t| - 1)
  {
    var u := t[..|t| - 1];
    forall j: nat | j < |u| ensures GivenAt(sys, doc, t, k, kind, j) <==> GivenAt(sys, doc, u, k, kind, j) {
      assert u[..j] == t[..j];
    }
    if Given(sys, doc, u, k, kind) {
      var j: nat :| j < |u| && GivenAt(sys, doc, u, k, kind, j);
      assert GivenAt(sys, doc, t, k, kind, j);
    }
    if Given(sys, doc, t, k, kind) {
      var j: nat :| j < |t| && GivenAt(sys, doc, t, k, kind, j);
      assert j < |u| ==> GivenAt(sys, doc, u, k, kind, j);
    }
  }

  lemma StepGives(sys: Sys, a: Apply, ev: Event, b: Apply, k: nat, kind: ResultKind)
    requires Inv(a) && Step(sys, a, ev) == Some(b) && Sized(b) && b.doc == a.doc && k < |a.phases| &&
      kind != NotAttempted
    ensures HasKind(b.phases[k], kind) <==>
      HasKind(a.phases[k], kind) ||
      (IsWorker(ev) && ev.i == k && Gives(sys, a.doc.resources[k], a.cancelled, ev, kind))
  {
    if IsWorker(ev) && ev.i == k {
      PhaseGives(sys, a.doc.resources[k], a.cancelled, a.phases[k], ev, b.phases[k], kind);
    } else if !IsWorker(ev) && !ev.Cancel? {
      DispatcherPhase(a, ev, b, k);
    }
  }

  lemma {:induction false} RunGives(sys: Sys, doc: PlanDoc, t: seq<Event>, k: nat, kind: ResultKind)
    requires Run(sys, Init(doc), t).Some? && k < |doc.resources| && kind != NotAttempted
    ensures Inv(Run(sys, Init(doc), t).value) && Run(sys, Init(doc), t).value.doc == doc
    ensures HasKind(Run(sys, Init(doc), t).value.phases[k], kind) <==> Given(sys, doc, t, k, kind)
  {
    InitInv(doc);
    RunKeeps(sys, Init(doc), t);
    if t != [] {
      var u := t[..|t| - 1];
      RunGives(sys, doc, u, k, kind);
      CancelSeen(sys, Init(doc), u);
      StepGives(sys, Run(sys, Init(doc), u).value, t[|t| - 1], Run(sys, Init(doc), t).value, k, kind);
      GivenSnoc(sys, doc, t, k, kind);
    }
  }

  /** Of a finished run: a resource has a result other than "not attempted" exactly when
      the event that calls for it happened to its own action. */
  lemma ResultsMeanEvents(sys: Sys, doc: PlanDoc, t: seq<Event>, k: nat, kind: ResultKind)
    requires Run(sys, Init(doc), t).Some? && Run(sys, Init(doc), t).value.pc.Finished? && k < |doc.resources|
    ensures
      var a := Run(sys, Init(doc), t).value;
      && k < |a.results| && a.results[k].Some?
      && (kind != NotAttempted ==> (a.results[k].value.result == kind <==> Given(sys, doc, t, k, kind)))
      && (a.results[k].value.result == NotAttempted <==> forall other :: !Given(sys, doc, t, k, other))
  {
    var a := Run(sys, Init(doc), t).value;
    forall other | other != NotAttempted
      ensures Inv(a) && a.doc == doc && (HasKind(a.phases[k], other) <==> Given(sys, doc, t, k, other))
    {
      RunGives(sys, doc, t, k, other);
    }
    assert Given(sys, doc, t, k, SignalSent) || !Given(sys, doc, t, k, SignalSent);
    assert CellOk(a, k);
    var own := a.results[k].value.result;
    assert own != NotAttempted ==> HasKind(a.phases[k], own);
  }

  // ---- what a cancellation keeps from happening ------------------------------------------

  /** The event happened, and before any cancellation. */
  ghost predicate InTime(t: seq<Event>, ev: Event) {
    exists m: nat :: InTimeAt(t, ev, m)
  }

  predicate InTimeAt(t: seq<Event>, ev: Event, m: nat) {
    m < |t| && t[m] == ev && !CancelIn(t[..m])
  }

  lemma InTimeSnoc(t: seq<Event>, last: Event, ev: Event)
    ensures InTime(t, ev) ==> InTime(t + [last], ev)
    ensures last == ev && !CancelIn(t) ==> InTime(t + [last], ev)
  {
    var u := t + [last];
    if InTime(t, ev) {
      var m: nat :| InTimeAt(t, ev, m);
      assert u[..m] == t[..m];
      assert InTimeAt(u, ev, m);
    }
    if last == ev && !CancelIn(t) {
      assert u[..|t|] == t;
      assert InTimeAt(u, ev, |t|);
    }
  }

  predicate Unstarted(p: Phase) {
    p.Queued? || p.Skipped?
  }

  predicate Begun(p: Phase) {
    p.Collecting? || p.Collected?
  }

  predicate Cleared(p: Phase) {
    p.Judging? || p.Signalling? || p.StopReady? || p.Stopping? || p.Rechecking?
  }

  /** Which of its three checks of the context an action has passed. */
  ghost predicate ChecksPassed(t: seq<Event>, k: nat, p: Phase) {
    && (!Unstarted(p) ==> InTime(t, Admit(k)))
    && (Begun(p) || Cleared(p) ==> InTime(t, Enter(k)))
    && (Cleared(p) ==> InTime(t, Resume(k)))
  }

  ghost predicate AllChecked(t: seq<Event>, a: Apply) {
    && (a.pc.AtSpawn? ==> InTime(t, Admit(a.pc.i)))
    && forall k | 0 <= k < |a.phases| :: ChecksPassed(t, k, a.phases[k])
  }

  lemma ChecksGrow(t: seq<Event>, ev: Event, k: nat)
    ensures InTime(t, Admit(k)) ==> InTime(t + [ev], Admit(k))
    ensures InTime(t, Enter(k)) ==> InTime(t + [ev], Enter(k))
    ensures InTime(t, Resume(k)) ==> InTime(t + [ev], Resume(k))
    ensures !CancelIn(t) && ev in {Admit(k), Enter(k), Resume(k)} ==> InTime(t + [ev], ev)
  {
    InTimeSnoc(t, ev, Admit(k));
    InTimeSnoc(t, ev, Enter(k));
    InTimeSnoc(t, ev, Resume(k));
    InTimeSnoc(t, ev, ev);
  }

  lemma PhaseChecks(sys: Sys, r: PlanResource, t: seq<Event>, k: nat, p: Phase, ev: Event, q: Phase)
    requires IsWorker(ev) && ev.i == k && PhaseStep(sys, r, CancelIn(t), p, ev) == Some(q) && ChecksPassed(t, k, p)
    ensures ChecksPassed(t + [ev], k, q)
  {
    ChecksGrow(t, ev, k);
  }

  lemma StepChecks(sys: Sys, a: Apply, t: seq<Event>, ev: Event, b: Apply, k: nat)
    requires Inv(a) && Step(sys, a, ev) == Some(b) && Sized(b) && b.doc == a.doc && k < |a.phases|
    requires (a.cancelled <==> CancelIn(t)) && ChecksPassed(t, k, a.phases[k])
    requires a.pc.AtSpawn? ==> InTime(t, Admit(a.pc.i))
    ensures ChecksPassed(t + [ev], k, b.phases[k])
  {
    if IsWorker(ev) && ev.i == k {
      PhaseChecks(sys, a.doc.resources[k], t, k, a.phases[k], ev, b.phases[k]);
    } else if IsWorker(ev) || ev.Cancel? {
      ChecksGrow(t, ev, k);
    } else {
      DispatcherChecks(a, t, ev, b, k);
    }
  }

  lemma DispatcherChecks(a: Apply, t: seq<Event>, ev: Event, b: Apply, k: nat)
    requires Inv(a) && DispatcherStep(a, ev) == Some(b) && Sized(b) && b.doc == a.doc && k < |a.phases|
    requires ChecksPassed(t, k, a.phases[k]) && (a.pc.AtSpawn? ==> InTime(t, Admit(a.pc.i)))
    ensures ChecksPassed(t + [ev], k, b.phases[k])
  {
    ChecksGrow(t, ev, k);
    DispatcherPhase(a, ev, b, k);
  }

  lemma SpawnChecked(sys: Sys, a: Apply, t: seq<Event>, ev: Event, b: Apply)
    requires Inv(a) && Step(sys, a, ev) == Some(b) && (a.cancelled <==> CancelIn(t))
    requires a.pc.AtSpawn? ==> InTime(t, Admit(a.pc.i))
    ensures b.pc.AtSpawn? ==> InTime(t + [ev], Admit(b.pc.i))
  {
    if b.pc.AtSpawn? { ChecksGrow(t, ev, b.pc.i); }
  }

  lemma StepAllChecked(sys: Sys, a: Apply, t: seq<Event>, ev: Event, b: Apply)
    requires Inv(a) && Step(sys, a, ev) == Some(b) && (a.cancelled <==> CancelIn(t)) && AllChecked(t, a)
    ensures AllChecked(t + [ev], b)
  {
    StepKeeps(sys, a, ev, b);
    SpawnChecked(sys, a, t, ev, b);
    forall k | 0 <= k < |b.phases| ensures ChecksPassed(t + [ev], k, b.phases[k]) {
      StepChecks(sys, a, t, ev, b, k);
    }
  }

  lemma {:induction false} RunChecks(sys: Sys, a: Apply, t: seq<Event>)
    requires Inv(a) && !a.cancelled && AllChecked([], a) && Run(sys, a, t).Some?
    ensures AllChecked(t, Run(sys, a, t).value)
  {
    if t != [] {
      var u, ev := t[..|t| - 1], t[|t| - 1];
      RunChecks(sys, a, u);
      RunKeeps(sys, a, u);
      CancelSeen(sys, a, u);
      StepAllChecked(sys, Run(sys, a, u).value, u, ev, Run(sys, a, t).value);
      assert u + [ev] == t;
    }
  }

  /** Cancellation stops an action at each of its three checks: one that observes had
      been admitted and entered before any cancellation, and one that calls had also
      resumed after its observation before any. */
  lemma CallsAreCleared(sys: Sys, doc: PlanDoc, t: seq<Event>, ev: Event)
    requires Run(sys, Init(doc), t + [ev]).Some? && (ev.Collect? || ev.SignalCall? || ev.StopCall?)
    ensures InTime(t, Admit(ev.i)) && InTime(t, Enter(ev.i)) && (!ev.Collect? ==> InTime(t, Resume(ev.i)))
  {
    assert (t + [ev])[..|t|] == t;
    InitInv(doc);
    RunChecks(sys, Init(doc), t);
    var a := Run(sys, Init(doc), t).value;
    assert ChecksPassed(t, ev.i, a.phases[ev.i]);
  }

  // ---- which call an action comes to ----------------------------------------------------

  /** The planned process is seen not to be there, in terms of the raw observation. */
  ghost predicate SeenClosed(sys: Sys, pre: Snapshot, r: PlanResource) {
    && pre.tableOK && pre.ownerErr.None?
    && (forall p | p in r.ports :: !InDoubt(sys, pre, p))
    && (forall p | p in r.ports :: !LiveRowFor(pre, p, r.pid))
  }

  /** The container is seen to run and to publish a planned port. */
  ghost predicate SeenPublishing(pre: Snapshot, r: PlanResource) {
    && pre.dockerErr.None? && pre.dockerAvail && r.containerId in pre.dockerIds
    && exists c, p :: c in pre.containers && c.id == r.containerId && p in r.ports && p in c.ports
  }

  lemma DecidedExactly(sys: Sys, pre: Snapshot, r: PlanResource, id: Lookup)
    requires Observe.Collected(pre) && r.ports != []
    ensures Decide(sys, pre, r, id).Signalling? <==>
      r.provider != DockerProvider && r.pid != sys.self &&
      !(SeenClosed(sys, pre, r) && id.err.None? && id.start == r.start)
    ensures Decide(sys, pre, r, id).StopReady? <==> r.provider == DockerProvider && SeenPublishing(pre, r)
  {
    ClosedIsProven(sys, pre, r);
    if SeenPublishing(pre, r) {
      var c, p :| c in pre.containers && c.id == r.containerId && p in r.ports && p in c.ports;
      assert Publishing(pre, r);
    }
  }

  lemma JudgedState(sys: Sys, doc: PlanDoc, t: seq<Event>, k: nat, pre: Snapshot, id: Lookup) returns (b: Apply)
    requires Run(sys, Init(doc), t + [Judge(k, id)]).Some? && Collect(k, pre) in t
    ensures Run(sys, Init(doc), t + [Judge(k, id)]) == Some(b) && k < |b.phases| && k < |doc.resources|
    ensures b.doc == doc && b.phases[k] == Decide(sys, pre, doc.resources[k], id)
  {
    assert (t + [Judge(k, id)])[..|t|] == t;
    InitInv(doc);
    RunKeeps(sys, Init(doc), t);
    var a := Run(sys, Init(doc), t).value;
    RunOnlyOne(sys, Init(doc), t, k);
    var n :| 0 <= n < |t| && t[n] == Collect(k, pre);
    assert a.phases[k].Judging? && a.phases[k].pre == pre;
    b := Run(sys, Init(doc), t + [Judge(k, id)]).value;
  }

  /** What an action does after its lookup is decided by what it observed: it signals
      exactly if it is a process other than killport that was not seen to be gone from
      its ports while the lookup showed it alive, and stops exactly a container that
      was seen publishing. */
  lemma NextCallExactly(sys: Sys, doc: PlanDoc, t: seq<Event>, k: nat, pre: Snapshot, id: Lookup, answer: SignalAnswer)
    requires Run(sys, Init(doc), t + [Judge(k, id)]).Some? && Collect(k, pre) in t && Observe.Collected(pre)
    requires k < |doc.resources| && doc.resources[k].ports != []
    ensures Run(sys, Init(doc), t + [Judge(k, id)] + [SignalCall(k, answer)]).Some? <==>
      doc.resources[k].provider != DockerProvider && doc.resources[k].pid != sys.self &&
      !(SeenClosed(sys, pre, doc.resources[k]) && id.err.None? && id.start == doc.resources[k].start)
    ensures Run(sys, Init(doc), t + [Judge(k, id)] + [StopCall(k)]).Some? <==>
      doc.resources[k].provider == DockerProvider && SeenPublishing(pre, doc.resources[k])
  {
    var b := JudgedState(sys, doc, t, k, pre, id);
    DecidedExactly(sys, pre, doc.resources[k], id);
    RunSnoc(sys, Init(doc), t + [Judge(k, id)], SignalCall(k, answer));
    RunSnoc(sys, Init(doc), t + [Judge(k, id)], StopCall(k));
  }
}
