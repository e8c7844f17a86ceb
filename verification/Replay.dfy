/** Any number of applies, of any plans, on one host whose processes come and go
    (internal/cli/apply.go on top of the contract in internal/cli/system.go).

    SignalIfSame is atomic here and both identity calls are honest; how far the
    Linux implementation is from that is the subject of SignalRace and SharedHost. */
module Replay {
  import opened Domain
  import opened Plan
  import opened Outcome
  import opened Scheduler
  import opened SchedulerInvariant
  import opened SchedulerTheorems
  import opened Counting
  import opened PlanCheck
  import opened ActionEvidence
  import SignalRace

  /** A signal that reached a process: which apply sent it, for which of its
      resources, and the incarnation that received it. */
  datatype Delivery = Delivery(sender: nat, k: nat, pid: int, start: string)

  datatype Host = Host(live: map<int, string>, born: set<(int, string)>, applies: seq<Apply>, log: seq<Delivery>)

  datatype HostEvent =
    | HostExit(p: int) | HostSpawn(p: int, st: string)
    | BeginApply(doc: PlanDoc)
    | Do(sender: nat, ev: Event)

  predicate HostOk(h: Host) {
    forall p | p in h.live :: (p, h.live[p]) in h.born
  }

  predicate Runs(h: Host, pid: int, start: string) {
    pid in h.live && h.live[pid] == start
  }

  predicate HonestSignal(h: Host, r: PlanResource, answer: SignalAnswer) {
    match answer
    case Delivered => Runs(h, r.pid, r.start)
    case Changed => r.pid in h.live && h.live[r.pid] != r.start
    case NoProcess => r.pid !in h.live
    case _ => true
  }

  predicate HonestLookup(h: Host, r: PlanResource, id: Lookup) {
    && (id.err.None? && id.start != "" ==> Runs(h, r.pid, id.start))
    && (id.err == Some(NotFound) ==> r.pid !in h.live)
  }

  /** What the world may answer to one event of an apply. */
  predicate Honest(h: Host, a: Apply, ev: Event) {
    && (ev.SignalCall? && ev.i < |a.doc.resources| ==> HonestSignal(h, a.doc.resources[ev.i], ev.answer))
    && (ev.Judge? && ev.i < |a.doc.resources| ==> HonestLookup(h, a.doc.resources[ev.i], ev.id))
  }

  function Logged(h: Host, sender: nat, ev: Event): seq<Delivery>
    requires sender < |h.applies|
  {
    if ev.SignalCall? && ev.answer == Delivered && ev.i < |h.applies[sender].doc.resources| then
      var pid := h.applies[sender].doc.resources[ev.i].pid;
      if pid in h.live then [Delivery(sender, ev.i, pid, h.live[pid])] else []
    else []
  }

  ghost function HostStep(sys: Sys, h: Host, e: HostEvent): Option<Host> {
    match e
    case HostExit(p) => if p in h.live then Some(h.(live := h.live - {p})) else None
    case HostSpawn(p, st) =>
      if p in h.live || (p, st) in h.born then None
      else Some(h.(live := h.live[p := st], born := h.born + {(p, st)}))
    case BeginApply(doc) => Some(h.(applies := h.applies + [Init(doc)]))
    case Do(sender, ev) =>
      if sender < |h.applies| && Honest(h, h.applies[sender], ev) then
        match Step(sys, h.applies[sender], ev) {
          case None => None
          case Some(b) => Some(h.(applies := h.applies[sender := b], log := h.log + Logged(h, sender, ev)))
        }
      else None
  }

  ghost function HostRun(sys: Sys, h: Host, t: seq<HostEvent>): Option<Host> {
    if t == [] then Some(h) else
      match HostRun(sys, h, t[..|t| - 1]) {
        case None => None
        case Some(g) => HostStep(sys, g, t[|t| - 1])
      }
  }

  // ---- every signal was planned --------------------------------------------------

  /** A resource that may be signalled: a process, and not killport itself. */
  predicate MaySignal(sys: Sys, r: PlanResource) {
    r.provider != DockerProvider && r.pid != sys.self
  }

  predicate Planned(sys: Sys, h: Host, d: Delivery) {
    && d.sender < |h.applies| && d.k < |h.applies[d.sender].doc.resources|
    && var r := h.applies[d.sender].doc.resources[d.k];
       MaySignal(sys, r) && r.pid == d.pid && r.start == d.start
  }

  ghost predicate NativeSide(sys: Sys, a: Apply) {
    forall k | 0 <= k < |a.phases| && k < |a.doc.resources| && a.phases[k].Signalling? ::
      MaySignal(sys, a.doc.resources[k])
  }

  ghost predicate ApplyOk(sys: Sys, a: Apply) {
    Inv(a) && NativeSide(sys, a)
  }

  lemma ApplyOkStep(sys: Sys, a: Apply, ev: Event, b: Apply)
    requires ApplyOk(sys, a) && Step(sys, a, ev) == Some(b)
    ensures ApplyOk(sys, b) && b.doc == a.doc
  {
    StepKeeps(sys, a, ev, b);
    forall k | 0 <= k < |b.phases| && k < |b.doc.resources| && b.phases[k].Signalling?
      ensures MaySignal(sys, b.doc.resources[k])
    {
      SignallingIsNative(sys, a, ev, b, k);
    }
  }

  lemma SignallingIsNative(sys: Sys, a: Apply, ev: Event, b: Apply, k: nat)
    requires ApplyOk(sys, a) && Step(sys, a, ev) == Some(b) && Sized(b) && b.doc == a.doc
    requires k < |b.phases| && b.phases[k].Signalling?
    ensures MaySignal(sys, a.doc.resources[k])
  {
    if IsWorker(ev) && ev.i == k {
      PhaseIsNative(sys, a.doc.resources[k], a.cancelled, a.phases[k], ev, b.phases[k]);
    } else {
      assert a.phases[k] == b.phases[k];
    }
  }

  lemma PhaseIsNative(sys: Sys, r: PlanResource, cancelled: bool, p: Phase, ev: Event, q: Phase)
    requires PhaseStep(sys, r, cancelled, p, ev) == Some(q) && q.Signalling?
    ensures MaySignal(sys, r)
  {
  }

  ghost predicate HostInv(sys: Sys, h: Host) {
    && HostOk(h)
    && (forall n | 0 <= n < |h.applies| :: ApplyOk(sys, h.applies[n]))
    && (forall d | d in h.log :: Planned(sys, h, d))
  }

  lemma LoggedIsPlanned(sys: Sys, h: Host, sender: nat, ev: Event, d: Delivery)
    requires sender < |h.applies| && ApplyOk(sys, h.applies[sender]) && Honest(h, h.applies[sender], ev)
    requires Step(sys, h.applies[sender], ev).Some? && d in Logged(h, sender, ev)
    ensures Planned(sys, h, d) && Runs(h, d.pid, d.start)
  {
    assert h.applies[sender].phases[ev.i].Signalling?;
  }

  lemma DoKeeps(sys: Sys, h: Host, sender: nat, ev: Event, g: Host)
    requires HostInv(sys, h) && HostStep(sys, h, Do(sender, ev)) == Some(g)
    ensures HostInv(sys, g)
  {
    var b := Step(sys, h.applies[sender], ev).value;
    ApplyOkStep(sys, h.applies[sender], ev, b);
    forall d | d in g.log ensures Planned(sys, g, d) {
      if d in Logged(h, sender, ev) { LoggedIsPlanned(sys, h, sender, ev, d); }
      assert Planned(sys, h, d);
    }
  }

  lemma HostStepKeeps(sys: Sys, h: Host, e: HostEvent, g: Host)
    requires HostInv(sys, h) && HostStep(sys, h, e) == Some(g)
    ensures HostInv(sys, g)
  {
    match e {
      case BeginApply(doc) =>
        InitInv(doc);
        forall d | d in g.log ensures Planned(sys, g, d) { assert Planned(sys, h, d); }
      case Do(sender, ev) => DoKeeps(sys, h, sender, ev, g);
      case HostExit(_) => forall d | d in g.log ensures Planned(sys, g, d) { assert Planned(sys, h, d); }
      case HostSpawn(_, _) => forall d | d in g.log ensures Planned(sys, g, d) { assert Planned(sys, h, d); }
    }
  }

  /** Whatever the applies and the rest of the system do, every signal delivered
      went to a (PID, start token) pair listed in the plan that sent it. */
  lemma {:induction false} EveryDeliveryPlanned(sys: Sys, h: Host, t: seq<HostEvent>)
    requires HostInv(sys, h) && HostRun(sys, h, t).Some?
    ensures HostInv(sys, HostRun(sys, h, t).value)
    ensures forall d | d in HostRun(sys, h, t).value.log :: Planned(sys, HostRun(sys, h, t).value, d)
  {
    if t != [] {
      EveryDeliveryPlanned(sys, h, t[..|t| - 1]);
      HostStepKeeps(sys, HostRun(sys, h, t[..|t| - 1]).value, t[|t| - 1], HostRun(sys, h, t).value);
    }
  }

  /** From an accepted plan no signal goes to PID 1 or below, to killport itself, or
      to the Windows kernel. */
  lemma DeliveriesSpareTheProtected(sys: Sys, h: Host, t: seq<HostEvent>, d: Delivery)
    requires HostInv(sys, h) && HostRun(sys, h, t).Some? && d in HostRun(sys, h, t).value.log
    requires d.sender < |HostRun(sys, h, t).value.applies| && ValidPlan(HostRun(sys, h, t).value.applies[d.sender].doc)
    ensures 1 < d.pid <= MAX_PID && d.pid != sys.self
    ensures !(HostRun(sys, h, t).value.applies[d.sender].doc.os == Windows && d.pid == 4)
  {
    EveryDeliveryPlanned(sys, h, t);
    var doc := HostRun(sys, h, t).value.applies[d.sender].doc;
    var r := doc.resources[d.k];
    assert r in doc.resources && ResourceOk(doc, r);
  }

  // ---- an exit is final ------------------------------------------------------------

  /** The incarnation ran once, does not run now, and none of the deliveries from
      the n-th on reached it. */
  ghost predicate GoneSince(h: Host, pid: int, start: string, n: nat) {
    && (pid, start) in h.born && !Runs(h, pid, start) && n <= |h.log|
    && forall i | n <= i < |h.log| :: !(h.log[i].pid == pid && h.log[i].start == start)
  }

  lemma GoneStep(sys: Sys, h: Host, e: HostEvent, g: Host, pid: int, start: string, n: nat)
    requires HostInv(sys, h) && HostStep(sys, h, e) == Some(g) && GoneSince(h, pid, start, n)
    ensures GoneSince(g, pid, start, n) && h.log <= g.log
  {
    if e.Do? {
      forall d | d in Logged(h, e.sender, e.ev) ensures !(d.pid == pid && d.start == start) {
        LoggedIsPlanned(sys, h, e.sender, e.ev, d);
      }
    }
  }

  /** Replay safety: after an incarnation has exited no apply - of that plan or of
      any other, begun before the exit or after it - delivers a signal for it. */
  lemma {:induction false} ExitIsFinal(sys: Sys, h: Host, t: seq<HostEvent>, pid: int, start: string)
    requires HostInv(sys, h) && Runs(h, pid, start) && HostRun(sys, h.(live := h.live - {pid}), t).Some?
    ensures
      var g := HostRun(sys, h.(live := h.live - {pid}), t).value;
      GoneSince(g, pid, start, |h.log|) && h.log <= g.log
  {
    var h' := h.(live := h.live - {pid});
    HostStepKeeps(sys, h, HostExit(pid), h');
    if t != [] {
      var u := t[..|t| - 1];
      ExitIsFinal(sys, h, u, pid, start);
      EveryDeliveryPlanned(sys, h', u);
      GoneStep(sys, HostRun(sys, h', u).value, t[|t| - 1], HostRun(sys, h', t).value, pid, start, |h.log|);
    }
  }

  // ---- one signal per resource and apply ---------------------------------------------

  /** The events of one apply. */
  function Own(t: seq<HostEvent>, sender: nat): seq<Event> {
    if t == [] then [] else
      Own(t[..|t| - 1], sender) + if t[|t| - 1].Do? && t[|t| - 1].sender == sender then [t[|t| - 1].ev] else []
  }

  predicate Fresh(h: Host) {
    h.applies == [] && h.log == [] && HostOk(h)
  }

  lemma OwnSnoc(t: seq<HostEvent>, sender: nat)
    requires t != []
    ensures
      var e := t[|t| - 1];
      Own(t, sender) ==
        if e.Do? && e.sender == sender then Own(t[..|t| - 1], sender) + [e.ev] else Own(t[..|t| - 1], sender)
  {
  }

  /** How the applies of a host change at one event. */
  lemma AppliesStep(sys: Sys, h: Host, e: HostEvent, g: Host, sender: nat)
    requires HostInv(sys, h) && HostStep(sys, h, e) == Some(g)
    ensures |h.applies| <= |g.applies|
    ensures sender < |g.applies| && sender >= |h.applies| ==>
      sender == |h.applies| && g.applies[sender] == Init(g.applies[sender].doc) && !e.Do?
    ensures sender < |h.applies| ==> g.applies[sender].doc == h.applies[sender].doc
    ensures sender < |h.applies| && !(e.Do? && e.sender == sender) ==> g.applies[sender] == h.applies[sender]
    ensures sender < |h.applies| && e.Do? && e.sender == sender ==>
      Step(sys, h.applies[sender], e.ev) == Some(g.applies[sender])
    ensures e.Do? ==> e.sender < |h.applies|
  {
    if e.Do? { ApplyOkStep(sys, h.applies[e.sender], e.ev, g.applies[e.sender]); }
  }

  /** The apply is where it would be had it run alone through the events o. */
  ghost predicate RanAlone(sys: Sys, h: Host, o: seq<Event>, sender: nat) {
    if sender < |h.applies| then Run(sys, Init(h.applies[sender].doc), o) == Some(h.applies[sender]) else o == []
  }

  lemma RanAloneStep(sys: Sys, h: Host, e: HostEvent, g: Host, o: seq<Event>, sender: nat)
    requires HostInv(sys, h) && HostStep(sys, h, e) == Some(g) && RanAlone(sys, h, o, sender)
    ensures RanAlone(sys, g, if e.Do? && e.sender == sender then o + [e.ev] else o, sender)
  {
    AppliesStep(sys, h, e, g, sender);
    if sender < |h.applies| && e.Do? && e.sender == sender {
      RunSnoc(sys, Init(h.applies[sender].doc), o, e.ev);
    }
  }

  /** An apply on a shared host runs exactly as it would alone. */
  lemma {:induction false} OwnRun(sys: Sys, h: Host, t: seq<HostEvent>, sender: nat)
    requires Fresh(h) && HostRun(sys, h, t).Some?
    ensures RanAlone(sys, HostRun(sys, h, t).value, Own(t, sender), sender)
  {
    if t != [] {
      var u, e := t[..|t| - 1], t[|t| - 1];
      OwnRun(sys, h, u, sender);
      EveryDeliveryPlanned(sys, h, u);
      OwnSnoc(t, sender);
      RanAloneStep(sys, HostRun(sys, h, u).value, e, HostRun(sys, h, t).value, Own(u, sender), sender);
    }
  }

  function Of(sender: nat, k: nat): Delivery -> nat {
    (d: Delivery) => if d.sender == sender && d.k == k then 1 else 0
  }

  lemma DeliveriesStep(sys: Sys, h: Host, e: HostEvent, g: Host, sender: nat, k: nat)
    requires HostStep(sys, h, e) == Some(g)
    ensures Count(Of(sender, k), g.log) <=
      Count(Of(sender, k), h.log) + (if e.Do? && e.sender == sender then ActsOn(k)(e.ev) else 0)
  {
    if g.log != h.log {
      assert g.log[..|g.log| - 1] == h.log;
      CountSnoc(Of(sender, k), g.log);
    }
  }

  lemma {:induction false} DeliveriesAreCalls(sys: Sys, h: Host, t: seq<HostEvent>, sender: nat, k: nat)
    requires Fresh(h) && HostRun(sys, h, t).Some?
    ensures Count(Of(sender, k), HostRun(sys, h, t).value.log) <= Count(ActsOn(k), Own(t, sender))
  {
    if t != [] {
      var u, e := t[..|t| - 1], t[|t| - 1];
      DeliveriesAreCalls(sys, h, u, sender, k);
      DeliveriesStep(sys, HostRun(sys, h, u).value, e, HostRun(sys, h, t).value, sender, k);
      OwnSnoc(t, sender);
      if e.Do? && e.sender == sender {
        assert Own(t, sender)[..|Own(t, sender)| - 1] == Own(u, sender);
        CountSnoc(ActsOn(k), Own(t, sender));
      }
    }
  }

  /** One apply never signals the same process twice: two deliveries it makes are
      for different resources, and the resources of an accepted plan name
      different incarnations. */
  lemma OneSignalPerProcess(sys: Sys, h: Host, t: seq<HostEvent>, i: nat, j: nat)
    requires Fresh(h) && HostRun(sys, h, t).Some?
    requires i < j < |HostRun(sys, h, t).value.log|
    requires
      var g := HostRun(sys, h, t).value;
      g.log[i].sender == g.log[j].sender && g.log[i].sender < |g.applies| && ValidPlan(g.applies[g.log[i].sender].doc)
    ensures
      var g := HostRun(sys, h, t).value;
      g.log[i].k != g.log[j].k && (g.log[i].pid, g.log[i].start) != (g.log[j].pid, g.log[j].start)
  {
    var g := HostRun(sys, h, t).value;
    EveryDeliveryPlanned(sys, h, t);
    assert g.log[i] in g.log && g.log[j] in g.log;
    var sender, k := g.log[i].sender, g.log[i].k;
    OwnRun(sys, h, t, sender);
    OnceEach(sys, g.applies[sender].doc, Own(t, sender), k);
    DeliveriesAreCalls(sys, h, t, sender, k);
    if g.log[j].k == k {
      SumAtLeastTwo(Of(sender, k), g.log, |g.log|, i, j);
      assert false;
    }
    DifferentIncarnations(g.applies[sender].doc, k, g.log[j].k);
  }

  lemma DifferentIncarnations(doc: PlanDoc, k: nat, m: nat)
    requires ValidPlan(doc) && k < |doc.resources| && m < |doc.resources| && k != m
    requires doc.resources[k].provider != DockerProvider && doc.resources[m].provider != DockerProvider
    ensures doc.resources[k].pid != doc.resources[m].pid || doc.resources[k].start != doc.resources[m].start
  {
    var r, q := doc.resources[k], doc.resources[m];
    assert r in doc.resources && q in doc.resources;
    assert ResourceOk(doc, r) && ResourceOk(doc, q);
    assert r.id != q.id by { if k < m { assert r.id != q.id; } else { assert q.id != r.id; } }
  }

  // ---- when a stale process is signalled after all -----------------------------------

  lemma {:induction false} OwnMembers(t: seq<HostEvent>, sender: nat, ev: Event)
    ensures ev in Own(t, sender) <==> Do(sender, ev) in t
  {
    if t != [] {
      var u, e := t[..|t| - 1], t[|t| - 1];
      OwnMembers(u, sender, ev);
      OwnSnoc(t, sender);
      assert t == u + [e];
    }
  }

  lemma {:induction false} HostRunPrefix(sys: Sys, h: Host, t: seq<HostEvent>, n: nat)
    requires HostRun(sys, h, t).Some? && n <= |t|
    ensures HostRun(sys, h, t[..n]).Some?
  {
    if n < |t| {
      HostRunPrefix(sys, h, t[..|t| - 1], n);
      assert t[..|t| - 1][..n] == t[..n];
    } else {
      assert t[..n] == t;
    }
  }

  /** An apply keeps its plan. */
  lemma {:induction false} DocStays(sys: Sys, h: Host, t: seq<HostEvent>, n: nat, sender: nat)
    requires HostInv(sys, h) && HostRun(sys, h, t).Some? && n <= |t|
    requires HostRun(sys, h, t[..n]).Some? && sender < |HostRun(sys, h, t[..n]).value.applies|
    ensures sender < |HostRun(sys, h, t).value.applies|
    ensures HostRun(sys, h, t).value.applies[sender].doc == HostRun(sys, h, t[..n]).value.applies[sender].doc
  {
    if n == |t| {
      assert t[..n] == t;
    } else {
      var u := t[..|t| - 1];
      assert u[..n] == t[..n];
      DocStays(sys, h, u, n, sender);
      EveryDeliveryPlanned(sys, h, u);
      AppliesStep(sys, HostRun(sys, h, u).value, t[|t| - 1], HostRun(sys, h, t).value, sender);
    }
  }

  /** The n-th event is the identity lookup of the action on resource k. */
  ghost predicate JudgedAt(sys: Sys, h: Host, t: seq<HostEvent>, n: nat, sender: nat, k: nat, id: Lookup) {
    && n < |t| && t[n] == Do(sender, Judge(k, id)) && HostRun(sys, h, t[..n + 1]).Some?
    && HostRun(sys, h, t[..n]).Some?
    && sender < |HostRun(sys, h, t[..n]).value.applies|
    && k < |HostRun(sys, h, t[..n]).value.applies[sender].doc.resources|
  }

  lemma JudgedAtAny(sys: Sys, h: Host, t: seq<HostEvent>, n: nat, sender: nat, k: nat, id: Lookup)
    requires HostRun(sys, h, t).Some? && n < |t| && t[n] == Do(sender, Judge(k, id))
    ensures JudgedAt(sys, h, t, n, sender, k, id)
    ensures
      var g := HostRun(sys, h, t[..n]).value;
      HonestLookup(g, g.applies[sender].doc.resources[k], id)
  {
    HostRunPrefix(sys, h, t, n + 1);
    assert t[..n + 1][..n] == t[..n];
  }

  /** When a running process that the action had observed to be closed is signalled
      all the same, the identity lookup that came before had given no answer: in
      any run of any number of applies, with exits and PID reuse in between. */
  lemma StaleSignalledOnlyBlind(sys: Sys, h: Host, t: seq<HostEvent>, sender: nat, k: nat, pre: Snapshot,
                                n: nat, id: Lookup, answer: SignalAnswer)
    requires Fresh(h) && HostRun(sys, h, t + [Do(sender, SignalCall(k, answer))]).Some?
    requires Do(sender, Collect(k, pre)) in t && n < |t| && t[n] == Do(sender, Judge(k, id))
    ensures JudgedAt(sys, h, t, n, sender, k, id)
    ensures
      var g := HostRun(sys, h, t[..n]).value;
      var r := g.applies[sender].doc.resources[k];
      ProvenClosed(sys, pre, r) && Runs(g, r.pid, r.start) ==> id.err.Some? || id.start == ""
  {
    var u := t + [Do(sender, SignalCall(k, answer))];
    assert u[..|t|] == t;
    JudgedAtAny(sys, h, t, n, sender, k, id);
    OwnRun(sys, h, u, sender);
    OwnMembers(t, sender, Collect(k, pre));
    assert Do(sender, Judge(k, id)) in t;
    OwnMembers(t, sender, Judge(k, id));
    OwnSnoc(u, sender);
    DocStays(sys, h, u, n, sender) by { assert u[..n] == t[..n]; }
    assert u[..n] == t[..n];
    var doc := HostRun(sys, h, u).value.applies[sender].doc;
    ClosedIsNeverSignalled(sys, doc, Own(t, sender), k, pre, id, answer);
  }

  // ---- and that it then is -----------------------------------------------------------------

  lemma HostSnoc(sys: Sys, h: Host, t: seq<HostEvent>, g: Host, e: HostEvent, f: Host)
    requires HostRun(sys, h, t) == Some(g) && HostStep(sys, g, e) == Some(f)
    ensures HostRun(sys, h, t + [e]) == Some(f)
  {
    assert (t + [e])[..|t|] == t;
  }

  function Dos(t: seq<Event>): seq<HostEvent> {
    seq(|t|, j requires 0 <= j < |t| => Do(0, t[j]))
  }

  lemma LoneStep(sys: Sys, h: Host, a: Apply, ev: Event, b: Apply)
    requires h.applies == [a] && Step(sys, a, ev) == Some(b) && Honest(h, a, ev)
    ensures HostStep(sys, h, Do(0, ev)) == Some(h.(applies := [b], log := h.log + Logged(h, 0, ev)))
    ensures !ev.SignalCall? ==> HostStep(sys, h, Do(0, ev)) == Some(h.(applies := [b]))
  {
    assert [a][0 := b] == [b];
    assert h.log + [] == h.log;
  }

  lemma DosMembers(doc: PlanDoc, t: seq<Event>, ev: Event)
    requires ev in t
    ensures Do(0, ev) in [BeginApply(doc)] + Dos(t)
  {
    var j :| 0 <= j < |t| && t[j] == ev;
    assert Dos(t)[j] == Do(0, ev);
  }

  /** A lone apply runs on a host as it does alone. */
  lemma {:induction false} LoneApply(sys: Sys, h: Host, doc: PlanDoc, t: seq<Event>, a: Apply)
    requires h.applies == [] && QuietRun(sys, doc, t, a)
    ensures HostRun(sys, h, [BeginApply(doc)] + Dos(t)) == Some(h.(applies := [a]))
  {
    if t == [] {
      HostSnoc(sys, h, [], h, BeginApply(doc), h.(applies := [a])) by { assert [] + [Init(doc)] == [Init(doc)]; }
      assert [] + [BeginApply(doc)] == [BeginApply(doc)] + Dos(t);
    } else {
      var u, ev := t[..|t| - 1], t[|t| - 1];
      var b := Run(sys, Init(doc), u).value;
      LoneApply(sys, h, doc, u, b);
      LoneStep(sys, h.(applies := [b]), b, ev, a);
      LoneSnoc(sys, h, doc, t, b, a);
    }
  }

  lemma LoneSnoc(sys: Sys, h: Host, doc: PlanDoc, t: seq<Event>, b: Apply, a: Apply)
    requires t != [] && HostRun(sys, h, [BeginApply(doc)] + Dos(t[..|t| - 1])) == Some(h.(applies := [b]))
    requires HostStep(sys, h.(applies := [b]), Do(0, t[|t| - 1])) == Some(h.(applies := [a]))
    ensures HostRun(sys, h, [BeginApply(doc)] + Dos(t)) == Some(h.(applies := [a]))
  {
    DosSnoc(doc, t);
    HostSnoc(sys, h, [BeginApply(doc)] + Dos(t[..|t| - 1]), h.(applies := [b]), Do(0, t[|t| - 1]), h.(applies := [a]));
  }

  lemma DosSnoc(doc: PlanDoc, t: seq<Event>)
    requires t != []
    ensures [BeginApply(doc)] + Dos(t) == [BeginApply(doc)] + Dos(t[..|t| - 1]) + [Do(0, t[|t| - 1])]
  {
    assert Dos(t) == Dos(t[..|t| - 1]) + [Do(0, t[|t| - 1])];
    Associates([BeginApply(doc)], Dos(t[..|t| - 1]), [Do(0, t[|t| - 1])]);
  }

  lemma Associates<T>(x: seq<T>, y: seq<T>, z: seq<T>)
    ensures x + (y + z) == x + y + z
  {
  }

  ghost predicate SignalledBlind(sys: Sys, h: Host, t: seq<HostEvent>, k: nat, pre: Snapshot, id: Lookup, d: Delivery) {
    && Do(0, Collect(k, pre)) in t
    && HostRun(sys, h, t + [Do(0, Judge(k, id))] + [Do(0, SignalCall(k, Delivered))]).Some?
    && HostRun(sys, h, t + [Do(0, Judge(k, id))] + [Do(0, SignalCall(k, Delivered))]).value.log == [d]
  }

  lemma BlindSteps(sys: Sys, h: Host, t: seq<HostEvent>, a: Apply, b: Apply, k: nat, id: Lookup)
    requires h.log == [] && HostRun(sys, h, t) == Some(h.(applies := [a])) && Step(sys, a, Judge(k, id)) == Some(b)
    requires Sized(b) && k < |b.phases| && b.phases[k].Signalling? && b.doc == a.doc
    requires Runs(h, b.doc.resources[k].pid, b.doc.resources[k].start) && HonestLookup(h, b.doc.resources[k], id)
    ensures
      var u := t + [Do(0, Judge(k, id))] + [Do(0, SignalCall(k, Delivered))];
      var r := b.doc.resources[k];
      HostRun(sys, h, u).Some? && HostRun(sys, h, u).value.log == [Delivery(0, k, r.pid, r.start)]
  {
    var g, f := h.(applies := [a]), h.(applies := [b]);
    LoneStep(sys, g, a, Judge(k, id), b);
    HostSnoc(sys, h, t, g, Do(0, Judge(k, id)), f);
    var e := LoneDelivery(sys, f, b, k);
    HostSnoc(sys, h, t + [Do(0, Judge(k, id))], f, Do(0, SignalCall(k, Delivered)), e);
  }

  lemma LoneDelivery(sys: Sys, h: Host, a: Apply, k: nat) returns (g: Host)
    requires h.applies == [a] && h.log == [] && Sized(a) && k < |a.phases| && a.phases[k].Signalling?
    requires Runs(h, a.doc.resources[k].pid, a.doc.resources[k].start)
    ensures HostStep(sys, h, Do(0, SignalCall(k, Delivered))) == Some(g)
    ensures g.log == [Delivery(0, k, a.doc.resources[k].pid, a.doc.resources[k].start)]
  {
    var b := Move(a, k, AfterSignal(Delivered));
    LoneStep(sys, h, a, SignalCall(k, Delivered), b);
    g := h.(applies := [b], log := h.log + Logged(h, 0, SignalCall(k, Delivered)));
  }

  /** Conversely, for any process of any plan: if the lookup may give no answer, a
      run of this apply alone delivers the signal to the running process that its
      observation proved closed. */
  lemma StaleSignalledWhenBlind(sys: Sys, h: Host, doc: PlanDoc, k: nat, pre: Snapshot, id: Lookup)
    requires Fresh(h) && k < |doc.resources| && MaySignal(sys, doc.resources[k])
    requires ProvenClosed(sys, pre, doc.resources[k]) && Runs(h, doc.resources[k].pid, doc.resources[k].start)
    requires id.err.Some? || id.start == ""
    requires HonestLookup(h, doc.resources[k], id) && doc.resources[k].start != ""
    ensures exists t ::
      SignalledBlind(sys, h, t, k, pre, id, Delivery(0, k, doc.resources[k].pid, doc.resources[k].start))
  {
    var o, a := VerdictIsReachable(sys, doc, k, pre);
    var r := doc.resources[k];
    LoneApply(sys, h, doc, o, a);
    var t := [BeginApply(doc)] + Dos(o);
    DosMembers(doc, o, Collect(k, pre));
    var b := Move(a, k, Signalling(pre, id));
    assert Step(sys, a, Judge(k, id)) == Some(b);
    BlindSteps(sys, h, t, a, b, k, id);
    assert SignalledBlind(sys, h, t, k, pre, id, Delivery(0, k, r.pid, r.start));
  }

  // ---- the atomic signal and its implementation ----------------------------------------

  /** A kernel's processes as this module sees them. */
  function HostOf(k: SignalRace.Kernel): Host {
    Host(map p | p in k.live :: k.live[p].start, k.born, [], [])
  }

  ghost predicate HonestAt(r: PlanResource, k: SignalRace.Kernel, t: seq<SignalRace.RaceEvent>, n: nat,
                           answer: SignalAnswer)
    requires n <= |t|
  {
    && SignalRace.RaceRun(r.pid, r.start, SignalRace.Begin(k), t[..n]).Some?
    && HonestSignal(HostOf(SignalRace.RaceRun(r.pid, r.start, SignalRace.Begin(k), t[..n]).value.k), r, answer)
  }

  /** The atomic SignalIfSame assumed above is what the Linux one provides: however
      its steps are interleaved with exits and PID reuse, there is a moment of the
      call at which the atomic one could have given the same answer - also where the
      fallback delivers, and even if it hits a successor of the process it compared. */
  lemma SignalIsAtomic(r: PlanResource, k: SignalRace.Kernel, t: seq<SignalRace.RaceEvent>, answer: SignalAnswer)
    requires SignalRace.KernelOk(k) && SignalRace.RaceRun(r.pid, r.start, SignalRace.Begin(k), t).Some?
    requires SignalRace.RaceRun(r.pid, r.start, SignalRace.Begin(k), t).value.pc == SignalRace.Done(answer)
    ensures exists n: nat :: n <= |t| && HonestAt(r, k, t, n, answer)
  {
    SignalRace.AnswersAreJustified(r.pid, r.start, k, t);
    SignalRace.RaceRunKeeps(r.pid, r.start, SignalRace.Begin(k), t);
    assert t[..|t|] == t;
    match answer {
      case Delivered => MomentIsHonest(r, k, t, SignalRace.Alive(r.pid, r.start), answer);
      case Changed => MomentIsHonest(r, k, t, SignalRace.Other(r.pid, r.start), answer);
      case NoProcess => MomentIsHonest(r, k, t, SignalRace.Absent(r.pid), answer);
      case _ => assert HonestAt(r, k, t, |t|, answer);
    }
  }

  lemma MomentIsHonest(r: PlanResource, k: SignalRace.Kernel, t: seq<SignalRace.RaceEvent>,
                       q: SignalRace.Kernel -> bool, answer: SignalAnswer)
    requires SignalRace.Once(r.pid, r.start, k, t, q)
    requires forall m | q(m) :: HonestSignal(HostOf(m), r, answer)
    ensures exists n: nat :: n <= |t| && HonestAt(r, k, t, n, answer)
  {
    var n: nat :| n <= |t| && SignalRace.OnceAt(r.pid, r.start, k, t, q, n);
    assert HonestAt(r, k, t, n, answer);
  }
}
