/** Many applies on one host whose signals are carried out by the single steps of
    internal/cli/procid_linux.go: calls of different applies, and of one apply, are
    interleaved with each other and with processes that exit and PIDs that are
    reused. Replay takes SignalIfSame as atomic and SignalRace looks at one call;
    here every call is shown to run as SignalRace has it; SharedRefinement shows the
    whole machine to do nothing that Replay's host could not do. */
module SharedHost {
  import opened Domain
  import opened Plan
  import opened Scheduler
  import opened SchedulerInvariant
  import opened PlanCheck
  import opened SignalRace
  import ActionEvidence
  import Replay
  import SignalPaths

  /** One SignalIfSame call: the kernel when it was entered (kept for reference),
      how far it has come, and what it has hit. */
  datatype Calling = Calling(first: Kernel, pc: Pc, hits: seq<Hit>)

  /** Which apply makes the call, and for which of its resources. */
  type Key = (nat, nat)

  /** A call is kept under its key also after it ended. */
  datatype Machine = Machine(k: Kernel, applies: seq<Apply>, calls: map<Key, Calling>)

  datatype MachineEvent =
    | Outside(ev: RaceEvent)                 // an exit, or a PID that is given out
    | Begins(doc: PlanDoc)
    | Does(sender: nat, act: Event)          // any step of an apply but a signal
    | Calls(c: Key)                          // SignalIfSame is entered,
    | Moves(c: Key, ev: RaceEvent)           //   makes one of its steps,
    | Returns(c: Key, answer: SignalAnswer)  //   and returns

  predicate Names(m: Machine, c: Key) {
    c.0 < |m.applies| && c.1 < |m.applies[c.0].doc.resources| && c.1 < |m.applies[c.0].phases|
  }

  function ResourceOf(m: Machine, c: Key): PlanResource
    requires Names(m, c)
  {
    m.applies[c.0].doc.resources[c.1]
  }

  function PhaseOf(m: Machine, c: Key): Phase
    requires Names(m, c)
  {
    m.applies[c.0].phases[c.1]
  }

  /** The action is where it calls SignalIfSame. */
  predicate InCall(m: Machine, c: Key) {
    Names(m, c) && PhaseOf(m, c).Signalling?
  }

  function RaceOf(m: Machine, c: Key): Race
    requires c in m.calls
  {
    Race(m.k, m.calls[c].pc, m.calls[c].hits)
  }

  /** A panic ends a call only before it has hit anything; an identity lookup shows
      who holds the PID at that moment. */
  predicate MayDo(m: Machine, sender: nat, act: Event)
    requires sender < |m.applies|
  {
    && !act.SignalCall?
    && (act.PanicEarly? ==> (sender, act.i) in m.calls ==> m.calls[(sender, act.i)].hits == [])
    && Replay.Honest(Replay.HostOf(m.k), m.applies[sender], act)
  }

  ghost function MachineStep(sys: Sys, m: Machine, e: MachineEvent): Option<Machine> {
    match e
    case Outside(ev) =>
      (match KernelStep(m.k, ev)
       case None => None
       case Some(k) => Some(m.(k := k)))
    case Begins(doc) => Some(m.(applies := m.applies + [Init(doc)]))
    case Does(sender, act) =>
      if sender < |m.applies| && MayDo(m, sender, act) then
        match Step(sys, m.applies[sender], act) {
          case None => None
          case Some(b) => Some(m.(applies := m.applies[sender := b]))
        }
      else None
    case Calls(c) =>
      if InCall(m, c) && c !in m.calls then Some(m.(calls := m.calls[c := Calling(m.k, AtValidate, [])])) else None
    case Moves(c, ev) =>
      if InCall(m, c) && c in m.calls && !FromOutside(ev) then
        match CallStep(ResourceOf(m, c).pid, ResourceOf(m, c).start, RaceOf(m, c), ev) {
          case None => None
          case Some(q) => Some(m.(calls := m.calls[c := Calling(m.calls[c].first, q.pc, q.hits)]))
        }
      else None
    case Returns(c, answer) =>
      if InCall(m, c) && c in m.calls && m.calls[c].pc == Done(answer) then
        match Step(sys, m.applies[c.0], SignalCall(c.1, answer)) {
          case None => None
          case Some(b) => Some(m.(applies := m.applies[c.0 := b]))
        }
      else None
  }

  ghost function MachineRun(sys: Sys, m: Machine, t: seq<MachineEvent>): Option<Machine> {
    if t == [] then Some(m) else
      match MachineRun(sys, m, t[..|t| - 1]) {
        case None => None
        case Some(n) => MachineStep(sys, n, t[|t| - 1])
      }
  }

  predicate Boot(m: Machine) {
    KernelOk(m.k) && m.applies == [] && m.calls == map[]
  }

  // ---- every call is a run of its own -----------------------------------------------

  /** What the world and one call did since that call was entered. */
  function Since(t: seq<MachineEvent>, c: Key): seq<RaceEvent> {
    if t == [] then [] else
      var e, before := t[|t| - 1], Since(t[..|t| - 1], c);
      if e == Calls(c) then []
      else if e.Outside? || (e.Moves? && e.c == c) then before + [e.ev]
      else before
  }

  lemma SinceSnoc(t: seq<MachineEvent>, e: MachineEvent, c: Key)
    ensures Since(t + [e], c) ==
      if e == Calls(c) then []
      else if e.Outside? || (e.Moves? && e.c == c) then Since(t, c) + [e.ev]
      else Since(t, c)
  {
    assert (t + [e])[..|t|] == t;
  }

  /** The call stands where it would stand had it been alone with the world. */
  ghost predicate RanAsRace(m: Machine, c: Key, r: PlanResource, u: seq<RaceEvent>)
    requires c in m.calls
  {
    KernelOk(m.calls[c].first) && RaceRun(r.pid, r.start, Begin(m.calls[c].first), u) == Some(RaceOf(m, c))
  }

  predicate HasCalled(p: Phase) {
    p.Signalling? || p.Returned? || p.Stored? || p.Released? || p.Exited?
  }

  ghost predicate CallOk(sys: Sys, m: Machine, c: Key, u: seq<RaceEvent>)
    requires c in m.calls
  {
    && Names(m, c) && HasCalled(PhaseOf(m, c)) && Replay.MaySignal(sys, ResourceOf(m, c))
    && RanAsRace(m, c, ResourceOf(m, c), u)
  }

  ghost predicate MachineOk(sys: Sys, m: Machine, t: seq<MachineEvent>) {
    && KernelOk(m.k) && AppliesOk(sys, m.applies)
    && (forall c | c in m.calls :: CallOk(sys, m, c, Since(t, c)))
  }

  lemma KernelOkStep(k: Kernel, ev: RaceEvent, l: Kernel)
    requires KernelOk(k) && KernelStep(k, ev) == Some(l)
    ensures KernelOk(l) && (k.reused ==> l.reused)
  {
  }

  lemma CalledStaysCalled(sys: Sys, r: PlanResource, cancelled: bool, p: Phase, ev: Event, q: Phase)
    requires PhaseStep(sys, r, cancelled, p, ev) == Some(q) && HasCalled(p)
    ensures HasCalled(q)
  {
  }

  lemma CallStays(sys: Sys, a: Apply, ev: Event, b: Apply, i: nat)
    requires Inv(a) && Step(sys, a, ev) == Some(b) && Sized(b) && b.doc == a.doc && i < |a.phases| &&
      HasCalled(a.phases[i])
    ensures HasCalled(b.phases[i])
  {
    if IsWorker(ev) && ev.i == i {
      CalledStaysCalled(sys, a.doc.resources[i], a.cancelled, a.phases[i], ev, b.phases[i]);
    } else if !IsWorker(ev) && !ev.Cancel? {
      ActionEvidence.DispatcherPhase(a, ev, b, i);
    }
  }

  /** What a step of one apply or the arrival of another leaves as it was. */
  ghost predicate Keeps(m: Machine, n: Machine) {
    forall c | Names(m, c) ::
      Names(n, c) && ResourceOf(n, c) == ResourceOf(m, c) && (HasCalled(PhaseOf(m, c)) ==> HasCalled(PhaseOf(n, c)))
  }

  ghost predicate AppliesOk(sys: Sys, applies: seq<Apply>) {
    forall s | 0 <= s < |applies| :: Replay.ApplyOk(sys, applies[s])
  }

  lemma ApplyMoves(sys: Sys, m: Machine, s: nat, ev: Event, b: Apply)
    requires AppliesOk(sys, m.applies) && s < |m.applies| && Step(sys, m.applies[s], ev) == Some(b)
    ensures AppliesOk(sys, m.applies[s := b]) && Keeps(m, m.(applies := m.applies[s := b]))
  {
    Replay.ApplyOkStep(sys, m.applies[s], ev, b);
    forall i: nat | i < |b.phases| && HasCalled(m.applies[s].phases[i]) ensures HasCalled(b.phases[i]) {
      CallStays(sys, m.applies[s], ev, b, i);
    }
  }

  lemma AppliesMove(sys: Sys, m: Machine, e: MachineEvent, n: Machine)
    requires AppliesOk(sys, m.applies) && MachineStep(sys, m, e) == Some(n)
    ensures AppliesOk(sys, n.applies) && Keeps(m, n)
  {
    match e {
      case Begins(doc) => InitInv(doc);
      case Does(sender, act) => ApplyMoves(sys, m, sender, act, n.applies[sender]);
      case Returns(c, answer) => ApplyMoves(sys, m, c.0, SignalCall(c.1, answer), n.applies[c.0]);
      case _ =>
    }
  }

  lemma CallOkStep(sys: Sys, m: Machine, t: seq<MachineEvent>, e: MachineEvent, n: Machine, c: Key)
    requires MachineOk(sys, m, t) && MachineStep(sys, m, e) == Some(n) && c in n.calls
    ensures CallOk(sys, n, c, Since(t + [e], c))
  {
    AppliesMove(sys, m, e, n);
    SinceSnoc(t, e, c);
    if c in m.calls {
      assert CallOk(sys, m, c, Since(t, c));
      CallGoesOn(sys, m, e, n, c, ResourceOf(m, c), Since(t, c));
    } else {
      NewCallOk(sys, m, c, n);
    }
  }

  lemma NewCallOk(sys: Sys, m: Machine, c: Key, n: Machine)
    requires KernelOk(m.k) && AppliesOk(sys, m.applies) && MachineStep(sys, m, Calls(c)) == Some(n)
    ensures CallOk(sys, n, c, [])
  {
    SignallingApply(sys, m.applies[c.0], c.1);
  }

  lemma CallGoesOn(sys: Sys, m: Machine, e: MachineEvent, n: Machine, c: Key, r: PlanResource, u: seq<RaceEvent>)
    requires MachineStep(sys, m, e) == Some(n) && c in m.calls && RanAsRace(m, c, r, u)
    requires e.Moves? && e.c == c ==> r == ResourceOf(m, c)
    ensures c in n.calls && e != Calls(c)
    ensures RanAsRace(n, c, r, if e.Outside? || (e.Moves? && e.c == c) then u + [e.ev] else u)
  {
    if e.Outside? || (e.Moves? && e.c == c) {
      RaceRunSnoc(r.pid, r.start, Begin(m.calls[c].first), u, e.ev);
    }
  }

  lemma SignallingApply(sys: Sys, a: Apply, i: nat)
    requires Replay.ApplyOk(sys, a) && i < |a.phases| && a.phases[i].Signalling?
    ensures Replay.MaySignal(sys, a.doc.resources[i])
  {
  }

  /** After every run each call stands where it would have come alone with the
      world, so that all that SignalRace says of one call holds of each of them. */
  lemma {:induction false} CallsRunAlone(sys: Sys, m: Machine, t: seq<MachineEvent>)
    requires Boot(m) && MachineRun(sys, m, t).Some?
    ensures MachineOk(sys, MachineRun(sys, m, t).value, t)
  {
    if t != [] {
      var u, e := t[..|t| - 1], t[|t| - 1];
      CallsRunAlone(sys, m, u);
      assert u + [e] == t;
      MachineOkStep(sys, MachineRun(sys, m, u).value, u, e, MachineRun(sys, m, t).value);
    }
  }

  lemma MachineOkStep(sys: Sys, m: Machine, t: seq<MachineEvent>, e: MachineEvent, n: Machine)
    requires MachineOk(sys, m, t) && MachineStep(sys, m, e) == Some(n)
    ensures MachineOk(sys, n, t + [e])
  {
    AppliesMove(sys, m, e, n);
    if e.Outside? { KernelOkStep(m.k, e.ev, n.k); }
    forall c | c in n.calls ensures CallOk(sys, n, c, Since(t + [e], c)) {
      CallOkStep(sys, m, t, e, n, c);
    }
  }

  /** Delivery safety for all calls together: a call hits at most one process, and
      that exactly when it reports success; only planned processes of its own plan
      are called for, never killport itself; a hit through the pidfd has the
      planned start token, and where the pidfd can be opened and used every hit is
      one through it. */
  lemma SharedDeliveriesAreSafe(sys: Sys, m: Machine, t: seq<MachineEvent>, c: Key)
    requires Boot(m) && MachineRun(sys, m, t).Some? && c in MachineRun(sys, m, t).value.calls
    ensures Names(MachineRun(sys, m, t).value, c)
    ensures
      var n := MachineRun(sys, m, t).value;
      var r := ResourceOf(n, c);
      && Replay.MaySignal(sys, r)
      && |n.calls[c].hits| == (if n.calls[c].pc == Done(Delivered) then 1 else 0)
      && (forall h | h in n.calls[c].hits :: ValidSignalPid(r.pid) && (h.viaPidfd ==> h.proc.start == r.start))
      && (forall h | h in n.calls[c].hits && !h.viaPidfd :: SignalPaths.Blocked(Since(t, c)))
      && (ValidPlan(n.applies[c.0].doc) ==> r.pid > 1 && !(n.applies[c.0].doc.os == Windows && r.pid == 4))
  {
    CallsRunAlone(sys, m, t);
    var n := MachineRun(sys, m, t).value;
    var r := ResourceOf(n, c);
    PidfdReachesOnlyThePlanned(r.pid, r.start, n.calls[c].first, Since(t, c));
    forall h | h in n.calls[c].hits && !h.viaPidfd ensures SignalPaths.Blocked(Since(t, c)) {
      SignalPaths.ByPidOnlyWhenBlocked(r.pid, r.start, n.calls[c].first, Since(t, c));
    }
    if ValidPlan(n.applies[c.0].doc) {
      assert r in n.applies[c.0].doc.resources && ResourceOk(n.applies[c.0].doc, r);
    }
  }

  /** The process hit is not the one compared at the j-th step - and, when no pair
      is ever used twice, not one with the planned start token - if and only if that
      one exited and the PID was taken again in between. */
  ghost predicate MissesByReuse(r: PlanResource, first: Kernel, u: seq<RaceEvent>, j: nat, hit: Proc, reused: bool) {
    && LastCompare(r.pid, r.start, first, u, j)
    && var compared := RaceRun(r.pid, r.start, Begin(first), u[..j]).value.k.live[r.pid];
       && (hit != compared <==> ExitThenReuse(r.pid, u[j + 1..]))
       && (!reused ==> (hit.start != r.start <==> ExitThenReuse(r.pid, u[j + 1..])))
  }

  /** The fallback among other calls misses the process it compared exactly when
      that exited and its PID was taken again before the kill. */
  lemma SharedFallbackMissesExactly(sys: Sys, m: Machine, t: seq<MachineEvent>, c: Key)
    requires Boot(m) && MachineRun(sys, m, t + [Moves(c, KillCall(NoFault))]).Some?
    requires MachineRun(sys, m, t + [Moves(c, KillCall(NoFault))]).value.calls[c].pc == Done(Delivered)
    ensures
      var n := MachineRun(sys, m, t + [Moves(c, KillCall(NoFault))]).value;
      && |n.calls[c].hits| == 1 && Names(n, c)
      && exists j: nat ::
           MissesByReuse(ResourceOf(n, c), n.calls[c].first, Since(t, c), j, n.calls[c].hits[0].proc, n.k.reused)
  {
    var e := Moves(c, KillCall(NoFault));
    assert (t + [e])[..|t|] == t;
    CallsRunAlone(sys, m, t + [e]);
    SinceSnoc(t, e, c);
    var n := MachineRun(sys, m, t + [e]).value;
    var r := ResourceOf(n, c);
    var first, u := n.calls[c].first, Since(t, c);
    FallbackMissesExactly(r.pid, r.start, first, u);
    var j: nat :| LastCompare(r.pid, r.start, first, u, j)
      && var compared := RaceRun(r.pid, r.start, Begin(first), u[..j]).value.k.live[r.pid];
         && (n.calls[c].hits[0].proc != compared <==> ExitThenReuse(r.pid, u[j + 1..]))
         && (!n.k.reused ==> (n.calls[c].hits[0].proc.start != r.start <==> ExitThenReuse(r.pid, u[j + 1..])));
    assert MissesByReuse(r, first, u, j, n.calls[c].hits[0].proc, n.k.reused);
  }
}
