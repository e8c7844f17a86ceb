/** The machine of SharedHost does nothing that the host of Replay, whose signals
    are atomic, could not do: as long as no (PID, start token) pair is used twice,
    every run of the machine is matched by a run of the host with the same processes
    and the same applies. The host signalled the planned process wherever a call
    reported success; the machine hit that process, unless the fallback missed it.

    When an atomic signal must have happened is known only in hindsight: that the
    planned process was gone may be noticed long after its PID was taken again. So
    the proof follows, for every run, all the promises that could be made at that
    point: an answer may be promised to an open call as soon as it has been true
    once since the call was entered. */
module SharedRefinement {
  import opened Domain
  import opened Plan
  import opened Scheduler
  import opened SchedulerInvariant
  import opened SignalRace
  import opened SharedHost
  import ActionEvidence
  import Replay

  /** The answers that open calls are going to give. */
  type Promises = map<Key, SignalAnswer>

  /** The apply as it is when the promised calls have already returned. */
  function Ahead(a: Apply, s: nat, promised: Promises): Apply {
    a.(phases := seq(|a.phases|, i requires 0 <= i < |a.phases| =>
      if (s, i) in promised then AfterSignal(promised[(s, i)]) else a.phases[i]))
  }

  ghost predicate OnlySignalling(a: Apply, s: nat, promised: Promises) {
    forall i | 0 <= i < |a.phases| && (s, i) in promised :: a.phases[i].Signalling?
  }

  lemma NotPromised(sys: Sys, a: Apply, ev: Event, b: Apply, s: nat, promised: Promises)
    requires Inv(a) && Step(sys, a, ev) == Some(b) && Sized(b) && b.doc == a.doc && !ev.SignalCall?
    requires OnlySignalling(b, s, promised) && OnlySignalling(a, s, promised)
    ensures IsWorker(ev) ==> (s, ev.i) !in promised
    ensures ev.Skip? || ev.Spawn? ==> (s, ev.i) !in promised
  {
    if IsWorker(ev) && (s, ev.i) in promised {
      OnlyJudgeSignals(sys, a.doc.resources[ev.i], a.cancelled, a.phases[ev.i], ev, b.phases[ev.i]);
      assert false;
    }
    if ev.Skip? || ev.Spawn? { assert CellOk(a, ev.i); }
  }

  lemma AheadWorker(sys: Sys, a: Apply, ev: Event, b: Apply, s: nat, promised: Promises)
    requires IsWorker(ev) && Step(sys, a, ev) == Some(b) && (s, ev.i) !in promised
    ensures Step(sys, Ahead(a, s, promised), ev) == Some(Ahead(b, s, promised))
  {
    var i, x, y := ev.i, Ahead(a, s, promised), Ahead(b, s, promised);
    assert x.phases[i] == a.phases[i];
    assert Effect(x, i, ev) == Some(Effect(a, i, ev).value.(phases := x.phases));
    assert b.phases == a.phases[i := b.phases[i]];
    assert y.phases == x.phases[i := b.phases[i]];
  }

  lemma AheadDispatcher(sys: Sys, a: Apply, ev: Event, b: Apply, s: nat, promised: Promises)
    requires Sized(a) && !IsWorker(ev) && Step(sys, a, ev) == Some(b) &&
      (ev.Skip? || ev.Spawn? ==> (s, ev.i) !in promised)
    ensures Step(sys, Ahead(a, s, promised), ev) == Some(Ahead(b, s, promised))
  {
    var x, y := Ahead(a, s, promised), Ahead(b, s, promised);
    if ev.Skip? || ev.Spawn? {
      assert b.phases == a.phases[ev.i := b.phases[ev.i]];
      assert y.phases == x.phases[ev.i := b.phases[ev.i]];
    } else {
      assert y.phases == x.phases;
    }
  }

  /** Any other step can be taken before or after the promised returns. */
  lemma AheadStep(sys: Sys, a: Apply, ev: Event, b: Apply, s: nat, promised: Promises)
    requires Inv(a) && Step(sys, a, ev) == Some(b) && Sized(b) && b.doc == a.doc && !ev.SignalCall?
    requires OnlySignalling(b, s, promised) && OnlySignalling(a, s, promised)
    ensures Step(sys, Ahead(a, s, promised), ev) == Some(Ahead(b, s, promised))
  {
    NotPromised(sys, a, ev, b, s, promised);
    if IsWorker(ev) {
      AheadWorker(sys, a, ev, b, s, promised);
    } else {
      AheadDispatcher(sys, a, ev, b, s, promised);
    }
  }

  lemma AheadSignal(sys: Sys, a: Apply, s: nat, promised: Promises, i: nat, answer: SignalAnswer)
    requires i < |a.phases| && i < |a.doc.resources| && a.phases[i].Signalling? && (s, i) !in promised
    ensures Step(sys, Ahead(a, s, promised), SignalCall(i, answer)) == Some(Ahead(a, s, promised[(s, i) := answer]))
  {
    var x, y := Ahead(a, s, promised), Ahead(a, s, promised[(s, i) := answer]);
    assert x.phases[i] == a.phases[i];
    assert y.phases == x.phases[i := AfterSignal(answer)];
  }

  lemma AheadOther(a: Apply, s: nat, promised: Promises, c: Key, answer: SignalAnswer)
    requires c.0 != s
    ensures Ahead(a, s, promised[c := answer]) == Ahead(a, s, promised)
  {
  }

  /** Once the promised call has returned nothing is left of the promise. */
  lemma AheadReturned(sys: Sys, a: Apply, s: nat, promised: Promises, i: nat, answer: SignalAnswer, b: Apply)
    requires Step(sys, a, SignalCall(i, answer)) == Some(b) && (s, i) !in promised
    ensures Ahead(a, s, promised[(s, i) := answer]) == Ahead(b, s, promised)
  {
    assert Ahead(a, s, promised[(s, i) := answer]).phases == Ahead(b, s, promised).phases;
  }

  // ---- promises ------------------------------------------------------------------------

  ghost predicate WasTrue(m: Machine, c: Key, u: seq<RaceEvent>, answer: SignalAnswer)
    requires c in m.calls && Names(m, c)
  {
    exists n: nat :: n <= |u| && Replay.HonestAt(ResourceOf(m, c), m.calls[c].first, u, n, answer)
  }

  ghost predicate MayPromise(m: Machine, t: seq<MachineEvent>, c: Key, answer: SignalAnswer) {
    InCall(m, c) && c in m.calls && WasTrue(m, c, Since(t, c), answer)
  }

  ghost predicate AllMayBe(m: Machine, t: seq<MachineEvent>, promised: Promises) {
    forall c | c in promised :: MayPromise(m, t, c, promised[c])
  }

  predicate TrueNow(m: Machine, c: Key, answer: SignalAnswer)
    requires Names(m, c)
  {
    Replay.HonestSignal(Replay.HostOf(m.k), ResourceOf(m, c), answer)
  }

  /** A moment of the longer run is its end or a moment of the shorter one. */
  lemma MomentOf(r: PlanResource, first: Kernel, u: seq<RaceEvent>, v: seq<RaceEvent>, j: nat, answer: SignalAnswer)
    requires j <= |v| && Replay.HonestAt(r, first, v, j, answer)
    requires v == u || v == [] || (|v| == |u| + 1 && v[..|u|] == u)
    requires RaceRun(r.pid, r.start, Begin(first), v).Some?
    ensures
      || Replay.HonestSignal(Replay.HostOf(RaceRun(r.pid, r.start, Begin(first), v).value.k), r, answer)
      || (v != [] && j <= |u| && Replay.HonestAt(r, first, u, j, answer))
  {
    if j == |v| {
      assert v[..j] == v;
    } else {
      assert v[..j] == u[..j];
    }
  }

  /** What may be promised could be promised before or is true now. */
  lemma OldOrNew(sys: Sys, m: Machine, t: seq<MachineEvent>, e: MachineEvent, n: Machine, c: Key, answer: SignalAnswer)
    requires MachineOk(sys, m, t) && MachineStep(sys, m, e) == Some(n) && MachineOk(sys, n, t + [e])
    requires MayPromise(n, t + [e], c, answer)
    ensures MayPromise(m, t, c, answer) || TrueNow(n, c, answer)
  {
    SinceSnoc(t, e, c);
    var u, v, r, first := Since(t, c), Since(t + [e], c), ResourceOf(n, c), n.calls[c].first;
    var j: nat :| j <= |v| && Replay.HonestAt(r, first, v, j, answer);
    assert CallOk(sys, n, c, v);
    MomentOf(r, first, u, v, j, answer);
    if v != [] && j <= |u| && Replay.HonestAt(r, first, u, j, answer) {
      SameCall(sys, m, e, n, c);
      assert CallOk(sys, m, c, u);
      StillSignalling(sys, m, e, n, c);
      assert WasTrue(m, c, u, answer);
    }
  }

  lemma SameCall(sys: Sys, m: Machine, e: MachineEvent, n: Machine, c: Key)
    requires MachineStep(sys, m, e) == Some(n) && c in n.calls && e != Calls(c)
    ensures c in m.calls && m.calls[c].first == n.calls[c].first
  {
  }

  lemma StillSignalling(sys: Sys, m: Machine, e: MachineEvent, n: Machine, c: Key)
    requires AppliesOk(sys, m.applies) && MachineStep(sys, m, e) == Some(n) && Names(m, c) && HasCalled(PhaseOf(m, c))
    requires InCall(n, c)
    ensures InCall(m, c) && ResourceOf(m, c) == ResourceOf(n, c)
  {
    if e.Does? && e.sender == c.0 {
      BackToSignalling(sys, m.applies[c.0], e.act, n.applies[c.0], c.1);
    }
    if e.Returns? && e.c.0 == c.0 {
      BackToSignalling(sys, m.applies[c.0], SignalCall(e.c.1, e.answer), n.applies[c.0], c.1);
    }
  }

  lemma BackToSignalling(sys: Sys, a: Apply, ev: Event, b: Apply, i: nat)
    requires Replay.ApplyOk(sys, a) && Step(sys, a, ev) == Some(b) && i < |a.phases| && HasCalled(a.phases[i])
    requires i < |b.phases| && b.phases[i].Signalling?
    ensures a.phases[i].Signalling? && b.doc == a.doc
  {
    Replay.ApplyOkStep(sys, a, ev, b);
    if IsWorker(ev) && ev.i == i {
      OnlyJudgeSignals(sys, a.doc.resources[i], a.cancelled, a.phases[i], ev, b.phases[i]);
    } else if !IsWorker(ev) && !ev.Cancel? {
      ActionEvidence.DispatcherPhase(a, ev, b, i);
    }
  }

  lemma OnlyJudgeSignals(sys: Sys, r: PlanResource, cancelled: bool, p: Phase, ev: Event, q: Phase)
    requires PhaseStep(sys, r, cancelled, p, ev) == Some(q) && HasCalled(p)
    ensures !q.Signalling?
  {
  }

  lemma NowMayPromise(sys: Sys, m: Machine, t: seq<MachineEvent>, c: Key, answer: SignalAnswer)
    requires MachineOk(sys, m, t) && InCall(m, c) && c in m.calls && TrueNow(m, c, answer)
    ensures MayPromise(m, t, c, answer)
  {
    var u := Since(t, c);
    assert CallOk(sys, m, c, u) && u[..|u|] == u;
    assert Replay.HonestAt(ResourceOf(m, c), m.calls[c].first, u, |u|, answer);
  }

  // ---- the host that keeps up ------------------------------------------------------------

  lemma NotReusedBefore(sys: Sys, m: Machine, e: MachineEvent, n: Machine)
    requires MachineStep(sys, m, e) == Some(n) && !n.k.reused
    ensures !m.k.reused
  {
  }

  /** A delivery the host must have made: of a call that has returned, or that is
      promised, with success. */
  predicate Landed(m: Machine, promised: Promises, d: Replay.Delivery) {
    var c := (d.sender, d.k);
    && Names(m, c) && c in m.calls && d.pid == ResourceOf(m, c).pid && d.start == ResourceOf(m, c).start
    && if c in promised then promised[c] == Delivered else !InCall(m, c) && m.calls[c].pc == Done(Delivered)
  }

  ghost predicate SameWorld(m: Machine, h: Replay.Host) {
    h.live == Replay.HostOf(m.k).live && h.born == m.k.born
  }

  ghost predicate SameApplies(m: Machine, promised: Promises, h: Replay.Host) {
    |h.applies| == |m.applies| && forall s | 0 <= s < |m.applies| :: h.applies[s] == Ahead(m.applies[s], s, promised)
  }

  ghost predicate SameLog(m: Machine, promised: Promises, h: Replay.Host) {
    forall d :: d in h.log <==> Landed(m, promised, d)
  }

  ghost predicate Matches(m: Machine, promised: Promises, h: Replay.Host) {
    SameWorld(m, h) && SameApplies(m, promised, h) && SameLog(m, promised, h)
  }

  lemma FollowWorld(sys: Sys, m: Machine, ev: RaceEvent, n: Machine, promised: Promises, h: Replay.Host)
    returns (e: Replay.HostEvent, g: Replay.Host)
    requires MachineStep(sys, m, Outside(ev)) == Some(n) && !n.k.reused && Matches(m, promised, h)
    ensures Replay.HostStep(sys, h, e) == Some(g) && Matches(n, promised, g)
  {
    if ev.ExitOf? {
      e, g := Replay.HostExit(ev.p), h.(live := h.live - {ev.p});
    } else {
      e, g := Replay.HostSpawn(ev.p, ev.st), h.(live := h.live[ev.p := ev.st], born := h.born + {(ev.p, ev.st)});
    }
    assert g.live == Replay.HostOf(n.k).live;
    assert forall d: Replay.Delivery :: Landed(n, promised, d) == Landed(m, promised, d);
  }

  lemma BeginLog(m: Machine, doc: PlanDoc, promised: Promises, d: Replay.Delivery)
    requires forall c | c in m.calls :: Names(m, c)
    ensures Landed(m.(applies := m.applies + [Init(doc)]), promised, d) == Landed(m, promised, d)
  {
  }

  lemma BeginApplies(applies: seq<Apply>, doc: PlanDoc, promised: Promises, ahead: seq<Apply>)
    requires |ahead| == |applies| && forall s | 0 <= s < |applies| :: ahead[s] == Ahead(applies[s], s, promised)
    requires forall c | c in promised :: c.0 < |applies|
    ensures
      var more, all := applies + [Init(doc)], ahead + [Init(doc)];
      forall s | 0 <= s < |more| :: all[s] == Ahead(more[s], s, promised)
  {
    var s := |applies|;
    assert forall i: nat :: (s, i) !in promised;
    assert Ahead(Init(doc), s, promised) == Init(doc);
  }

  lemma FollowBegin(sys: Sys, m: Machine, doc: PlanDoc, promised: Promises, h: Replay.Host)
    requires Matches(m, promised, h)
    requires (forall c | c in m.calls :: Names(m, c)) && forall c | c in promised :: InCall(m, c)
    ensures Matches(m.(applies := m.applies + [Init(doc)]), promised, h.(applies := h.applies + [Init(doc)]))
  {
    BeginApplies(m.applies, doc, promised, h.applies);
    forall d ensures Landed(m.(applies := m.applies + [Init(doc)]), promised, d) == Landed(m, promised, d) {
      BeginLog(m, doc, promised, d);
    }
  }

  /** The applies in step with one that makes a step of its own. */
  lemma StepApplies(sys: Sys, m: Machine, s: nat, act: Event, b: Apply, promised: Promises, h: Replay.Host)
    requires AppliesOk(sys, m.applies) && s < |m.applies| && Step(sys, m.applies[s], act) == Some(b) && !act.SignalCall?
    requires SameApplies(m, promised, h)
    requires forall c | c in promised :: InCall(m, c) && InCall(m.(applies := m.applies[s := b]), c)
    ensures Step(sys, h.applies[s], act) == Some(Ahead(b, s, promised))
    ensures SameApplies(m.(applies := m.applies[s := b]), promised,
      h.(applies := h.applies[s := Ahead(b, s, promised)]))
  {
    var a := m.applies[s];
    Replay.ApplyOkStep(sys, a, act, b);
    forall i: nat | i < |a.phases| && (s, i) in promised ensures a.phases[i].Signalling? && b.phases[i].Signalling? {
      assert InCall(m, (s, i)) && InCall(m.(applies := m.applies[s := b]), (s, i));
    }
    AheadStep(sys, a, act, b, s, promised);
  }

  lemma FollowStep(sys: Sys, m: Machine, t: seq<MachineEvent>, s: nat, act: Event, n: Machine, promised: Promises,
                   h: Replay.Host)
    returns (g: Replay.Host)
    requires MachineOk(sys, m, t) && MachineStep(sys, m, Does(s, act)) == Some(n) && Matches(m, promised, h)
    requires forall c | c in promised :: InCall(m, c) && InCall(n, c)
    ensures Replay.HostStep(sys, h, Replay.Do(s, act)) == Some(g) && Matches(n, promised, g)
  {
    var b := n.applies[s];
    StepApplies(sys, m, s, act, b, promised, h);
    g := h.(applies := h.applies[s := Ahead(b, s, promised)]);
    assert h.log + [] == h.log;
    forall d ensures Landed(n, promised, d) == Landed(m, promised, d) {
      StepLog(sys, m, t, s, act, n, promised, d);
    }
  }

  lemma StepLog(sys: Sys, m: Machine, t: seq<MachineEvent>, s: nat, act: Event, n: Machine, promised: Promises,
                d: Replay.Delivery)
    requires MachineOk(sys, m, t) && MachineStep(sys, m, Does(s, act)) == Some(n)
    ensures Landed(n, promised, d) == Landed(m, promised, d)
  {
    var c := (d.sender, d.k);
    if c in m.calls {
      AppliesMove(sys, m, Does(s, act), n);
      assert CallOk(sys, m, c, Since(t, c));
      if InCall(m, c) != InCall(n, c) {
        LeavesEmptyHanded(sys, m, t, s, act, n, c);
      }
      SameLanding(m, n, promised, d);
    }
  }

  lemma SameLanding(m: Machine, n: Machine, promised: Promises, d: Replay.Delivery)
    requires
      var c := (d.sender, d.k);
      && c in m.calls && c in n.calls && n.calls[c] == m.calls[c]
      && Names(m, c) && Names(n, c) && ResourceOf(n, c) == ResourceOf(m, c)
      && (InCall(m, c) == InCall(n, c) || m.calls[c].pc != Done(Delivered))
    ensures Landed(n, promised, d) == Landed(m, promised, d)
  {
  }

  /** A call that is abandoned has delivered nothing. */
  lemma LeavesEmptyHanded(sys: Sys, m: Machine, t: seq<MachineEvent>, s: nat, act: Event, n: Machine, c: Key)
    requires MachineOk(sys, m, t) && MachineStep(sys, m, Does(s, act)) == Some(n)
    requires c in m.calls && Names(m, c) && Names(n, c) && InCall(m, c) != InCall(n, c)
    ensures m.calls[c].pc != Done(Delivered)
  {
    assert CallOk(sys, m, c, Since(t, c));
    var r := ResourceOf(m, c);
    RaceRunKeeps(r.pid, r.start, Begin(m.calls[c].first), Since(t, c));
    if InCall(n, c) {
      StillSignalling(sys, m, Does(s, act), n, c);
      assert false;
    }
    OnlyPanicLeaves(sys, m.applies[s], act, n.applies[s], c.1);
  }

  lemma OnlyPanicLeaves(sys: Sys, a: Apply, ev: Event, b: Apply, i: nat)
    requires Replay.ApplyOk(sys, a) && Step(sys, a, ev) == Some(b) && i < |a.phases| && i < |b.phases|
    requires a.phases[i].Signalling? && !b.phases[i].Signalling? && !ev.SignalCall?
    ensures ev == PanicEarly(i)
  {
    Replay.ApplyOkStep(sys, a, ev, b);
    if IsWorker(ev) && ev.i == i {
      OnlyPanicEnds(sys, a.doc.resources[i], a.cancelled, a.phases[i], ev);
    } else if !IsWorker(ev) && !ev.Cancel? {
      ActionEvidence.DispatcherPhase(a, ev, b, i);
    }
  }

  lemma OnlyPanicEnds(sys: Sys, r: PlanResource, cancelled: bool, p: Phase, ev: Event)
    requires PhaseStep(sys, r, cancelled, p, ev).Some? && p.Signalling?
    ensures ev.SignalCall? || ev.PanicEarly?
  {
  }

  lemma CallsAndMovesLand(sys: Sys, m: Machine, e: MachineEvent, n: Machine, promised: Promises, h: Replay.Host)
    requires MachineStep(sys, m, e) == Some(n) && (e.Calls? || e.Moves?) && Matches(m, promised, h)
    requires forall c | c in promised :: c in m.calls
    ensures Matches(n, promised, h)
  {
    forall d ensures Landed(n, promised, d) == Landed(m, promised, d) {
      OpenCallsLand(m, e.c, n, promised, d);
    }
  }

  /** A call that is under way has not landed, whatever it has come to. */
  lemma OpenCallsLand(m: Machine, c: Key, n: Machine, promised: Promises, d: Replay.Delivery)
    requires InCall(m, c) && n.applies == m.applies && (c in promised ==> c in m.calls) && c in n.calls
    requires forall b | b != c :: (b in n.calls <==> b in m.calls) && (b in m.calls ==> n.calls[b] == m.calls[b])
    ensures Landed(n, promised, d) == Landed(m, promised, d)
  {
  }

  /** One event of the machine, while the promises stay as they are. */
  lemma Follow(sys: Sys, m: Machine, t: seq<MachineEvent>, e: MachineEvent, n: Machine, promised: Promises,
               k: Kernel, u: seq<Replay.HostEvent>, h: Replay.Host)
    returns (v: seq<Replay.HostEvent>, g: Replay.Host)
    requires MachineOk(sys, m, t) && MachineStep(sys, m, e) == Some(n) && !e.Returns? && !n.k.reused
    requires AllMayBe(m, t, promised) && forall c | c in promised :: InCall(n, c)
    requires Replay.HostRun(sys, Replay.HostOf(k), u) == Some(h) && Matches(m, promised, h)
    ensures Replay.HostRun(sys, Replay.HostOf(k), v) == Some(g) && Matches(n, promised, g)
  {
    if e.Calls? || e.Moves? {
      CallsAndMovesLand(sys, m, e, n, promised, h);
      return u, h;
    }
    var f: Replay.HostEvent;
    if e.Outside? {
      f, g := FollowWorld(sys, m, e.ev, n, promised, h);
    } else if e.Does? {
      g := FollowStep(sys, m, t, e.sender, e.act, n, promised, h);
      f := Replay.Do(e.sender, e.act);
    } else {
      f, g := Replay.BeginApply(e.doc), h.(applies := h.applies + [Init(e.doc)]);
      forall c | c in m.calls ensures Names(m, c) { assert CallOk(sys, m, c, Since(t, c)); }
      FollowBegin(sys, m, e.doc, promised, h);
    }
    Replay.HostSnoc(sys, Replay.HostOf(k), u, h, f, g);
    v := u + [f];
  }

  /** An answer that is true now is given now. */
  lemma Fulfil(sys: Sys, m: Machine, promised: Promises, c: Key, answer: SignalAnswer,
               k: Kernel, u: seq<Replay.HostEvent>, h: Replay.Host)
    returns (v: seq<Replay.HostEvent>, g: Replay.Host)
    requires InCall(m, c) && c in m.calls && c !in promised && TrueNow(m, c, answer)
    requires Replay.HostRun(sys, Replay.HostOf(k), u) == Some(h) && Matches(m, promised, h)
    ensures Replay.HostRun(sys, Replay.HostOf(k), v) == Some(g) && Matches(m, promised[c := answer], g)
  {
    var ev := SignalCall(c.1, answer);
    var a := m.applies[c.0];
    AheadSignal(sys, a, c.0, promised, c.1, answer);
    g := h.(applies := h.applies[c.0 := Ahead(a, c.0, promised[c := answer])],
      log := h.log + Replay.Logged(h, c.0, ev));
    FulfilApplies(m, promised, c, answer, h, g);
    FulfilLog(m, promised, c, answer, h, g);
    Replay.HostSnoc(sys, Replay.HostOf(k), u, h, Replay.Do(c.0, ev), g);
    v := u + [Replay.Do(c.0, ev)];
  }

  lemma FulfilApplies(m: Machine, promised: Promises, c: Key, answer: SignalAnswer, h: Replay.Host, g: Replay.Host)
    requires SameApplies(m, promised, h) && c.0 < |m.applies|
    requires g.applies == h.applies[c.0 := Ahead(m.applies[c.0], c.0, promised[c := answer])]
    ensures SameApplies(m, promised[c := answer], g)
  {
    forall s | 0 <= s < |m.applies| ensures g.applies[s] == Ahead(m.applies[s], s, promised[c := answer]) {
      if s != c.0 { AheadOther(m.applies[s], s, promised, c, answer); }
    }
  }

  lemma FulfilLog(m: Machine, promised: Promises, c: Key, answer: SignalAnswer, h: Replay.Host, g: Replay.Host)
    requires Matches(m, promised, h) && InCall(m, c) && c in m.calls && c !in promised && TrueNow(m, c, answer)
    requires g.log == h.log + Replay.Logged(h, c.0, SignalCall(c.1, answer))
    ensures SameLog(m, promised[c := answer], g)
  {
    var r := ResourceOf(m, c);
    var made := Replay.Delivery(c.0, c.1, r.pid, r.start);
    assert h.applies[c.0].doc == m.applies[c.0].doc;
    assert Replay.Logged(h, c.0, SignalCall(c.1, answer)) == if answer == Delivered then [made] else [];
    forall d ensures d in g.log <==> Landed(m, promised[c := answer], d) {
      assert d in g.log <==> d in h.log || (answer == Delivered && d == made);
      assert d in h.log <==> Landed(m, promised, d);
    }
  }

  lemma OneLess(promised: Promises, left: set<Key>, c: Key)
    requires c in left && left <= promised.Keys
    ensures promised - (left - {c}) == (promised - left)[c := promised[c]]
  {
  }

  /** All answers that are true now, one after the other. */
  lemma {:induction false} FulfilAll(sys: Sys, m: Machine, promised: Promises, left: set<Key>,
               k: Kernel, u: seq<Replay.HostEvent>, h: Replay.Host)
    returns (v: seq<Replay.HostEvent>, g: Replay.Host)
    requires left <= promised.Keys && forall c | c in left :: InCall(m, c) && c in m.calls && TrueNow(m, c, promised[c])
    requires Replay.HostRun(sys, Replay.HostOf(k), u) == Some(h) && Matches(m, promised - left, h)
    ensures Replay.HostRun(sys, Replay.HostOf(k), v) == Some(g) && Matches(m, promised, g)
    decreases left
  {
    if left == {} {
      assert promised - left == promised;
      v, g := u, h;
    } else {
      var c :| c in left;
      v, g := Fulfil(sys, m, promised - left, c, promised[c], k, u, h);
      OneLess(promised, left, c);
      v, g := FulfilAll(sys, m, promised, left - {c}, k, v, g);
    }
  }

  /** The promises that could not be made before the last event. */
  ghost function Newly(m: Machine, t: seq<MachineEvent>, promised: Promises): set<Key> {
    set c | c in promised && !MayPromise(m, t, c, promised[c])
  }

  lemma ReturnEnds(sys: Sys, m: Machine, c: Key, answer: SignalAnswer, n: Machine)
    requires MachineStep(sys, m, Returns(c, answer)) == Some(n)
    ensures !InCall(n, c)
  {
  }

  /** A call that returns could have promised its answer. */
  lemma ReturnWasPromised(sys: Sys, m: Machine, t: seq<MachineEvent>, c: Key, answer: SignalAnswer, n: Machine)
    requires MachineOk(sys, m, t) && MachineStep(sys, m, Returns(c, answer)) == Some(n)
    ensures MayPromise(m, t, c, answer)
  {
    var u := Since(t, c);
    assert CallOk(sys, m, c, u);
    Replay.SignalIsAtomic(ResourceOf(m, c), m.calls[c].first, u, answer);
  }

  lemma OthersWerePromised(sys: Sys, m: Machine, t: seq<MachineEvent>, c: Key, answer: SignalAnswer, n: Machine,
                           d: Key, given: SignalAnswer)
    requires MachineOk(sys, m, t) && MachineStep(sys, m, Returns(c, answer)) == Some(n)
    requires MachineOk(sys, n, t + [Returns(c, answer)]) && MayPromise(n, t + [Returns(c, answer)], d, given)
    ensures MayPromise(m, t, d, given)
  {
    OldOrNew(sys, m, t, Returns(c, answer), n, d, given);
    assert CallOk(sys, m, d, Since(t, d));
    StillSignalling(sys, m, Returns(c, answer), n, d);
    if TrueNow(n, d, given) { NowMayPromise(sys, m, t, d, given); }
  }

  lemma PromisedInCall(m: Machine, t: seq<MachineEvent>, promised: Promises, c: Key)
    requires AllMayBe(m, t, promised)
    ensures c in promised ==> InCall(m, c)
  {
  }

  lemma OneMorePromise(m: Machine, t: seq<MachineEvent>, promised: Promises, c: Key, answer: SignalAnswer)
    requires AllMayBe(m, t, promised) && MayPromise(m, t, c, answer)
    ensures AllMayBe(m, t, promised[c := answer])
  {
  }

  lemma ReturnPromises(sys: Sys, m: Machine, t: seq<MachineEvent>, c: Key, answer: SignalAnswer, n: Machine,
                       promised: Promises)
    requires MachineOk(sys, m, t) && MachineStep(sys, m, Returns(c, answer)) == Some(n)
    requires MachineOk(sys, n, t + [Returns(c, answer)]) && AllMayBe(n, t + [Returns(c, answer)], promised)
    ensures c !in promised && AllMayBe(m, t, promised[c := answer])
  {
    ReturnEnds(sys, m, c, answer, n);
    PromisedInCall(n, t + [Returns(c, answer)], promised, c);
    ReturnWasPromised(sys, m, t, c, answer, n);
    forall d | d in promised ensures MayPromise(m, t, d, promised[d]) {
      OthersWerePromised(sys, m, t, c, answer, n, d, promised[d]);
    }
    OneMorePromise(m, t, promised, c, answer);
  }

  /** A promised call that has returned is just a call that has returned. */
  lemma ReturnMatches(sys: Sys, m: Machine, c: Key, answer: SignalAnswer, n: Machine, promised: Promises,
                      h: Replay.Host)
    requires AppliesOk(sys, m.applies) && MachineStep(sys, m, Returns(c, answer)) == Some(n) && c !in promised
    requires Matches(m, promised[c := answer], h)
    ensures Matches(n, promised, h)
  {
    forall s | 0 <= s < |n.applies| ensures h.applies[s] == Ahead(n.applies[s], s, promised) {
      if s == c.0 {
        AheadReturned(sys, m.applies[s], s, promised, c.1, answer, n.applies[s]);
      } else {
        AheadOther(m.applies[s], s, promised, c, answer);
      }
    }
    Replay.ApplyOkStep(sys, m.applies[c.0], SignalCall(c.1, answer), n.applies[c.0]);
    forall d ensures Landed(n, promised, d) == Landed(m, promised[c := answer], d) {
      ReturnLands(sys, m, c, answer, n, promised, d);
    }
  }

  lemma ReturnLands(sys: Sys, m: Machine, c: Key, answer: SignalAnswer, n: Machine, promised: Promises,
                    d: Replay.Delivery)
    requires MachineStep(sys, m, Returns(c, answer)) == Some(n) && c !in promised
    requires n.applies[c.0].doc == m.applies[c.0].doc
    ensures Landed(n, promised, d) == Landed(m, promised[c := answer], d)
  {
  }

  /** Whatever is promised after a run of the machine, some run of the host ends
      with the same processes, the same applies - those promised have returned -
      and the same deliveries. */
  lemma {:induction false} Simulate(sys: Sys, m: Machine, t: seq<MachineEvent>, promised: Promises)
    returns (v: seq<Replay.HostEvent>, g: Replay.Host)
    requires Boot(m) && MachineRun(sys, m, t).Some? && !MachineRun(sys, m, t).value.k.reused
    requires AllMayBe(MachineRun(sys, m, t).value, t, promised)
    ensures Replay.HostRun(sys, Replay.HostOf(m.k), v) == Some(g) && Matches(MachineRun(sys, m, t).value, promised, g)
  {
    if t == [] {
      v, g := [], Replay.HostOf(m.k);
    } else {
      var u, e := t[..|t| - 1], t[|t| - 1];
      var p, n := MachineRun(sys, m, u).value, MachineRun(sys, m, t).value;
      assert u + [e] == t;
      CallsRunAlone(sys, m, u);
      CallsRunAlone(sys, m, t);
      NotReusedBefore(sys, p, e, n);
      if e.Returns? {
        ReturnPromises(sys, p, u, e.c, e.answer, n, promised);
        v, g := Simulate(sys, m, u, promised[e.c := e.answer]);
        ReturnMatches(sys, p, e.c, e.answer, n, promised, g);
      } else {
        var left := Newly(p, u, promised);
        v, g := Simulate(sys, m, u, promised - left);
        v, g := Follow(sys, p, u, e, n, promised - left, m.k, v, g);
        forall c | c in left ensures TrueNow(n, c, promised[c]) { OldOrNew(sys, p, u, e, n, c, promised[c]); }
        v, g := FulfilAll(sys, n, promised, left, m.k, v, g);
      }
    }
  }

  lemma NothingAhead(a: Apply, s: nat)
    ensures Ahead(a, s, map[]) == a
  {
    assert Ahead(a, s, map[]).phases == a.phases;
  }

  ghost predicate DoneOnHost(sys: Sys, k: Kernel, v: seq<Replay.HostEvent>, m: Machine, promised: Promises,
                             g: Replay.Host)
  {
    Replay.HostRun(sys, Replay.HostOf(k), v) == Some(g) && Matches(m, promised, g)
  }

  /** SignalIfSame as Linux does it refines SignalIfSame as apply relies on it:
      whatever applies, calls, exits and PID reuse are interleaved, a host with
      atomic signals can reach the very same applies and processes, having
      delivered exactly the signals of the calls that have returned. */
  lemma SharedRefinesAtomic(sys: Sys, m: Machine, t: seq<MachineEvent>)
    requires Boot(m) && MachineRun(sys, m, t).Some? && !MachineRun(sys, m, t).value.k.reused
    ensures
      var n := MachineRun(sys, m, t).value;
      exists v, g :: DoneOnHost(sys, m.k, v, n, map[], g) && g.applies == n.applies
  {
    var n := MachineRun(sys, m, t).value;
    var v, g := Simulate(sys, m, t, map[]);
    assert DoneOnHost(sys, m.k, v, n, map[], g);
    forall s | 0 <= s < |n.applies| ensures g.applies[s] == n.applies[s] { NothingAhead(n.applies[s], s); }
  }

  /** The calls that have their answer but have not returned. */
  ghost function Finishing(m: Machine): Promises {
    map c | c in m.calls && InCall(m, c) && m.calls[c].pc.Done? :: m.calls[c].pc.answer
  }

  /** A call has hit a process: said of the process it was for, whoever was hit. */
  predicate Reported(m: Machine, d: Replay.Delivery) {
    var c := (d.sender, d.k);
    && Names(m, c) && c in m.calls && m.calls[c].hits != []
    && d.pid == ResourceOf(m, c).pid && d.start == ResourceOf(m, c).start
  }

  /** A call has hit a process: said of the process that was hit. */
  predicate Reached(m: Machine, d: Replay.Delivery) {
    var c := (d.sender, d.k);
    && Names(m, c) && c in m.calls && m.calls[c].hits != []
    && d.pid == ResourceOf(m, c).pid && d.start == m.calls[c].hits[0].proc.start
  }

  ghost predicate NobodyMissed(m: Machine) {
    forall c | c in m.calls && Names(m, c) && m.calls[c].hits != [] ::
      m.calls[c].hits[0].proc.start == ResourceOf(m, c).start
  }

  lemma ReachedAsReported(m: Machine)
    ensures (forall d :: Reported(m, d) <==> Reached(m, d)) <==> NobodyMissed(m)
  {
    if !NobodyMissed(m) {
      var c :| c in m.calls && Names(m, c) && m.calls[c].hits != []
        && m.calls[c].hits[0].proc.start != ResourceOf(m, c).start;
      var d := Replay.Delivery(c.0, c.1, ResourceOf(m, c).pid, m.calls[c].hits[0].proc.start);
      assert (d.sender, d.k) == c;
      assert Reached(m, d) && !Reported(m, d);
    }
  }

  /** No call that reports success lost its process between its last comparison and
      the kill: a condition on the events alone. */
  ghost predicate NoReuseInWindow(m: Machine, t: seq<MachineEvent>) {
    forall c | c in m.calls && Names(m, c) && m.calls[c].hits != [] ::
      !ReusedInWindow(ResourceOf(m, c).pid, Since(t, c))
  }

  lemma MissedByReuse(sys: Sys, m: Machine, t: seq<MachineEvent>)
    requires MachineOk(sys, m, t) && !m.k.reused
    ensures NobodyMissed(m) <==> NoReuseInWindow(m, t)
  {
    forall c | c in m.calls && Names(m, c) && m.calls[c].hits != []
      ensures m.calls[c].hits[0].proc.start != ResourceOf(m, c).start <==>
        ReusedInWindow(ResourceOf(m, c).pid, Since(t, c))
    {
      assert CallOk(sys, m, c, Since(t, c));
      MissesExactly(ResourceOf(m, c).pid, ResourceOf(m, c).start, m.calls[c].first, Since(t, c));
    }
  }

  lemma FinishingMayBe(sys: Sys, m: Machine, t: seq<MachineEvent>)
    requires MachineOk(sys, m, t)
    ensures AllMayBe(m, t, Finishing(m))
  {
    forall c | c in Finishing(m) ensures MayPromise(m, t, c, Finishing(m)[c]) {
      assert CallOk(sys, m, c, Since(t, c));
      Replay.SignalIsAtomic(ResourceOf(m, c), m.calls[c].first, Since(t, c), m.calls[c].pc.answer);
    }
  }

  lemma LandedIsReported(sys: Sys, m: Machine, t: seq<MachineEvent>, d: Replay.Delivery)
    requires MachineOk(sys, m, t)
    ensures Landed(m, Finishing(m), d) <==> Reported(m, d)
  {
    var c := (d.sender, d.k);
    if c in m.calls {
      assert CallOk(sys, m, c, Since(t, c));
      var r := ResourceOf(m, c);
      RaceRunKeeps(r.pid, r.start, Begin(m.calls[c].first), Since(t, c));
    }
  }

  ghost predicate SameHits(m: Machine, h: Replay.Host) {
    forall d :: d in h.log <==> Reached(m, d)
  }

  ghost predicate SameReports(m: Machine, h: Replay.Host) {
    forall d :: d in h.log <==> Reported(m, d)
  }

  lemma LogOfHost(sys: Sys, m: Machine, t: seq<MachineEvent>, h: Replay.Host)
    requires MachineOk(sys, m, t) && !m.k.reused && SameLog(m, Finishing(m), h)
    ensures SameReports(m, h) && (SameHits(m, h) <==> NoReuseInWindow(m, t))
  {
    forall d ensures d in h.log <==> Reported(m, d) {
      LandedIsReported(sys, m, t, d);
    }
    ReachedAsReported(m);
    MissedByReuse(sys, m, t);
    assert SameHits(m, h) <==> forall d :: Reported(m, d) <==> Reached(m, d);
  }

  /** At any moment, calls under way included, a host with atomic signals could have
      delivered exactly what the calls report; the processes really hit are the same
      ones if and only if no PID was taken again between a comparison and its kill. */
  lemma HitsAreDeliveries(sys: Sys, m: Machine, t: seq<MachineEvent>)
    requires Boot(m) && MachineRun(sys, m, t).Some? && !MachineRun(sys, m, t).value.k.reused
    ensures
      var n := MachineRun(sys, m, t).value;
      exists v, g ::
        DoneOnHost(sys, m.k, v, n, Finishing(n), g) && SameReports(n, g) && (SameHits(n, g) <==> NoReuseInWindow(n, t))
  {
    var n := MachineRun(sys, m, t).value;
    CallsRunAlone(sys, m, t);
    FinishingMayBe(sys, n, t);
    var v, g := Simulate(sys, m, t, Finishing(n));
    LogOfHost(sys, n, t, g);
    assert DoneOnHost(sys, m.k, v, n, Finishing(n), g);
  }
}
