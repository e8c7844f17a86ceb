/** internal/cli/observe.go (collectIdentities) and internal/cli/kill.go
    (captureIdentity): an owner of a port is listed at one moment and its start token
    is read at a later one; only then is it bound to a process. In between the rest
    of the system moves on. */
module Binding {
  import opened Domain
  import opened SignalRace

  function KernelRun(k: Kernel, v: seq<RaceEvent>): Option<Kernel> {
    if v == [] then Some(k) else
      match KernelRun(k, v[..|v| - 1]) {
        case None => None
        case Some(m) => KernelStep(m, v[|v| - 1])
      }
  }

  /** The listing shows the PID: whoever has it then is the holder of the port. */
  predicate ListedAt(k: Kernel, pid: int, holder: Proc) {
    KernelOk(k) && pid in k.live && k.live[pid] == holder
  }

  /** The lookup reads the start token of whoever has the PID now, if anybody. */
  predicate BoundAt(k: Kernel, pid: int, start: string) {
    pid in k.live && k.live[pid].start == start
  }

  lemma {:induction false} MovesOn(k: Kernel, pid: int, holder: Proc, v: seq<RaceEvent>)
    requires ListedAt(k, pid, holder) && KernelRun(k, v).Some?
    ensures Followed(k, pid, holder, v, KernelRun(k, v).value)
  {
    if v != [] {
      var u, ev := v[..|v| - 1], v[|v| - 1];
      MovesOn(k, pid, holder, u);
      FollowedStep(k, pid, holder, u, KernelRun(k, u).value, ev, KernelRun(k, v).value);
      assert u + [ev] == v;
    }
  }

  /** The process the lookup reads - and, when no pair is ever used twice, the token it
      binds - is that of the listed holder if and only if the PID was not given up and
      taken again between listing and lookup. */
  lemma BindsTheHolderExactly(k: Kernel, pid: int, holder: Proc, v: seq<RaceEvent>, start: string)
    requires ListedAt(k, pid, holder) && KernelRun(k, v).Some? && BoundAt(KernelRun(k, v).value, pid, start)
    ensures KernelRun(k, v).value.live[pid] == holder <==> !ExitThenReuse(pid, v)
    ensures !KernelRun(k, v).value.reused ==> (start == holder.start <==> !ExitThenReuse(pid, v))
  {
    MovesOn(k, pid, holder, v);
  }

  /** It can be taken again: from any moment the listing could have been made. */
  lemma StrangerCanBeBound(k: Kernel, pid: int, holder: Proc, start: string)
    requires ListedAt(k, pid, holder) && (pid, start) !in k.born
    ensures
      var v := [ExitOf(pid), SpawnOf(pid, start)];
      && ExitThenReuse(pid, v) && start != holder.start
      && KernelRun(k, v).Some? && BoundAt(KernelRun(k, v).value, pid, start)
      && KernelRun(k, v).value.live[pid] != holder
  {
    var v := [ExitOf(pid), SpawnOf(pid, start)];
    assert v[0] == ExitOf(pid) && SpawnAt(pid, v, 1);
    KernelSnoc(k, [], ExitOf(pid));
    assert [] + [ExitOf(pid)] == [ExitOf(pid)];
    KernelSnoc(k, [ExitOf(pid)], SpawnOf(pid, start));
    assert [ExitOf(pid)] + [SpawnOf(pid, start)] == v;
  }

  // ---- from the listing to the signal --------------------------------------------------

  /** What the rest of the system did during a call. */
  function World(t: seq<RaceEvent>): seq<RaceEvent> {
    if t == [] then [] else
      World(t[..|t| - 1]) + if FromOutside(t[|t| - 1]) then [t[|t| - 1]] else []
  }

  lemma {:induction false} KernelConcat(k: Kernel, a: seq<RaceEvent>, b: seq<RaceEvent>)
    requires KernelRun(k, a).Some?
    ensures KernelRun(k, a + b) == KernelRun(KernelRun(k, a).value, b)
  {
    if b == [] {
      assert a + b == a;
    } else {
      KernelConcat(k, a, b[..|b| - 1]);
      assert (a + b)[..|a + b| - 1] == a + b[..|b| - 1];
    }
  }

  lemma KernelSnoc(k: Kernel, v: seq<RaceEvent>, ev: RaceEvent)
    requires KernelRun(k, v).Some?
    ensures KernelRun(k, v + [ev]) == KernelStep(KernelRun(k, v).value, ev)
  {
    assert (v + [ev])[..|v|] == v;
  }

  lemma {:induction false} CallInWorld(pid: int, start: string, k: Kernel, t: seq<RaceEvent>)
    requires RaceRun(pid, start, Begin(k), t).Some?
    ensures KernelRun(k, World(t)) == Some(RaceRun(pid, start, Begin(k), t).value.k)
  {
    if t != [] {
      var u, ev := t[..|t| - 1], t[|t| - 1];
      CallInWorld(pid, start, k, u);
      if FromOutside(ev) { KernelSnoc(k, World(u), ev); } else { assert World(u) + [] == World(u); }
    }
  }

  /** The last step of a call, when that was a hit, hit whoever had the PID. */
  lemma HitsWhoHasThePid(pid: int, start: string, r: Race, ev: RaceEvent, q: Race)
    requires RaceInv(pid, start, r) && RaceStep(pid, start, r, ev) == Some(q) && r.hits == [] && q.hits != []
    ensures q.k == r.k && pid in q.k.live && q.hits[0].proc == q.k.live[pid]
  {
  }

  lemma {:induction false} NotReusedBefore(k: Kernel, v: seq<RaceEvent>, w: seq<RaceEvent>)
    requires KernelRun(k, v).Some? && KernelRun(k, v + w).Some? && !KernelRun(k, v + w).value.reused
    ensures !KernelRun(k, v).value.reused
  {
    if w == [] {
      assert v + w == v;
    } else {
      assert (v + w)[..|v + w| - 1] == v + w[..|w| - 1];
      NotReusedBefore(k, v, w[..|w| - 1]);
    }
  }

  /** A holder was listed in k; its token was read after v, and the call was entered
      after w more. u is what happened in the call up to its last step ev, a hit. */
  ghost predicate ListedThenHit(k: Kernel, pid: int, holder: Proc, v: seq<RaceEvent>, w: seq<RaceEvent>, start: string,
                                u: seq<RaceEvent>, ev: RaceEvent, q: Race)
  {
    && ListedAt(k, pid, holder) && KernelRun(k, v).Some? && BoundAt(KernelRun(k, v).value, pid, start)
    && KernelRun(k, v + w).Some?
    && var first := KernelRun(k, v + w).value;
       && RaceRun(pid, start, Begin(first), u).Some? && RaceRun(pid, start, Begin(first), u).value.hits == []
       && RaceStep(pid, start, RaceRun(pid, start, Begin(first), u).value, ev) == Some(q) && q.hits != []
  }

  lemma HitInWorld(k: Kernel, pid: int, holder: Proc, v: seq<RaceEvent>, w: seq<RaceEvent>, start: string,
                   u: seq<RaceEvent>, ev: RaceEvent, q: Race)
    requires ListedThenHit(k, pid, holder, v, w, start, u, ev, q)
    ensures KernelRun(k, v + (w + World(u))) == Some(q.k)
    ensures pid in q.k.live && q.hits[0].proc == q.k.live[pid] && (q.hits[0].viaPidfd ==> q.hits[0].proc.start == start)
  {
    var first := KernelRun(k, v + w).value;
    MovesOn(k, pid, holder, v + w);
    RaceRunKeeps(pid, start, Begin(first), u);
    var p := RaceRun(pid, start, Begin(first), u).value;
    RaceStepKeeps(pid, start, p, ev, q);
    HitsWhoHasThePid(pid, start, p, ev, q);
    assert q.hits[0] in q.hits;
    CallInWorld(pid, start, first, u);
    KernelConcat(k, v + w, World(u));
    assert v + w + World(u) == v + (w + World(u));
  }

  /** The classic kill and the plan alike bind a listed owner by a later lookup and
      signal it later still. The signal hits the process that held the port when it
      was listed if and only if the PID was not given up and taken again before the
      hit; through the pidfd, with no token used twice, if and only if that did not
      happen between listing and lookup. */
  lemma SignalReachesTheHolderExactly(k: Kernel, pid: int, holder: Proc, v: seq<RaceEvent>, w: seq<RaceEvent>,
                                      start: string, u: seq<RaceEvent>, ev: RaceEvent, q: Race)
    requires ListedThenHit(k, pid, holder, v, w, start, u, ev, q)
    ensures q.hits[0].proc == holder <==> !ExitThenReuse(pid, v + (w + World(u)))
    ensures q.hits[0].viaPidfd && !q.k.reused ==> (q.hits[0].proc == holder <==> !ExitThenReuse(pid, v))
  {
    HitInWorld(k, pid, holder, v, w, start, u, ev, q);
    BindsTheHolderExactly(k, pid, holder, v + (w + World(u)), q.hits[0].proc.start);
    BindsTheHolderExactly(k, pid, holder, v, start);
    if !q.k.reused { NotReusedBefore(k, v, w + World(u)); }
  }
}
