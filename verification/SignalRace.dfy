/** internal/cli/procid_linux.go: platformSignalIfSame and compareThenKill as
    separate steps, interleaved with processes that exit and PIDs that are reused.

    A process that exists is one whose PID is taken; an exit is the moment the PID
    becomes free. Any system call may also fail for reasons of its own. */
module SignalRace {
  import opened Domain
  import opened Scheduler

  /** One incarnation of a process: its serial number is never used again. */
  datatype Proc = Proc(serial: nat, start: string)

  datatype Hit = Hit(proc: Proc, viaPidfd: bool)

  datatype Pc =
    | AtValidate
    | AtOpen
    | AtRead(fd: Proc)       // a pidfd is held: it names the process it was opened on
    | AtSend(fd: Proc)
    | AtReread               // compareThenKill from here on
    | AtKill
    | Done(answer: SignalAnswer)

  /** born: every (PID, start token) that ever ran; reused: some process was
      given a pair that had been used before. */
  datatype Kernel = Kernel(live: map<int, Proc>, next: nat, born: set<(int, string)>, reused: bool)

  datatype Race = Race(k: Kernel, pc: Pc, hits: seq<Hit>)

  datatype Fault = NoFault | Refused | Broken

  datatype RaceEvent =
    | ExitOf(p: int) | SpawnOf(p: int, st: string)          // the rest of the system
    | Validate | Open(blocked: bool) | Read(fault: Fault)
    | Send(fault: Fault)                                    // Refused: ENOSYS or EPERM
    | KillCall(fault: Fault)

  predicate FromOutside(ev: RaceEvent) {
    ev.ExitOf? || ev.SpawnOf?
  }

  function Begin(k: Kernel): Race {
    Race(k, AtValidate, [])
  }

  function KernelStep(k: Kernel, ev: RaceEvent): Option<Kernel> {
    match ev
    case ExitOf(p) => if p in k.live then Some(k.(live := k.live - {p})) else None
    case SpawnOf(p, st) =>
      if p in k.live then None else
        Some(Kernel(k.live[p := Proc(k.next, st)], k.next + 1, k.born + {(p, st)}, k.reused || (p, st) in k.born))
    case _ => None
  }

  function Failure(f: Fault): SignalAnswer {
    if f == Refused then NotPermitted else SignalError
  }

  /** Reading the start time of the PID and comparing it with the planned one. */
  function Compare(k: Kernel, pid: int, start: string, f: Fault, same: Pc): Pc {
    if f != NoFault then Done(Failure(f))
    else if pid !in k.live then Done(NoProcess)
    else if k.live[pid].start != start then Done(Changed)
    else same
  }

  predicate Holds(k: Kernel, pid: int, p: Proc) {
    pid in k.live && k.live[pid].serial == p.serial
  }

  function CallStep(pid: int, start: string, r: Race, ev: RaceEvent): Option<Race> {
    match ev
    case Validate =>
      if r.pc.AtValidate? then Some(r.(pc := if ValidSignalPid(pid) then AtOpen else Done(SignalError))) else None
    case Open(blocked) =>
      if !r.pc.AtOpen? then None
      else if blocked then Some(r.(pc := AtReread))
      else if pid !in r.k.live then Some(r.(pc := Done(NoProcess)))
      else Some(r.(pc := AtRead(r.k.live[pid])))
    case Read(f) =>
      if r.pc.AtRead? then Some(r.(pc := Compare(r.k, pid, start, f, AtSend(r.pc.fd))))
      else if r.pc.AtReread? then Some(r.(pc := Compare(r.k, pid, start, f, AtKill)))
      else None
    case Send(f) =>
      if !r.pc.AtSend? then None
      else if f == Refused then Some(r.(pc := AtReread))
      else if f == Broken then Some(r.(pc := Done(SignalError)))
      else if Holds(r.k, pid, r.pc.fd) then
        Some(r.(pc := Done(Delivered), hits := r.hits + [Hit(r.k.live[pid], true)]))
      else Some(r.(pc := Done(NoProcess)))
    case KillCall(f) =>
      if !r.pc.AtKill? then None
      else if f != NoFault then Some(r.(pc := Done(Failure(f))))
      else if pid in r.k.live then
        Some(r.(pc := Done(Delivered), hits := r.hits + [Hit(r.k.live[pid], false)]))
      else Some(r.(pc := Done(NoProcess)))
    case _ => None
  }

  function RaceStep(pid: int, start: string, r: Race, ev: RaceEvent): Option<Race> {
    if FromOutside(ev) then
      match KernelStep(r.k, ev) {
        case Some(k) => Some(r.(k := k))
        case None => None
      }
    else CallStep(pid, start, r, ev)
  }

  function RaceRun(pid: int, start: string, r: Race, t: seq<RaceEvent>): Option<Race> {
    if t == [] then Some(r) else
      match RaceRun(pid, start, r, t[..|t| - 1]) {
        case None => None
        case Some(q) => RaceStep(pid, start, q, t[|t| - 1])
      }
  }

  /** Serial numbers in use have been handed out, and whoever lives was born. */
  predicate KernelOk(k: Kernel) {
    forall p | p in k.live :: k.live[p].serial < k.next && (p, k.live[p].start) in k.born
  }

  predicate PlannedAlive(k: Kernel, pid: int, start: string) {
    pid in k.live && k.live[pid].start == start
  }

  // ---- the invariant -----------------------------------------------------------

  /** What holds between any two steps, whoever makes the next one. */
  ghost predicate RaceInv(pid: int, start: string, r: Race) {
    && KernelOk(r.k)
    && (r.pc.AtRead? || r.pc.AtSend? ==>
          r.pc.fd.serial < r.k.next && (Holds(r.k, pid, r.pc.fd) ==> r.k.live[pid] == r.pc.fd))
    && (r.pc.AtSend? && Holds(r.k, pid, r.pc.fd) ==> r.pc.fd.start == start)
    && (forall h | h in r.hits :: h.viaPidfd ==> h.proc.start == start)
    && (if r.pc == Done(Delivered) then |r.hits| == 1 else r.hits == [])
    && (r.hits != [] || !(r.pc.AtValidate? || r.pc.Done?) ==> ValidSignalPid(pid))
  }

  lemma RaceStepKeeps(pid: int, start: string, r: Race, ev: RaceEvent, q: Race)
    requires RaceInv(pid, start, r) && RaceStep(pid, start, r, ev) == Some(q)
    ensures RaceInv(pid, start, q)
  {
  }

  lemma {:induction false} RaceRunKeeps(pid: int, start: string, r: Race, t: seq<RaceEvent>)
    requires RaceInv(pid, start, r) && RaceRun(pid, start, r, t).Some?
    ensures RaceInv(pid, start, RaceRun(pid, start, r, t).value)
  {
    if t != [] {
      RaceRunKeeps(pid, start, r, t[..|t| - 1]);
      RaceStepKeeps(pid, start, RaceRun(pid, start, r, t[..|t| - 1]).value, t[|t| - 1],
        RaceRun(pid, start, r, t).value);
    }
  }

  /** For every interleaving: at most one signal is sent, one exactly when the
      call reports success, never for a PID that could address anything but one
      process, and a signal sent through the pidfd reaches only a process with
      the planned start token. */
  lemma PidfdReachesOnlyThePlanned(pid: int, start: string, k: Kernel, t: seq<RaceEvent>)
    requires KernelOk(k) && RaceRun(pid, start, Begin(k), t).Some?
    ensures
      var r := RaceRun(pid, start, Begin(k), t).value;
      && |r.hits| == (if r.pc == Done(Delivered) then 1 else 0)
      && (forall h | h in r.hits :: ValidSignalPid(pid) && (h.viaPidfd ==> h.proc.start == start))
  {
    RaceRunKeeps(pid, start, Begin(k), t);
  }

  // ---- the fallback's race --------------------------------------------------------

  predicate ExitsIn(pid: int, v: seq<RaceEvent>) {
    exists i :: 0 <= i < |v| && v[i] == ExitOf(pid)
  }

  predicate SpawnAt(pid: int, v: seq<RaceEvent>, j: nat)
    requires j < |v|
  {
    v[j].SpawnOf? && v[j].p == pid
  }

  /** An exit of the PID followed by its reuse. */
  predicate ExitThenReuse(pid: int, v: seq<RaceEvent>) {
    exists i, j :: 0 <= i < j < |v| && v[i] == ExitOf(pid) && SpawnAt(pid, v, j)
  }

  lemma ExitsSnoc(pid: int, v: seq<RaceEvent>, ev: RaceEvent)
    ensures ExitsIn(pid, v + [ev]) <==> ExitsIn(pid, v) || ev == ExitOf(pid)
    ensures ExitThenReuse(pid, v + [ev]) <==>
      ExitThenReuse(pid, v) || (ExitsIn(pid, v) && ev.SpawnOf? && ev.p == pid)
  {
    var w := v + [ev];
    assert w[|v|] == ev && forall i | 0 <= i < |v| :: w[i] == v[i];
    if ExitsIn(pid, v) {
      var i :| 0 <= i < |v| && v[i] == ExitOf(pid);
      assert w[i] == ExitOf(pid);
      assert ev.SpawnOf? && ev.p == pid ==> SpawnAt(pid, w, |v|);
    }
    if ExitThenReuse(pid, v) {
      var i, j :| 0 <= i < j < |v| && v[i] == ExitOf(pid) && SpawnAt(pid, v, j);
      assert w[i] == ExitOf(pid) && SpawnAt(pid, w, j);
    }
    if ExitThenReuse(pid, w) {
      var i, j :| 0 <= i < j < |w| && w[i] == ExitOf(pid) && SpawnAt(pid, w, j);
      if j < |v| { assert v[i] == ExitOf(pid) && SpawnAt(pid, v, j); }
    }
  }

  /** Who holds the PID after the rest of the system has moved on by v, seen
      from a moment (kernel k) when p held it. */
  ghost predicate Followed(k: Kernel, pid: int, p: Proc, v: seq<RaceEvent>, now: Kernel) {
    && now.next >= k.next && k.born <= now.born && (k.reused ==> now.reused) && KernelOk(now)
    && (!ExitsIn(pid, v) ==> pid in now.live && now.live[pid] == p && !ExitThenReuse(pid, v))
    && (ExitsIn(pid, v) && pid in now.live ==> ExitThenReuse(pid, v))
    && (ExitsIn(pid, v) && pid in now.live ==>
          now.live[pid].serial >= k.next && (!now.reused ==> now.live[pid].start != p.start))
  }

  lemma FollowedStep(k: Kernel, pid: int, p: Proc, v: seq<RaceEvent>, now: Kernel, ev: RaceEvent, then_: Kernel)
    requires Followed(k, pid, p, v, now) && (pid, p.start) in k.born && KernelStep(now, ev) == Some(then_)
    ensures Followed(k, pid, p, v + [ev], then_)
  {
    ExitsSnoc(pid, v, ev);
  }

  /** The last start-time read of t is its n-th event: it found the planned token,
      and since then only the rest of the system has moved. */
  ghost predicate LastCompare(pid: int, start: string, k: Kernel, t: seq<RaceEvent>, n: nat) {
    && n < |t| && t[n] == Read(NoFault)
    && (forall m | n < m < |t| :: FromOutside(t[m]))
    && RaceRun(pid, start, Begin(k), t[..n]).Some?
    && PlannedAlive(RaceRun(pid, start, Begin(k), t[..n]).value.k, pid, start)
  }

  ghost predicate FollowedSince(pid: int, start: string, k: Kernel, t: seq<RaceEvent>, n: nat, now: Kernel) {
    && LastCompare(pid, start, k, t, n)
    && var seen := RaceRun(pid, start, Begin(k), t[..n]).value.k;
       Followed(seen, pid, seen.live[pid], t[n + 1..], now)
  }

  lemma FollowedSinceStep(pid: int, start: string, k: Kernel, t: seq<RaceEvent>, n: nat, now: Kernel, ev: RaceEvent,
                          later: Kernel)
    requires KernelOk(k) && FollowedSince(pid, start, k, t, n, now) && KernelStep(now, ev) == Some(later)
    ensures FollowedSince(pid, start, k, t + [ev], n, later)
  {
    var u := t + [ev];
    RaceRunKeeps(pid, start, Begin(k), t[..n]);
    var seen := RaceRun(pid, start, Begin(k), t[..n]).value.k;
    FollowedStep(seen, pid, seen.live[pid], t[n + 1..], now, ev, later);
    assert u[n + 1..] == t[n + 1..] + [ev];
    assert u[..n] == t[..n];
  }

  lemma {:induction false} KillFollowsCompare(pid: int, start: string, k: Kernel, t: seq<RaceEvent>)
    requires KernelOk(k) && RaceRun(pid, start, Begin(k), t).Some? && RaceRun(pid, start, Begin(k), t).value.pc.AtKill?
    ensures exists n: nat :: FollowedSince(pid, start, k, t, n, RaceRun(pid, start, Begin(k), t).value.k)
  {
    var u, ev := t[..|t| - 1], t[|t| - 1];
    var q, r := RaceRun(pid, start, Begin(k), u).value, RaceRun(pid, start, Begin(k), t).value;
    RaceRunKeeps(pid, start, Begin(k), t);
    if FromOutside(ev) {
      KillFollowsCompare(pid, start, k, u);
      var n: nat :| FollowedSince(pid, start, k, u, n, q.k);
      FollowedSinceStep(pid, start, k, u, n, q.k, ev, r.k);
      assert u + [ev] == t;
    } else {
      JustCompared(pid, start, k, u, ev, r);
      assert u + [ev] == t;
    }
  }

  lemma JustCompared(pid: int, start: string, k: Kernel, u: seq<RaceEvent>, ev: RaceEvent, r: Race)
    requires KernelOk(k) && RaceRun(pid, start, Begin(k), u).Some? && !FromOutside(ev) && r.pc.AtKill?
    requires RaceStep(pid, start, RaceRun(pid, start, Begin(k), u).value, ev) == Some(r) && KernelOk(r.k)
    ensures FollowedSince(pid, start, k, u + [ev], |u|, r.k)
  {
    var t := u + [ev];
    assert t[..|u|] == u && t[|u| + 1..] == [] && t[|u|] == ev;
    assert ev == Read(NoFault);
  }

  /** The fallback, for every interleaving: a signal it sends goes to a process
      other than the one whose start time was compared last - and, when no token
      is ever used twice, to one without the planned token - if and only if that
      process exited and the PID was taken again between that read and the kill. */
  lemma FallbackMissesExactly(pid: int, start: string, k: Kernel, t: seq<RaceEvent>)
    requires KernelOk(k)
    requires RaceRun(pid, start, Begin(k), t + [KillCall(NoFault)]).Some?
    requires RaceRun(pid, start, Begin(k), t + [KillCall(NoFault)]).value.pc == Done(Delivered)
    ensures
      var r := RaceRun(pid, start, Begin(k), t + [KillCall(NoFault)]).value;
      |r.hits| == 1 &&
      exists n: nat ::
        && LastCompare(pid, start, k, t, n)
        && var compared := RaceRun(pid, start, Begin(k), t[..n]).value.k.live[pid];
           && (r.hits[0].proc != compared <==> ExitThenReuse(pid, t[n + 1..]))
           && (!r.k.reused ==> (r.hits[0].proc.start != start <==> ExitThenReuse(pid, t[n + 1..])))
  {
    assert (t + [KillCall(NoFault)])[..|t|] == t;
    var q := RaceRun(pid, start, Begin(k), t).value;
    RaceRunKeeps(pid, start, Begin(k), t);
    KillFollowsCompare(pid, start, k, t);
    var n: nat :| FollowedSince(pid, start, k, t, n, q.k);
    RaceRunKeeps(pid, start, Begin(k), t[..n]);
    assert LastCompare(pid, start, k, t, n);
  }

  /** The n-th step compared, the m-th killed, and only the rest of the system moved
      in between. */
  predicate KillWindow(t: seq<RaceEvent>, n: nat, m: nat) {
    && n < m < |t| && t[n] == Read(NoFault) && t[m] == KillCall(NoFault)
    && forall i | n < i < m :: FromOutside(t[i])
  }

  lemma OneWindow(t: seq<RaceEvent>, n: nat, n': nat, m: nat)
    requires KillWindow(t, n, m) && KillWindow(t, n', m)
    ensures n == n'
  {
  }

  ghost predicate ReusedInWindow(pid: int, t: seq<RaceEvent>) {
    exists n: nat, m: nat :: KillWindow(t, n, m) && ExitThenReuse(pid, t[n + 1..m])
  }

  lemma {:induction false} RacePrefix(pid: int, start: string, r: Race, t: seq<RaceEvent>, n: nat)
    requires RaceRun(pid, start, r, t).Some? && n <= |t|
    ensures RaceRun(pid, start, r, t[..n]).Some?
    ensures !RaceRun(pid, start, r, t).value.k.reused ==> !RaceRun(pid, start, r, t[..n]).value.k.reused
  {
    if n == |t| {
      assert t[..n] == t;
    } else {
      RacePrefix(pid, start, r, t[..|t| - 1], n);
      assert t[..|t| - 1][..n] == t[..n];
    }
  }

  lemma {:induction false} NothingAfterDone(pid: int, start: string, r: Race, t: seq<RaceEvent>, n: nat, i: nat)
    requires RaceRun(pid, start, r, t).Some? && n <= i < |t|
    requires RaceRun(pid, start, r, t[..n]).Some? && RaceRun(pid, start, r, t[..n]).value.pc.Done?
    ensures FromOutside(t[i]) && RaceRun(pid, start, r, t).value.pc.Done?
  {
    var u := t[..|t| - 1];
    assert n < |t| && u[..n] == t[..n];
    if n < |u| {
      NothingAfterDone(pid, start, r, u, n, if i < |u| then i else n);
    } else {
      assert u == t[..n];
    }
  }

  /** Whoever kills has answered. */
  lemma KillIsLast(pid: int, start: string, r: Race, t: seq<RaceEvent>, n: nat, i: nat)
    requires RaceRun(pid, start, r, t).Some? && n < i < |t| && t[n] == KillCall(NoFault)
    ensures FromOutside(t[i])
  {
    RacePrefix(pid, start, r, t, n + 1);
    assert t[..n + 1][..n] == t[..n];
    NothingAfterDone(pid, start, r, t, n + 1, i);
  }

  /** The step that made the hit: the last of the call's own. */
  lemma {:induction false} HitAt(pid: int, start: string, k: Kernel, t: seq<RaceEvent>) returns (m: nat)
    requires KernelOk(k) && RaceRun(pid, start, Begin(k), t).Some? && RaceRun(pid, start, Begin(k), t).value.hits != []
    ensures m < |t| && (t[m].Send? || t[m] == KillCall(NoFault)) && forall i | m < i < |t| :: FromOutside(t[i])
    ensures RaceRun(pid, start, Begin(k), t[..m + 1]).Some?
    ensures
      var q := RaceRun(pid, start, Begin(k), t[..m + 1]).value;
      q.pc == Done(Delivered) && q.hits == RaceRun(pid, start, Begin(k), t).value.hits
      && (t[m].Send? ==> q.hits[0].viaPidfd)
  {
    var u := t[..|t| - 1];
    RaceRunKeeps(pid, start, Begin(k), u);
    RaceRunKeeps(pid, start, Begin(k), t);
    if RaceRun(pid, start, Begin(k), u).value.hits != [] {
      m := HitAt(pid, start, k, u);
      assert u[..m + 1] == t[..m + 1];
    } else {
      m := |t| - 1;
      assert t[..m + 1] == t;
    }
  }

  /** Over a whole call, whatever happened after it: the process hit is not one with
      the planned start token if and only if the PID was given up and taken again
      between the comparison and the kill. */
  lemma MissesExactly(pid: int, start: string, k: Kernel, t: seq<RaceEvent>)
    requires KernelOk(k) && RaceRun(pid, start, Begin(k), t).Some?
    requires RaceRun(pid, start, Begin(k), t).value.hits != [] && !RaceRun(pid, start, Begin(k), t).value.k.reused
    ensures RaceRun(pid, start, Begin(k), t).value.hits[0].proc.start != start <==> ReusedInWindow(pid, t)
  {
    var m := HitAt(pid, start, k, t);
    RaceRunKeeps(pid, start, Begin(k), t);
    forall n': nat, m': nat | KillWindow(t, n', m') ensures m' == m {
      if m' < m { KillIsLast(pid, start, Begin(k), t, m', m); }
    }
    var hit := RaceRun(pid, start, Begin(k), t).value.hits[0];
    if t[m].Send? {
      assert hit in RaceRun(pid, start, Begin(k), t).value.hits;
    } else {
      var n := WindowOf(pid, start, k, t, m, hit);
      forall n': nat | KillWindow(t, n', m) ensures n' == n { OneWindow(t, n, n', m); }
    }
  }

  lemma WindowOf(pid: int, start: string, k: Kernel, t: seq<RaceEvent>, m: nat, hit: Hit) returns (n: nat)
    requires KernelOk(k) && RaceRun(pid, start, Begin(k), t).Some? && !RaceRun(pid, start, Begin(k), t).value.k.reused
    requires m < |t| && t[m] == KillCall(NoFault) && RaceRun(pid, start, Begin(k), t[..m + 1]).Some?
    requires RaceRun(pid, start, Begin(k), t[..m + 1]).value.pc == Done(Delivered)
    requires RaceRun(pid, start, Begin(k), t[..m + 1]).value.hits == [hit]
    ensures KillWindow(t, n, m) && (hit.proc.start != start <==> ExitThenReuse(pid, t[n + 1..m]))
  {
    var u := t[..m];
    assert t[..m + 1] == u + [KillCall(NoFault)];
    RacePrefix(pid, start, Begin(k), t, m + 1);
    n := LastCompareOf(pid, start, k, u, hit);
    assert u[n + 1..] == t[n + 1..m];
    assert forall i | 0 <= i < m :: u[i] == t[i];
  }

  lemma LastCompareOf(pid: int, start: string, k: Kernel, u: seq<RaceEvent>, hit: Hit) returns (n: nat)
    requires KernelOk(k) && RaceRun(pid, start, Begin(k), u + [KillCall(NoFault)]).Some?
    requires
      var q := RaceRun(pid, start, Begin(k), u + [KillCall(NoFault)]).value;
      q.pc == Done(Delivered) && q.hits == [hit] && !q.k.reused
    ensures LastCompare(pid, start, k, u, n) && (hit.proc.start != start <==> ExitThenReuse(pid, u[n + 1..]))
  {
    FallbackMissesExactly(pid, start, k, u);
    n :| LastCompare(pid, start, k, u, n) && (hit.proc.start != start <==> ExitThenReuse(pid, u[n + 1..]));
  }

  /** The window is real: from any kernel where the planned process runs, this
      schedule makes the fallback signal its successor. */
  lemma FallbackCanMiss(pid: int, start: string, k: Kernel, other: string)
    requires KernelOk(k) && PlannedAlive(k, pid, start) && ValidSignalPid(pid) && (pid, other) !in k.born
    ensures other != start
    ensures exists t, r ::
      RaceRun(pid, start, Begin(k), t) == Some(r) && r.hits == [Hit(Proc(k.next, other), false)]
  {
    var t0: seq<RaceEvent> := [];
    var r0 := Begin(k);
    var t1, r1 := t0 + [Validate], r0.(pc := AtOpen);
    RaceRunSnoc(pid, start, Begin(k), t0, Validate);
    var t2, r2 := t1 + [Open(true)], r0.(pc := AtReread);
    RaceRunSnoc(pid, start, Begin(k), t1, Open(true));
    var t3, r3 := t2 + [Read(NoFault)], r0.(pc := AtKill);
    RaceRunSnoc(pid, start, Begin(k), t2, Read(NoFault));
    var k4 := k.(live := k.live - {pid});
    RaceRunSnoc(pid, start, Begin(k), t3, ExitOf(pid));
    var t4 := t3 + [ExitOf(pid)];
    RaceRunSnoc(pid, start, Begin(k), t4, SpawnOf(pid, other));
    var t5 := t4 + [SpawnOf(pid, other)];
    RaceRunSnoc(pid, start, Begin(k), t5, KillCall(NoFault));
    var r := RaceRun(pid, start, Begin(k), t5 + [KillCall(NoFault)]).value;
    assert RaceRun(pid, start, Begin(k), t5 + [KillCall(NoFault)]) == Some(r);
  }

  lemma RaceRunSnoc(pid: int, start: string, r: Race, t: seq<RaceEvent>, ev: RaceEvent)
    requires RaceRun(pid, start, r, t).Some?
    ensures RaceRun(pid, start, r, t + [ev]) == RaceStep(pid, start, RaceRun(pid, start, r, t).value, ev)
  {
    assert (t + [ev])[..|t|] == t;
  }

  // ---- honest answers ---------------------------------------------------------------

  /** With the planned pair used before the call and no pair used twice: an
      answer that claims the planned process is gone or replaced is true. */
  ghost predicate HonestSoFar(pid: int, start: string, r: Race) {
    && (pid, start) in r.k.born
    && (!r.k.reused ==>
          && ((r.pc.AtRead? || r.pc.AtSend?) && PlannedAlive(r.k, pid, start) ==> r.k.live[pid] == r.pc.fd)
          && (r.pc == Done(NoProcess) || r.pc == Done(Changed) ==> !PlannedAlive(r.k, pid, start)))
  }

  lemma HonestStep(pid: int, start: string, r: Race, ev: RaceEvent, q: Race)
    requires HonestSoFar(pid, start, r) && RaceStep(pid, start, r, ev) == Some(q)
    ensures HonestSoFar(pid, start, q)
  {
  }

  /** "Gone" and "changed" are final: whoever carried the planned token when the
      call began no longer runs, now or after anything else that happens. */
  lemma {:induction false} AnswersAreHonest(pid: int, start: string, k: Kernel, t: seq<RaceEvent>)
    requires (pid, start) in k.born && RaceRun(pid, start, Begin(k), t).Some?
    ensures HonestSoFar(pid, start, RaceRun(pid, start, Begin(k), t).value)
  {
    if t != [] {
      var u := t[..|t| - 1];
      AnswersAreHonest(pid, start, k, u);
      HonestStep(pid, start, RaceRun(pid, start, Begin(k), u).value, t[|t| - 1],
        RaceRun(pid, start, Begin(k), t).value);
    }
  }

  // ---- as good as atomic -------------------------------------------------------------

  /** At some moment of the run the kernel looked like that. */
  ghost predicate Once(pid: int, start: string, k: Kernel, t: seq<RaceEvent>, q: Kernel -> bool) {
    exists n: nat :: n <= |t| && OnceAt(pid, start, k, t, q, n)
  }

  predicate OnceAt(pid: int, start: string, k: Kernel, t: seq<RaceEvent>, q: Kernel -> bool, n: nat)
    requires n <= |t|
  {
    RaceRun(pid, start, Begin(k), t[..n]).Some? && q(RaceRun(pid, start, Begin(k), t[..n]).value.k)
  }

  lemma OnceGrows(pid: int, start: string, k: Kernel, t: seq<RaceEvent>, ev: RaceEvent, q: Kernel -> bool)
    requires Once(pid, start, k, t, q)
    ensures Once(pid, start, k, t + [ev], q)
  {
    var n: nat :| n <= |t| && OnceAt(pid, start, k, t, q, n);
    assert (t + [ev])[..n] == t[..n];
    assert OnceAt(pid, start, k, t + [ev], q, n);
  }

  lemma OnceNow(pid: int, start: string, k: Kernel, t: seq<RaceEvent>, q: Kernel -> bool)
    requires RaceRun(pid, start, Begin(k), t).Some? && q(RaceRun(pid, start, Begin(k), t).value.k)
    ensures Once(pid, start, k, t, q)
  {
    assert t[..|t|] == t;
    assert OnceAt(pid, start, k, t, q, |t|);
  }

  function Absent(pid: int): Kernel -> bool {
    (k: Kernel) => pid !in k.live
  }

  function Other(pid: int, start: string): Kernel -> bool {
    (k: Kernel) => pid in k.live && k.live[pid].start != start
  }

  function Alive(pid: int, start: string): Kernel -> bool {
    (k: Kernel) => PlannedAlive(k, pid, start)
  }

  /** Every answer so far was true of some moment of the run: gone when the PID was
      free, changed when another process had it, delivered - whoever was hit - when
      the planned process had it. */
  ghost predicate Justified(pid: int, start: string, k: Kernel, t: seq<RaceEvent>, r: Race) {
    && (r.pc.AtRead? || r.pc.AtSend? ==> Holds(r.k, pid, r.pc.fd) || Once(pid, start, k, t, Absent(pid)))
    && (r.pc == Done(NoProcess) ==> Once(pid, start, k, t, Absent(pid)))
    && (r.pc == Done(Changed) ==> Once(pid, start, k, t, Other(pid, start)))
    && (r.pc.AtKill? || r.hits != [] ==> Once(pid, start, k, t, Alive(pid, start)))
  }

  lemma JustifiedGrows(pid: int, start: string, k: Kernel, t: seq<RaceEvent>, ev: RaceEvent)
    ensures Once(pid, start, k, t, Absent(pid)) ==> Once(pid, start, k, t + [ev], Absent(pid))
    ensures Once(pid, start, k, t, Other(pid, start)) ==> Once(pid, start, k, t + [ev], Other(pid, start))
    ensures Once(pid, start, k, t, Alive(pid, start)) ==> Once(pid, start, k, t + [ev], Alive(pid, start))
  {
    if Once(pid, start, k, t, Absent(pid)) { OnceGrows(pid, start, k, t, ev, Absent(pid)); }
    if Once(pid, start, k, t, Other(pid, start)) { OnceGrows(pid, start, k, t, ev, Other(pid, start)); }
    if Once(pid, start, k, t, Alive(pid, start)) { OnceGrows(pid, start, k, t, ev, Alive(pid, start)); }
  }

  lemma JustifiedNow(pid: int, start: string, k: Kernel, t: seq<RaceEvent>, q: Race)
    requires RaceRun(pid, start, Begin(k), t) == Some(q)
    ensures pid !in q.k.live ==> Once(pid, start, k, t, Absent(pid))
    ensures pid in q.k.live && q.k.live[pid].start != start ==> Once(pid, start, k, t, Other(pid, start))
    ensures PlannedAlive(q.k, pid, start) ==> Once(pid, start, k, t, Alive(pid, start))
  {
    if pid !in q.k.live { OnceNow(pid, start, k, t, Absent(pid)); }
    if pid in q.k.live && q.k.live[pid].start != start { OnceNow(pid, start, k, t, Other(pid, start)); }
    if PlannedAlive(q.k, pid, start) { OnceNow(pid, start, k, t, Alive(pid, start)); }
  }

  lemma JustifiedStep(pid: int, start: string, k: Kernel, t: seq<RaceEvent>, r: Race, ev: RaceEvent, q: Race)
    requires RaceInv(pid, start, r) && RaceInv(pid, start, q) && Justified(pid, start, k, t, r)
    requires RaceRun(pid, start, Begin(k), t + [ev]) == Some(q) && RaceStep(pid, start, r, ev) == Some(q)
    ensures Justified(pid, start, k, t + [ev], q)
  {
    JustifiedGrows(pid, start, k, t, ev);
    JustifiedNow(pid, start, k, t + [ev], q);
  }

  /** The whole call is as good as atomic, whatever happens between its steps: each
      answer was true at some moment of the call. That of a delivery was true when
      the start time was compared, even if the fallback then hit a successor. */
  lemma {:induction false} AnswersAreJustified(pid: int, start: string, k: Kernel, t: seq<RaceEvent>)
    requires KernelOk(k) && RaceRun(pid, start, Begin(k), t).Some?
    ensures Justified(pid, start, k, t, RaceRun(pid, start, Begin(k), t).value)
  {
    if t != [] {
      var u, ev := t[..|t| - 1], t[|t| - 1];
      AnswersAreJustified(pid, start, k, u);
      RaceRunKeeps(pid, start, Begin(k), u);
      RaceRunKeeps(pid, start, Begin(k), t);
      assert u + [ev] == t;
      JustifiedStep(pid, start, k, u, RaceRun(pid, start, Begin(k), u).value, ev,
        RaceRun(pid, start, Begin(k), t).value);
    }
  }
}
