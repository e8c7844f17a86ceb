/** internal/cli/procid_linux.go: which of its two paths one signal takes, and what
    the call answers when nobody interferes. */
module SignalPaths {
  import opened Domain
  import opened Scheduler
  import opened SignalRace

  // ---- the path ---------------------------------------------------------------------

  /** No pidfd could be opened, or signalling through it was refused. */
  predicate Blocks(ev: RaceEvent) {
    ev == Open(true) || ev == Send(Refused)
  }

  predicate Blocked(t: seq<RaceEvent>) {
    exists i :: 0 <= i < |t| && Blocks(t[i])
  }

  /** The call has gone over to naming its target by PID. */
  predicate ByPid(r: Race) {
    r.pc.AtReread? || r.pc.AtKill? || exists h :: h in r.hits && !h.viaPidfd
  }

  lemma BlockedSnoc(t: seq<RaceEvent>)
    requires t != []
    ensures Blocked(t) <==> Blocked(t[..|t| - 1]) || Blocks(t[|t| - 1])
  {
    var u := t[..|t| - 1];
    assert forall i | 0 <= i < |u| :: u[i] == t[i];
  }

  /** Whatever happens in between: as long as the pidfd can be opened and used, the
      call never goes by PID. */
  lemma {:induction false} ByPidOnlyWhenBlocked(pid: int, start: string, k: Kernel, t: seq<RaceEvent>)
    requires RaceRun(pid, start, Begin(k), t).Some? && ByPid(RaceRun(pid, start, Begin(k), t).value)
    ensures Blocked(t)
  {
    if t != [] {
      var q := RaceRun(pid, start, Begin(k), t[..|t| - 1]).value;
      BlockedSnoc(t);
      if ByPid(q) { ByPidOnlyWhenBlocked(pid, start, k, t[..|t| - 1]); }
    }
  }

  /** Where the pidfd can be opened and used, every process hit carries the planned
      start token, however often the PID is given up and taken again. */
  lemma UnblockedReachesOnlyThePlanned(pid: int, start: string, k: Kernel, t: seq<RaceEvent>, h: Hit)
    requires KernelOk(k) && RaceRun(pid, start, Begin(k), t).Some? && !Blocked(t)
    requires h in RaceRun(pid, start, Begin(k), t).value.hits
    ensures h.viaPidfd && h.proc.start == start
  {
    PidfdReachesOnlyThePlanned(pid, start, k, t);
    if !h.viaPidfd { ByPidOnlyWhenBlocked(pid, start, k, t); }
  }

  // ---- the answer -------------------------------------------------------------------

  /** The rest of the system leaves the PID alone, and no system call fails; the
      pidfd may be missing all the same. */
  predicate Undisturbed(pid: int, ev: RaceEvent) {
    match ev
    case ExitOf(p) => p != pid
    case SpawnOf(p, _) => p != pid
    case Read(f) => f == NoFault
    case Send(f) => f != Broken
    case KillCall(f) => f == NoFault
    case _ => true
  }

  /** What SignalIfSame promises to answer. */
  function Promised(k: Kernel, pid: int, start: string): SignalAnswer {
    if !ValidSignalPid(pid) then SignalError
    else if PlannedAlive(k, pid, start) then Delivered
    else if pid in k.live then Changed
    else NoProcess
  }

  ghost predicate OnCourse(k: Kernel, pid: int, start: string, r: Race) {
    && (pid in r.k.live <==> pid in k.live) && (pid in k.live ==> r.k.live[pid] == k.live[pid])
    && match r.pc
       case AtValidate => true
       case AtOpen => ValidSignalPid(pid)
       case AtRead(fd) => ValidSignalPid(pid) && pid in k.live && fd == k.live[pid]
       case AtSend(fd) => ValidSignalPid(pid) && PlannedAlive(k, pid, start) && fd == k.live[pid]
       case AtReread => ValidSignalPid(pid)
       case AtKill => ValidSignalPid(pid) && PlannedAlive(k, pid, start)
       case Done(answer) => answer == Promised(k, pid, start)
  }

  lemma OnCourseStep(k: Kernel, pid: int, start: string, r: Race, ev: RaceEvent, q: Race)
    requires OnCourse(k, pid, start, r) && Undisturbed(pid, ev) && RaceStep(pid, start, r, ev) == Some(q)
    ensures OnCourse(k, pid, start, q)
  {
  }

  lemma {:induction false} StaysOnCourse(k: Kernel, pid: int, start: string, t: seq<RaceEvent>)
    requires RaceRun(pid, start, Begin(k), t).Some? && forall i | 0 <= i < |t| :: Undisturbed(pid, t[i])
    ensures OnCourse(k, pid, start, RaceRun(pid, start, Begin(k), t).value)
  {
    if t != [] {
      var u := t[..|t| - 1];
      assert forall i | 0 <= i < |u| :: u[i] == t[i];
      StaysOnCourse(k, pid, start, u);
      OnCourseStep(k, pid, start, RaceRun(pid, start, Begin(k), u).value, t[|t| - 1],
        RaceRun(pid, start, Begin(k), t).value);
    }
  }

  /** Left alone, the call says by either path exactly how things are: delivered if
      and only if the planned process runs, changed if another has its PID, gone if
      nobody has it, and an error for a PID that is none. */
  lemma UndisturbedAnswer(k: Kernel, pid: int, start: string, t: seq<RaceEvent>, answer: SignalAnswer)
    requires RaceRun(pid, start, Begin(k), t).Some? && forall i | 0 <= i < |t| :: Undisturbed(pid, t[i])
    requires RaceRun(pid, start, Begin(k), t).value.pc == Done(answer)
    ensures answer == Delivered <==> ValidSignalPid(pid) && PlannedAlive(k, pid, start)
    ensures answer == Changed <==> ValidSignalPid(pid) && pid in k.live && k.live[pid].start != start
    ensures answer == NoProcess <==> ValidSignalPid(pid) && pid !in k.live
    ensures answer == SignalError <==> !ValidSignalPid(pid)
  {
    StaysOnCourse(k, pid, start, t);
  }

  /** A system call was not permitted, or failed otherwise. */
  predicate Denies(ev: RaceEvent) {
    ev == Read(Refused) || ev == KillCall(Refused)
  }

  predicate Breaks(pid: int, ev: RaceEvent) {
    ev in {Read(Broken), Send(Broken), KillCall(Broken)} || (ev == Validate && !ValidSignalPid(pid))
  }

  predicate DeniedIn(t: seq<RaceEvent>) {
    exists i :: 0 <= i < |t| && Denies(t[i])
  }

  predicate BrokenIn(pid: int, t: seq<RaceEvent>) {
    exists i :: 0 <= i < |t| && Breaks(pid, t[i])
  }

  lemma FaultsSnoc(pid: int, t: seq<RaceEvent>)
    requires t != []
    ensures DeniedIn(t) <==> DeniedIn(t[..|t| - 1]) || Denies(t[|t| - 1])
    ensures BrokenIn(pid, t) <==> BrokenIn(pid, t[..|t| - 1]) || Breaks(pid, t[|t| - 1])
  {
    var u := t[..|t| - 1];
    assert forall i | 0 <= i < |u| :: u[i] == t[i];
  }

  /** Over every interleaving: "not permitted" and "error" are answered exactly when a
      system call of the call said so, or the PID is none; a pidfd that cannot be
      opened or used is neither. */
  lemma {:induction false} ErrorsAreFaults(pid: int, start: string, k: Kernel, t: seq<RaceEvent>)
    requires RaceRun(pid, start, Begin(k), t).Some?
    ensures RaceRun(pid, start, Begin(k), t).value.pc == Done(NotPermitted) <==> DeniedIn(t)
    ensures RaceRun(pid, start, Begin(k), t).value.pc == Done(SignalError) <==> BrokenIn(pid, t)
    ensures RaceRun(pid, start, Begin(k), t).value.pc != Done(AlreadyDone)
  {
    if t != [] {
      ErrorsAreFaults(pid, start, k, t[..|t| - 1]);
      FaultsSnoc(pid, t);
    }
  }

  /** The call's next step, by the pidfd and by the PID. */
  function NextStep(pc: Pc, blocked: bool, f: Fault): RaceEvent {
    match pc
    case AtValidate => Validate
    case AtOpen => Open(blocked)
    case AtRead(_) => Read(f)
    case AtSend(_) => Send(f)
    case AtReread => Read(f)
    case AtKill => KillCall(f)
    case Done(_) => Validate
  }

  function StepsLeft(pc: Pc): nat {
    match pc
    case AtValidate => 6 case AtOpen => 5 case AtRead(_) => 4 case AtSend(_) => 3
    case AtReread => 2 case AtKill => 1 case Done(_) => 0
  }

  /** Until it has answered the call can take its next step, whatever the system
      call says, and each of at most six brings it nearer to its end; nobody else's
      step does. */
  lemma CallEnds(pid: int, start: string, r: Race, ev: RaceEvent)
    ensures !r.pc.Done? && (exists b, f :: ev == NextStep(r.pc, b, f)) ==>
      RaceStep(pid, start, r, ev).Some? && StepsLeft(RaceStep(pid, start, r, ev).value.pc) < StepsLeft(r.pc) <= 6
    ensures !FromOutside(ev) && RaceStep(pid, start, r, ev).Some? ==>
      !r.pc.Done? && exists b, f :: ev == NextStep(r.pc, b, f)
    ensures FromOutside(ev) && RaceStep(pid, start, r, ev).Some? ==> RaceStep(pid, start, r, ev).value.pc == r.pc
  {
    if !FromOutside(ev) && RaceStep(pid, start, r, ev).Some? {
      var b := ev.Open? && ev.blocked;
      var f := if ev.Read? || ev.Send? || ev.KillCall? then ev.fault else NoFault;
      assert ev == NextStep(r.pc, b, f);
    }
  }
}
