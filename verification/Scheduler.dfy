/** internal/cli/apply.go: applyPlan and its action goroutines as a step system.

    A run is a sequence of events. Everything the outside world decides - what an
    observation shows, what an identity lookup, SignalIfSame or docker answers,
    when the context is cancelled and which goroutine moves next - is part of the
    event, so a statement about all event sequences covers every schedule. */
module Scheduler {
  import opened Domain
  import opened Plan
  import opened Outcome
  import Observe

  /** What SignalIfSame answers. */
  datatype SignalAnswer = Delivered | Changed | NoProcess | AlreadyDone | NotPermitted | SignalError

  /** What docker stop answers; a failure may be a deadline, may say "no such
      container" and may look like a permission error, in any combination. A docker
      that was never started, as under a context that is done, says nothing. */
  datatype StopAnswer = StopOk | StopErr(started: bool, deadline: bool, noSuch: bool, permission: bool)

  predicate Sayable(a: StopAnswer) {
    a.StopErr? && a.noSuch ==> a.started
  }

  /** The lookup after a stop that timed out. */
  datatype Again = Again(avail: bool, failed: bool, listed: bool)

  /** Where one resource's action stands. */
  datatype Phase =
    | Queued                                  // not handed to a goroutine yet
    | Skipped                                 // the dispatcher saw the cancellation
    | Started                                 // goroutine running, context not checked
    | Collecting                              // first check passed
    | Collected(pre: Snapshot)                // observed, second check still to come
    | Judging(pre: Snapshot)                  // both checks passed
    | Signalling(pre: Snapshot, id: Lookup)   // SignalIfSame is the next call
    | StopReady(pre: Snapshot)                // docker stop is the next call
    | Stopping                                // docker stop runs
    | Rechecking                              // it timed out; docker is asked again
    | Returned(kind: ResultKind, attempted: bool)
    | Stored(kind: ResultKind, attempted: bool)
    | Released(kind: ResultKind, attempted: bool)
    | Exited(kind: ResultKind, attempted: bool)

  datatype Dispatcher = AtAcquire(i: nat) | AtCheck(i: nat) | AtSpawn(i: nat) | Finished

  datatype Apply = Apply(
    doc: PlanDoc, cancelled: bool, pc: Dispatcher,
    slots: nat,                               // tokens in the semaphore channel
    running: nat,                             // the wait group's counter
    phases: seq<Phase>,
    results: seq<Option<ApplyResource>>, attempted: seq<bool>, skipped: bool)

  datatype Event =
    | Cancel
    | Acquire(i: nat) | Admit(i: nat) | Skip(i: nat) | Spawn(i: nat) | Finish    // dispatcher
    | Enter(i: nat) | Collect(i: nat, pre: Snapshot) | Resume(i: nat)
    | Judge(i: nat, id: Lookup)
    | SignalCall(i: nat, answer: SignalAnswer)
    | StopCall(i: nat) | StopDone(i: nat, stop: StopAnswer) | StopAgain(i: nat, again: Again)
    | PanicEarly(i: nat) | PanicStopping(i: nat)
    | Store(i: nat) | Release(i: nat) | Exit(i: nat)

  function Init(doc: PlanDoc): Apply {
    var n := |doc.resources|;
    Apply(doc, false, AtAcquire(0), 0, 0, seq(n, _ => Queued), seq(n, _ => None), seq(n, _ => false), false)
  }

  // ---- the decisions of one action -------------------------------------------------

  /** The planned ports of a process, seen without any doubt to be held by others
      or by nobody: both native sources were read, no planned port has an
      unattributed socket, and no row on them shows the PID. */
  ghost predicate ProvenClosed(sys: Sys, pre: Snapshot, r: PlanResource) {
    forall p | p in r.ports :: ClosedOn(sys, pre, p, r.pid)
  }

  ghost predicate ClosedOn(sys: Sys, pre: Snapshot, port: int, pid: int) {
    && pre.tableOK && pre.ownerErr.None?
    && !Observe.Endpoint(sys, pre, port).unattributed
    && forall o | o in Observe.Endpoint(sys, pre, port).owners :: o.pid != pid
  }

  /** noLongerHolds: proven closed, and the planned incarnation is still alive. */
  ghost predicate NoLongerHolds(sys: Sys, pre: Snapshot, r: PlanResource, id: Lookup) {
    ProvenClosed(sys, pre, r) && id.err.None? && id.start == r.start
  }

  predicate Publishing(pre: Snapshot, r: PlanResource) {
    exists c :: c in pre.containers && c.id == r.containerId && exists p :: p in r.ports && p in c.ports
  }

  predicate StopAllowed(pre: Snapshot, r: PlanResource) {
    pre.dockerErr.None? && pre.dockerAvail && r.containerId in pre.dockerIds && Publishing(pre, r)
  }

  /** From the observation to the next call, or to a result without any call. */
  ghost function Decide(sys: Sys, pre: Snapshot, r: PlanResource, id: Lookup): Phase {
    if r.provider == DockerProvider then
      if StopAllowed(pre, r) then StopReady(pre) else Returned(NotAttempted, false)
    else if r.pid == sys.self then Returned(ActionFailed, false)
    else if NoLongerHolds(sys, pre, r, id) then Returned(NotAttempted, false)
    else Signalling(pre, id)
  }

  function AfterSignal(a: SignalAnswer): Phase {
    match a
    case Delivered => Returned(SignalSent, true)
    case Changed => Returned(IdentityChanged, false)
    case NoProcess => Returned(NotAttempted, false)
    case AlreadyDone => Returned(NotAttempted, false)
    case NotPermitted => Returned(PermissionDenied, false)
    case SignalError => Returned(ActionFailed, false)
  }

  function AfterStop(a: StopAnswer, cancelled: bool): Phase {
    match a
    case StopOk => Returned(Stopped, true)
    case StopErr(_, deadline, noSuch, permission) =>
      if deadline || cancelled then Rechecking
      else if noSuch then Returned(NotAttempted, false)
      else if permission then Returned(PermissionDenied, true)
      else Returned(ActionFailed, true)
  }

  function AfterAgain(a: Again): Phase {
    if !a.failed && a.avail && !a.listed then Returned(Stopped, true) else Returned(TimeoutUnknown, true)
  }

  // ---- steps -----------------------------------------------------------------------------

  function Move(a: Apply, i: nat, p: Phase): Apply
    requires i < |a.phases|
  {
    a.(phases := a.phases[i := p])
  }

  ghost function DispatcherStep(a: Apply, ev: Event): Option<Apply> {
    var n := |a.doc.resources|;
    match ev
    case Acquire(i) =>
      if a.pc == AtAcquire(i) && i < n && a.slots < MAX_CONCURRENT then
        Some(a.(slots := a.slots + 1, pc := AtCheck(i)))
      else None
    case Admit(i) =>
      if a.pc == AtCheck(i) && !a.cancelled then Some(a.(pc := AtSpawn(i))) else None
    case Skip(i) =>
      if a.pc == AtCheck(i) && a.cancelled && a.slots > 0 && i < |a.phases| && i < |a.results| && i < n then
        Some(Move(a, i, Skipped).(slots := a.slots - 1, skipped := true, pc := AtAcquire(i + 1),
          results := a.results[i := Some(NewResult(a.doc.resources[i], NotAttempted))]))
      else None
    case Spawn(i) =>
      if a.pc == AtSpawn(i) && i < |a.phases| then
        Some(Move(a, i, Started).(running := a.running + 1, pc := AtAcquire(i + 1)))
      else None
    case Finish =>
      if a.pc == AtAcquire(n) && a.running == 0 then Some(a.(pc := Finished)) else None
    case _ => None
  }

  /** The phase a goroutine is in after its own event, None when it cannot take it. */
  ghost function PhaseStep(sys: Sys, r: PlanResource, cancelled: bool, p: Phase, ev: Event): Option<Phase> {
    match ev
    case Enter(_) =>
      if p.Started? then Some(if cancelled then Returned(NotAttempted, false) else Collecting) else None
    case Collect(_, pre) => if p.Collecting? then Some(Collected(pre)) else None
    case Resume(_) =>
      if p.Collected? then Some(if cancelled then Returned(NotAttempted, false) else Judging(p.pre)) else None
    case Judge(_, id) => if p.Judging? then Some(Decide(sys, p.pre, r, id)) else None
    case SignalCall(_, answer) => if p.Signalling? then Some(AfterSignal(answer)) else None
    case StopCall(_) => if p.StopReady? then Some(Stopping) else None
    case StopDone(_, answer) => if p.Stopping? && Sayable(answer) then Some(AfterStop(answer, cancelled)) else None
    case StopAgain(_, again) => if p.Rechecking? then Some(AfterAgain(again)) else None
    case PanicEarly(_) =>
      if p.Started? || p.Collecting? || p.Collected? || p.Judging? || p.Signalling? || p.StopReady?
      then Some(Returned(ActionFailed, true)) else None
    case PanicStopping(_) =>
      if p.Stopping? || p.Rechecking? then Some(Returned(ActionFailed, true)) else None
    case Store(_) => if p.Returned? then Some(Stored(p.kind, p.attempted)) else None
    case Release(_) => if p.Stored? then Some(Released(p.kind, p.attempted)) else None
    case Exit(_) => if p.Released? then Some(Exited(p.kind, p.attempted)) else None
    case _ => None
  }

  predicate IsWorker(ev: Event) {
    !ev.Cancel? && !ev.Acquire? && !ev.Admit? && !ev.Skip? && !ev.Spawn? && !ev.Finish?
  }

  /** What a goroutine's event does besides moving its phase. */
  function Effect(a: Apply, i: nat, ev: Event): Option<Apply>
    requires i < |a.phases| && i < |a.doc.resources|
  {
    match ev
    case Store(_) =>
      if i < |a.results| && i < |a.attempted| && a.phases[i].Returned? then
        Some(a.(results := a.results[i := Some(NewResult(a.doc.resources[i], a.phases[i].kind))],
                attempted := a.attempted[i := a.phases[i].attempted]))
      else None
    case Release(_) => if a.slots > 0 then Some(a.(slots := a.slots - 1)) else None
    case Exit(_) => if a.running > 0 then Some(a.(running := a.running - 1)) else None
    case _ => Some(a)
  }

  ghost function Step(sys: Sys, a: Apply, ev: Event): Option<Apply> {
    if ev.Cancel? then Some(a.(cancelled := true))
    else if !IsWorker(ev) then DispatcherStep(a, ev)
    else if ev.i < |a.phases| && ev.i < |a.doc.resources| then
      match (PhaseStep(sys, a.doc.resources[ev.i], a.cancelled, a.phases[ev.i], ev), Effect(a, ev.i, ev)) {
        case (Some(p), Some(b)) => Some(Move(b, ev.i, p))
        case _ => None
      }
    else None
  }

  /** The state after a sequence of events, None when some event could not happen. */
  ghost function Run(sys: Sys, a: Apply, t: seq<Event>): Option<Apply> {
    if t == [] then Some(a) else
      match Run(sys, a, t[..|t| - 1]) {
        case None => None
        case Some(b) => Step(sys, b, t[|t| - 1])
      }
  }
}
