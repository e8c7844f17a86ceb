/** internal/cli/kill.go: the rows of the classic kill and the actions they share,
    and which of them a listing calls for. */
module KillRows {
  import opened Domain
  import opened Sorting
  import Listeners

  datatype ContainerRef = ContainerRef(id: string, name: string)

  datatype DockerState = DockerState(available: bool, warned: bool, owners: map<int, seq<ContainerRef>>)

  datatype Listing = Listing(listeners: seq<Listener>, namesUnavailable: bool)

  /** One owner of one port: a PID (0 when it is not visible) or a container. */
  datatype OwnerKey = OwnerKey(port: int, pid: int, cid: string)

  datatype Target = Process(pid: int) | Ctr(cid: string)

  /** What captureIdentity leaves on an act. */
  datatype Capture = Started(start: string) | Gone | NoIdentity | Unverified

  datatype RowStatus = RowFree | RowPlanned | RowKilled | RowStopped | RowFailed

  datatype RowReason =
    | HeldByDocker(dockerFailed: bool, dockerMissing: bool) | Protected(why: Protection)
    | Nameless | Unverifiable
    | ActionFailed(changed: bool) | Unconfirmed | StillHeld | StillThere | NowHeld

  function Capturing(id: Lookup): Capture {
    if id.err.None? && id.strength != NoStrength && id.start != "" then Started(id.start)
    else if id.err == Some(NotFound) then Gone
    else if id.strength == NoStrength && (id.err.None? || id.err.value.Unsupported?) then NoIdentity
    else Unverified
  }

  /** A start token was read, in so many words. */
  predicate ReadAs(id: Lookup, start: string) {
    id.err.None? && id.strength != NoStrength && start != "" && id.start == start
  }

  /** The platform has no process identities, and said so. */
  predicate WithoutIdentities(id: Lookup) {
    id.strength == NoStrength && (id.err.None? || id.err.value.Unsupported?)
  }

  /** What is captured says which answer the lookup gave. */
  lemma CapturingMeans(id: Lookup)
    ensures forall st :: Capturing(id) == Started(st) <==> ReadAs(id, st)
    ensures Capturing(id) == Gone <==> id.err == Some(NotFound)
    ensures Capturing(id) == NoIdentity <==> WithoutIdentities(id)
    ensures Capturing(id) == Unverified <==>
      id.err != Some(NotFound) && !WithoutIdentities(id) && !ReadAs(id, id.start)
  {
  }

  class Act {
    const target: Target
    const name: string
    const captured: Capture      // of a process; a container has nothing captured
    var err: Option<RowReason>

    constructor Kill(pid: int, name: string, id: Lookup)
      ensures target == Process(pid) && this.name == name && captured == Capturing(id) && err.None?
    {
      target, this.name, captured, err := Process(pid), name, Capturing(id), None;
    }

    constructor Stop(c: ContainerRef)
      ensures target == Ctr(c.id) && name == c.name && captured == Unverified && err.None?
    {
      target, name, captured, err := Ctr(c.id), c.name, Unverified, None;
    }
  }

  /** The rows and targets planKill decides on, before any object exists. */
  datatype RowPlan = RowPlan(
    port: int, owner: Option<OwnerKey>, target: Option<Target>, name: string,
    status: RowStatus, reason: Option<RowReason>)

  class Row {
    const port: int
    const owner: Option<OwnerKey>      // None only for a free port
    const name: string
    const act: Act?
    var status: RowStatus
    var killed: bool
    var reason: Option<RowReason>

    constructor (port: int, owner: Option<OwnerKey>, name: string, act: Act?, status: RowStatus,
                 reason: Option<RowReason>)
      ensures this.port == port && this.owner == owner && this.name == name && this.act == act
      ensures this.status == status && !killed && this.reason == reason
    {
      this.port, this.owner, this.name, this.act := port, owner, name, act;
      this.status, killed, this.reason := status, false, reason;
    }

    method Fail(why: RowReason)
      modifies this
      ensures status == RowFailed && !killed && reason == Some(why)
    {
      status, killed, reason := RowFailed, false, Some(why);
    }

    predicate Shows(p: RowPlan)
      reads this
    {
      && port == p.port && owner == p.owner && name == p.name && status == p.status && !killed && reason == p.reason
      && (act == null <==> p.target.None?) && (act != null ==> p.target == Some(act.target))
    }
  }

  // ---- what is planned ------------------------------------------------------------

  function ProtectedReason(sys: Sys, pid: int): Option<RowReason> {
    var why := ProtectedBy(sys, pid);
    if why.Some? then Some(Protected(why.value)) else None
  }

  function RefusedFor(sys: Sys, nameless: bool, dk: DockerState, l: Listener): Option<RowReason> {
    var reason := if sys.infra(l.process) then Some(HeldByDocker(dk.warned, !dk.warned && !dk.available))
                  else ProtectedReason(sys, l.pid);
    if reason.None? && nameless && l.process == "" then Some(Nameless) else reason
  }

  function ContainersAt(dk: DockerState, port: int): seq<ContainerRef> {
    if port in dk.owners then dk.owners[port] else []
  }

  function FreeRow(port: int): RowPlan {
    RowPlan(port, None, None, "", RowFree, None)
  }

  function ContainerRow(port: int, c: ContainerRef): RowPlan {
    RowPlan(port, Some(OwnerKey(port, 0, c.id)), Some(Ctr(c.id)), c.name, RowPlanned, None)
  }

  function RefusedRow(l: Listener, reason: RowReason): RowPlan {
    RowPlan(l.port, Some(OwnerKey(l.port, l.pid, "")), None, l.process, RowFailed, Some(reason))
  }

  function KillRow(l: Listener): RowPlan {
    RowPlan(l.port, Some(OwnerKey(l.port, l.pid, "")), Some(Process(l.pid)), l.process, RowPlanned, None)
  }

  /** The row of one listener; none when a listed container explains it. */
  function ListenerRow(sys: Sys, nameless: bool, dk: DockerState, lookup: int -> Lookup, l: Listener): Option<RowPlan> {
    if sys.infra(l.process) && ContainersAt(dk, l.port) != [] then None
    else
      var refused := RefusedFor(sys, nameless, dk, l);
      if refused.Some? then Some(RefusedRow(l, refused.value))
      else if Capturing(lookup(l.pid)) == Unverified then Some(RefusedRow(l, Unverifiable))
      else Some(KillRow(l))
  }

  function ContainerRows(port: int, cs: seq<ContainerRef>, n: nat): seq<RowPlan>
    requires n <= |cs|
  {
    if n == 0 then [] else ContainerRows(port, cs, n - 1) + [ContainerRow(port, cs[n - 1])]
  }

  function Present(p: Option<RowPlan>): seq<RowPlan> {
    if p.Some? then [p.value] else []
  }

  function ListenerRows(rule: Listener -> Option<RowPlan>, ls: seq<Listener>, n: nat): seq<RowPlan>
    requires n <= |ls|
  {
    if n == 0 then [] else
      ListenerRows(rule, ls, n - 1) + Present(rule(ls[n - 1]))
  }

  function PortRows(rule: Listener -> Option<RowPlan>, dk: DockerState, ls: seq<Listener>, port: int): seq<RowPlan> {
    var cs, on := ContainersAt(dk, port), Listeners.OnPort(ls, |ls|, port);
    if cs == [] && on == [] then [FreeRow(port)]
    else ContainerRows(port, cs, |cs|) + ListenerRows(rule, on, |on|)
  }

  function AllRows(rule: Listener -> Option<RowPlan>, dk: DockerState, ls: seq<Listener>, ports: seq<int>,
                   n: nat): seq<RowPlan>
    requires n <= |ports|
  {
    if n == 0 then [] else AllRows(rule, dk, ls, ports, n - 1) + PortRows(rule, dk, ls, ports[n - 1])
  }

  function Ruling(sys: Sys, nameless: bool, dk: DockerState, lookup: int -> Lookup): Listener -> Option<RowPlan> {
    (l: Listener) => ListenerRow(sys, nameless, dk, lookup, l)
  }

  function PlannedRows(sys: Sys, lst: Listing, dk: DockerState, lookup: int -> Lookup, ports: seq<int>): seq<RowPlan> {
    AllRows(Ruling(sys, lst.namesUnavailable, dk, lookup), dk, lst.listeners, ports, |ports|)
  }

  /** The targets that call for an act: each once, in the order they first come up. */
  function Push(ts: seq<Target>, t: Option<Target>): seq<Target> {
    if t.Some? && t.value !in ts then ts + [t.value] else ts
  }

  function Targets(plan: seq<RowPlan>): seq<Target> {
    if plan == [] then [] else Push(Targets(plan[..|plan| - 1]), plan[|plan| - 1].target)
  }

  lemma TargetsSnoc(plan: seq<RowPlan>, p: RowPlan)
    ensures Targets(plan + [p]) == Push(Targets(plan), p.target)
  {
    assert (plan + [p])[..|plan|] == plan;
  }

  lemma {:induction false} TargetsMeans(plan: seq<RowPlan>)
    ensures NoDuplicates(Targets(plan))
    ensures forall t :: t in Targets(plan) <==> exists p :: p in plan && p.target == Some(t)
  {
    if plan != [] {
      TargetsMeans(plan[..|plan| - 1]);
      assert plan == plan[..|plan| - 1] + [plan[|plan| - 1]];
    }
  }
}
