/** The values shared by the observation, plan and apply layers. Error texts are
    opaque strings; whether a process name belongs to Docker's own plumbing is a
    parameter of the system (`infra`). */
module Domain {

  datatype Option<+T> = None | Some(value: T)

  datatype OS = Linux | Darwin | Windows | OtherOS

  datatype Protocol = Tcp | Udp | UnknownProtocol(text: string)

  datatype Scope = ListenerScope | BoundScope | UnknownScope(text: string)

  function ScopeFor(p: Protocol): Scope {
    if p == Udp then BoundScope else ListenerScope
  }

  /** What the host is: its OS, killport's own PID, and the Docker name test. */
  datatype Sys = Sys(os: OS, self: int, infra: string -> bool)

  const MAX_PORT: int := 65535
  const MAX_PID: int := 0x7FFF_FFFF

  predicate ValidSignalPid(pid: int) {
    0 < pid <= MAX_PID
  }

  /** The actions in flight at any one time. */
  const MAX_CONCURRENT: nat := 4

  /** Why a PID must never be signalled. */
  datatype Protection = NotVisible | LowPid | Itself | WindowsKernel

  function ProtectedBy(sys: Sys, pid: int): Option<Protection> {
    if pid == 0 then Some(NotVisible)
    else if pid <= 1 then Some(LowPid)
    else if pid == sys.self then Some(Itself)
    else if sys.os == Windows && pid == 4 then Some(WindowsKernel)
    else None
  }

  datatype Strength = UnsetStrength | NoStrength | StartTime | Pidfd | Handle | UnknownStrength(text: string)

  datatype LookupError = NotFound | Denied(text: string) | Unsupported(text: string) | OtherError(text: string)

  /** The answer of one ProcessIdentity call. */
  datatype Lookup = Lookup(start: string, strength: Strength, err: Option<LookupError>)

  datatype Ident = IdentUnset | IdentOk | IdentGone | IdentDenied | IdentNone

  datatype OwnerObs = OwnerObs(
    pid: int, name: string, start: string, strength: Strength, ident: Ident, err: Option<LookupError>)

  datatype Listener = Listener(port: int, pid: int, process: string, addr: string)

  datatype Container = Container(id: string, name: string, ports: seq<int>, fullId: bool)

  const FULL_ID: nat := 64

  predicate IsFullContainerId(id: string) {
    |id| == FULL_ID && forall i | 0 <= i < |id| :: '0' <= id[i] <= '9' || 'a' <= id[i] <= 'f'
  }

  datatype Visibility = Complete | PermissionLimited | NoneVisible | ProviderUnavailable

  datatype Snapshot = Snapshot(
    os: OS, protocol: Protocol,
    tableOK: bool, tableHas: set<int>,
    owners: seq<Listener>, ownerErr: Option<string>, namesUnavailable: bool,
    dockerAvail: bool, dockerErr: Option<string>, containers: seq<Container>, dockerIds: set<string>,
    idents: map<int, OwnerObs>)

  datatype EndpointObs = EndpointObs(
    protocol: Protocol, port: int, visibility: Visibility,
    occupied: bool, tableOccupied: bool, unattributed: bool, hidden: bool,
    owners: seq<OwnerObs>, containers: seq<Container>)
}
