/** internal/cli/observe.go: collecting one observation and projecting it onto a port. */
module Observe {
  import opened Domain
  import opened Sorting
  import Text

  // ---- what a snapshot says about one port -------------------------------

  /** A map read with Go's zero value for a missing key. */
  function IdentOf(s: Snapshot, pid: int): OwnerObs {
    if pid in s.idents then s.idents[pid] else OwnerObs(0, "", "", UnsetStrength, IdentUnset, None)
  }

  predicate Row(s: Snapshot, l: Listener, port: int) {
    l in s.owners && l.port == port
  }

  /** A visible, still existing native owner of the port. */
  predicate Live(s: Snapshot, l: Listener, port: int) {
    Row(s, l, port) && l.pid > 0 && IdentOf(s, l.pid).ident != IdentGone
  }

  ghost predicate HiddenRow(s: Snapshot, port: int) {
    exists l :: Row(s, l, port) && l.pid <= 0
  }

  ghost function LivePids(s: Snapshot, port: int): set<int> {
    set l | l in s.owners && Live(s, l, port) :: l.pid
  }

  /** The process name of the first row that shows the PID on the port. */
  function FirstName(rows: seq<Listener>, port: int, pid: int): string {
    if rows == [] then ""
    else if rows[0].port == port && rows[0].pid == pid then rows[0].process
    else FirstName(rows[1..], port, pid)
  }

  function OwnerAt(s: Snapshot, port: int, pid: int): OwnerObs {
    var o := IdentOf(s, pid);
    if o.name == "" then o.(name := FirstName(s.owners, port, pid)) else o
  }

  ghost function OwnersOf(s: Snapshot, port: int): seq<OwnerObs> {
    var pids := Ascending(LivePids(s, port));
    seq(|pids|, i requires 0 <= i < |pids| => OwnerAt(s, port, pids[i]))
  }

  function ContainersOf(cs: seq<Container>, port: int): seq<Container> {
    if cs == [] then []
    else (if port in cs[0].ports then [cs[0]] else []) + ContainersOf(cs[1..], port)
  }

  predicate DeniedActionable(sys: Sys, o: OwnerObs, explained: bool) {
    o.ident == IdentDenied && !(explained && sys.infra(o.name))
  }

  function VisibilityOf(s: Snapshot, unattributed: bool, owners: bool, containers: bool): Visibility {
    if s.ownerErr.Some? || s.dockerErr.Some? then ProviderUnavailable
    else if s.namesUnavailable && owners then ProviderUnavailable
    else if unattributed then PermissionLimited
    else if !s.tableOK && !owners && !containers then NoneVisible
    else Complete
  }

  ghost function Endpoint(sys: Sys, s: Snapshot, port: int): EndpointObs {
    var containers := ContainersOf(s.containers, port);
    var owners := OwnersOf(s, port);
    var table := s.tableOK && port in s.tableHas;
    var explained := containers != [];
    var hidden := !explained && (HiddenRow(s, port) || (table && owners == []));
    var unattributed := hidden || exists o :: o in owners && DeniedActionable(sys, o, explained);
    EndpointObs(s.protocol, port, VisibilityOf(s, unattributed, owners != [], containers != []),
      table || owners != [] || containers != [] || HiddenRow(s, port),
      table, unattributed, hidden, owners, containers)
  }

  /** Occupant means any sign of use: a row, a container, or the socket table. */
  ghost predicate NobodyNamed(s: Snapshot, port: int) {
    && (forall l :: !Live(s, l, port))
    && !HiddenRow(s, port)
    && (forall c | c in s.containers :: port !in c.ports)
  }

  lemma {:induction false} ContainersOfMembers(cs: seq<Container>, port: int)
    ensures forall c :: c in ContainersOf(cs, port) <==> c in cs && port in c.ports
  {
    if cs != [] {
      ContainersOfMembers(cs[1..], port);
      assert cs == [cs[0]] + cs[1..];
    }
  }

  lemma OwnersOfMembers(s: Snapshot, port: int)
    ensures forall o :: o in OwnersOf(s, port) <==> exists l :: Live(s, l, port) && o == OwnerAt(s, port, l.pid)
  {
    var pids := Ascending(LivePids(s, port));
    forall o ensures o in OwnersOf(s, port) <==> exists l :: Live(s, l, port) && o == OwnerAt(s, port, l.pid) {
      if o in OwnersOf(s, port) {
        var i :| 0 <= i < |pids| && o == OwnerAt(s, port, pids[i]);
        assert pids[i] in LivePids(s, port);
      }
      if l :| Live(s, l, port) && o == OwnerAt(s, port, l.pid) {
        assert l.pid in LivePids(s, port);
        assert l.pid in pids;
        var i :| 0 <= i < |pids| && pids[i] == l.pid;
        assert OwnersOf(s, port)[i] == o;
      }
    }
  }

  /** The owner is of an attributed row of the port, and as its lookup found it. */
  ghost predicate OwnsAsFound(s: Snapshot, port: int, o: OwnerObs) {
    && o.pid > 0 && o.pid in s.idents && o.ident != IdentGone
    && (exists l :: l in s.owners && l.port == port && l.pid == o.pid)
    && o.(name := s.idents[o.pid].name) == s.idents[o.pid]
    && (s.idents[o.pid].name != "" ==> o.name == s.idents[o.pid].name)
  }

  lemma OwnerWasFound(s: Snapshot, port: int, o: OwnerObs)
    requires Collected(s) && o in OwnersOf(s, port)
    ensures OwnsAsFound(s, port, o)
  {
    OwnersOfMembers(s, port);
    var l :| Live(s, l, port) && o == OwnerAt(s, port, l.pid);
    assert l in s.owners && IdentSound(l.pid, s.idents[l.pid]);
  }

  lemma FoundIsOwner(s: Snapshot, port: int, l: Listener)
    requires Collected(s) && l in s.owners && l.port == port && l.pid > 0
    ensures l.pid in s.idents
    ensures s.idents[l.pid].ident != IdentGone ==> exists o :: o in OwnersOf(s, port) && o.pid == l.pid
  {
    OwnersOfMembers(s, port);
    assert IdentSound(l.pid, s.idents[l.pid]);
    if s.idents[l.pid].ident != IdentGone {
      assert Live(s, l, port);
      assert OwnerAt(s, port, l.pid) in OwnersOf(s, port);
    }
  }

  /** Who owns a port, row by row: the attributed PIDs that had not exited when they were
      looked up, each with the identity that lookup gave. */
  lemma OwnersInFull(s: Snapshot, port: int)
    requires Collected(s)
    ensures forall o | o in OwnersOf(s, port) :: OwnsAsFound(s, port, o)
    ensures forall l | l in s.owners && l.port == port && l.pid > 0 ::
      l.pid in s.idents && (s.idents[l.pid].ident != IdentGone ==> exists o :: o in OwnersOf(s, port) && o.pid == l.pid)
  {
    forall o | o in OwnersOf(s, port) { OwnerWasFound(s, port, o); }
    forall l | l in s.owners && l.port == port && l.pid > 0
      ensures l.pid in s.idents
      ensures s.idents[l.pid].ident != IdentGone ==> exists o :: o in OwnersOf(s, port) && o.pid == l.pid
    {
      FoundIsOwner(s, port, l);
    }
  }

  /** No process is an owner of a port twice, and owners come in PID order. */
  lemma OwnersAreAscending(s: Snapshot, port: int)
    requires Collected(s)
    ensures
      var owners := OwnersOf(s, port);
      && (forall i | 0 <= i < |owners| :: owners[i].pid > 0)
      && (forall i, j | 0 <= i < j < |owners| :: owners[i].pid < owners[j].pid)
  {
    var pids := Ascending(LivePids(s, port));
    forall i | 0 <= i < |pids| ensures OwnersOf(s, port)[i].pid == pids[i] > 0 {
      assert pids[i] in LivePids(s, port);
      var l :| Live(s, l, port) && l.pid == pids[i];
      assert l.pid in s.idents && IdentSound(l.pid, s.idents[l.pid]);
    }
  }

  /** Occupied is exactly "the socket table or some provider names the port". */
  lemma OccupiedMeans(sys: Sys, s: Snapshot, port: int)
    ensures Endpoint(sys, s, port).occupied <==> (s.tableOK && port in s.tableHas) || !NobodyNamed(s, port)
  {
    ContainersOfMembers(s.containers, port);
    OwnersOfMembers(s, port);
    var owners := OwnersOf(s, port);
    var cs := ContainersOf(s.containers, port);
    if cs != [] { assert cs[0] in cs; }
    if owners != [] { assert owners[0] in owners; }
    if l :| Live(s, l, port) { assert OwnerAt(s, port, l.pid) in owners; }
  }

  /** Nobody visible never becomes free: an unoccupied endpoint of complete
      visibility needs a socket table that was read and lacks the port. */
  lemma UnseenIsNotFree(sys: Sys, s: Snapshot, port: int)
    ensures
      var e := Endpoint(sys, s, port);
      e.visibility == Complete && !e.occupied <==>
        s.ownerErr.None? && s.dockerErr.None? && s.tableOK && port !in s.tableHas && NobodyNamed(s, port)
  {
    OccupiedMeans(sys, s, port);
    var e := Endpoint(sys, s, port);
    if e.owners != [] { assert e.owners[0] in e.owners; }
    OwnersOfMembers(s, port);
  }

  // ---- identities ---------------------------------------------------------

  function LookupOwner(id: Lookup, pid: int, name: string): OwnerObs {
    if id.err.None? && id.strength != NoStrength && id.start != "" then
      OwnerObs(pid, name, id.start, id.strength, IdentOk, None)
    else if id.err == Some(NotFound) then
      OwnerObs(pid, name, "", UnsetStrength, IdentGone, id.err)
    else if id.err.Some? && id.err.value.Denied? then
      OwnerObs(pid, name, "", UnsetStrength, IdentDenied, id.err)
    else
      OwnerObs(pid, name, "", NoStrength, IdentNone, id.err)
  }

  /** An identity that was read is kept as it was answered; any other answer leaves no
      start token, and says whether the process is gone, was denied, or has none. */
  lemma LookupOwnerMeans(id: Lookup, pid: int, name: string)
    ensures
      var o := LookupOwner(id, pid, name);
      && o.pid == pid && o.name == name && o.err == id.err
      && (o.ident == IdentOk <==> id.err.None? && id.strength != NoStrength && id.start != "")
      && (o.ident == IdentGone <==> id.err == Some(NotFound))
      && (o.ident == IdentDenied <==> id.err.Some? && id.err.value.Denied?)
      && (o.ident == IdentNone <==>
            if id.err.None? then id.strength == NoStrength || id.start == ""
            else id.err.value.Unsupported? || id.err.value.OtherError?)
      && (if o.ident == IdentOk then o.start == id.start && o.strength == id.strength else o.start == "")
  {
  }

  /** What every identity recorded by a collection looks like. */
  predicate IdentSound(pid: int, o: OwnerObs) {
    && o.pid == pid
    && o.ident != IdentUnset
    && (o.ident == IdentOk <==> o.start != "")
    && (o.ident == IdentOk ==> o.strength != NoStrength)
    && (o.ident == IdentDenied ==> o.err.Some?)
  }

  /** The invariant of a finished collection. */
  ghost predicate Collected(s: Snapshot) {
    && (forall l | l in s.owners && l.pid > 0 :: l.pid in s.idents)
    && (forall pid | pid in s.idents :: IdentSound(pid, s.idents[pid]))
    && (forall c | c in s.containers :: c.fullId == IsFullContainerId(c.id) && c.id in s.dockerIds)
    && (s.ownerErr.Some? ==> s.owners == [])
    && (s.dockerErr.Some? || !s.dockerAvail ==> s.containers == [] && s.dockerIds == {})
    && (!s.tableOK ==> s.tableHas == {})
  }

  // ---- collecting ---------------------------------------------------------

  /** The answer of one external tool: its parsed output, or the failure text. */
  datatype Answer<+T> = Got(value: T) | Failed(text: string)

  datatype PsRow = PsRow(id: string, name: string, ports: seq<int>)

  ghost predicate AnyPid(rows: seq<Listener>) {
    exists l :: l in rows && l.pid > 0
  }

  function Named(rows: seq<Listener>, names: map<int, string>): seq<Listener> {
    seq(|rows|, i requires 0 <= i < |rows| =>
      rows[i].(process := if rows[i].pid in names then names[rows[i].pid] else ""))
  }

  /** The first row that shows the PID gives it its name. */
  ghost predicate NamedByFirstRow(rows: seq<Listener>, pid: int, name: string) {
    exists i :: 0 <= i < |rows| && rows[i].pid == pid && rows[i].process == name &&
      forall j | 0 <= j < i :: rows[j].pid != pid
  }

  /** The identities after the first n rows. */
  ghost predicate IdentsOf(rows: seq<Listener>, n: nat, lookup: int -> Lookup, idents: map<int, OwnerObs>)
    requires n <= |rows|
  {
    && (forall i | 0 <= i < n && rows[i].pid > 0 :: rows[i].pid in idents)
    && (forall pid | pid in idents ::
          && IdentSound(pid, idents[pid]) && idents[pid] == LookupOwner(lookup(pid), pid, idents[pid].name)
          && pid > 0 && NamedByFirstRow(rows, pid, idents[pid].name))
  }

  lemma IdentsNext(rows: seq<Listener>, n: nat, lookup: int -> Lookup, idents: map<int, OwnerObs>)
    requires n < |rows| && IdentsOf(rows, n, lookup, idents)
    ensures
      var l := rows[n];
      if l.pid > 0 && l.pid !in idents
      then IdentsOf(rows, n + 1, lookup, idents[l.pid := LookupOwner(lookup(l.pid), l.pid, l.process)])
      else IdentsOf(rows, n + 1, lookup, idents)
  {
    var l := rows[n];
    if l.pid > 0 && l.pid !in idents {
      assert forall j | 0 <= j < n :: rows[j].pid != l.pid;
      assert NamedByFirstRow(rows, l.pid, l.process);
    }
  }

  class Collector {
    const os: OS
    const protocol: Protocol
    var tableOK: bool
    var tableHas: set<int>
    var owners: seq<Listener>
    var ownerErr: Option<string>
    var namesUnavailable: bool
    var dockerAvail: bool
    var dockerErr: Option<string>
    var containers: seq<Container>
    var dockerIds: set<string>
    var idents: map<int, OwnerObs>

    function Value(): Snapshot
      reads this
    {
      Snapshot(os, protocol, tableOK, tableHas, owners, ownerErr, namesUnavailable,
        dockerAvail, dockerErr, containers, dockerIds, idents)
    }

    constructor (os: OS, protocol: Protocol)
      ensures Value() == Snapshot(os, protocol, false, {}, [], None, false, false, None, [], {}, map[])
    {
      this.os := os;
      this.protocol := protocol;
      tableOK, tableHas := false, {};
      owners, ownerErr, namesUnavailable := [], None, false;
      dockerAvail, dockerErr, containers, dockerIds := false, None, [], {};
      idents := map[];
    }

    method CollectTable(table: Answer<set<int>>)
      modifies this`tableOK, this`tableHas
      ensures tableOK <==> table.Got? || old(tableOK)
      ensures tableHas == if table.Got? then table.value else old(tableHas)
    {
      if table.Got? {
        tableOK := true;
        tableHas := table.value;
      }
    }

    /** lsof first; ss on Linux when lsof is missing or failed. */
    method CollectOwnersUnix(haveLsof: bool, haveSS: bool, lsof: Answer<seq<Listener>>, ss: Answer<seq<Listener>>)
      modifies this`owners, this`ownerErr
      ensures
        var l, s := haveLsof && lsof.Got?, haveSS && os == Linux && ss.Got?;
        && (l ==> owners == lsof.value && ownerErr == old(ownerErr))
        && (!l && s ==> owners == ss.value && ownerErr == old(ownerErr))
        && (!l && !s ==> owners == old(owners) && ownerErr.Some?)
        && (!l && !s && haveLsof ==> ownerErr == Some(lsof.text))
    {
      var useSS := os == Linux && haveSS;
      var answer := Failed("no supported port inspection tool found");
      if haveLsof {
        answer := lsof;
        if lsof.Failed? && useSS && ss.Got? {
          answer := ss;
        }
      } else if useSS {
        answer := ss;
      }
      match answer
      case Failed(text) => ownerErr := Some(text);
      case Got(rows) => owners := rows;
    }

    /** Every netstat row counts for the table and as an owner row. */
    method TakeRows(rows: seq<Listener>) returns (hasPid: bool)
      modifies this`owners, this`tableHas
      ensures owners == rows && tableHas == old(tableHas) + (set l | l in rows :: l.port)
      ensures hasPid <==> exists l :: l in rows && l.pid > 0
    {
      owners := [];
      hasPid := false;
      for n := 0 to |rows|
        invariant owners == rows[..n]
        invariant tableHas == old(tableHas) + (set i | 0 <= i < n :: rows[i].port)
        invariant hasPid <==> exists i :: 0 <= i < n && rows[i].pid > 0
      {
        tableHas := tableHas + {rows[n].port};
        owners := owners + [rows[n]];
        hasPid := hasPid || rows[n].pid > 0;
      }
      assert (set i | 0 <= i < |rows| :: rows[i].port) == set l | l in rows :: l.port;
    }

    method NameRows(names: map<int, string>)
      modifies this`owners
      ensures owners == Named(old(owners), names)
      ensures |owners| == |old(owners)| && forall i | 0 <= i < |owners| ::
        && owners[i].port == old(owners)[i].port && owners[i].pid == old(owners)[i].pid
        && owners[i].process == if owners[i].pid in names then names[owners[i].pid] else ""
    {
      var named: seq<Listener> := [];
      for n := 0 to |owners|
        invariant owners == old(owners) && named == Named(owners[..n], names)
      {
        var name := if owners[n].pid in names then names[owners[n].pid] else "";
        assert owners[..n + 1] == owners[..n] + [owners[n]];
        named := named + [owners[n].(process := name)];
      }
      assert owners[..|owners|] == owners;
      owners := named;
    }

    /** netstat is both table and owner source; tasklist only supplies names, and is
        asked only when some row has a PID. */
    method CollectWindows(netstat: Answer<seq<Listener>>, tasklist: Answer<map<int, string>>)
      modifies this
      ensures unchanged(this`dockerAvail, this`dockerErr, this`containers, this`dockerIds, this`idents)
      ensures netstat.Failed? ==> ownerErr == Some(netstat.text) && owners == old(owners) && tableOK == old(tableOK)
                                  && tableHas == old(tableHas) && namesUnavailable == old(namesUnavailable)
      ensures netstat.Got? ==>
        && tableOK && ownerErr == old(ownerErr)
        && tableHas == old(tableHas) + (set l | l in netstat.value :: l.port)
        && owners == (if tasklist.Got? && AnyPid(netstat.value)
                      then Named(netstat.value, tasklist.value) else netstat.value)
        && (namesUnavailable <==> old(namesUnavailable) || (tasklist.Failed? && AnyPid(netstat.value)))
    {
      if netstat.Failed? {
        ownerErr := Some(netstat.text);
        return;
      }
      tableOK := true;
      var hasPid := TakeRows(netstat.value);
      if !hasPid {
        return;
      }
      if tasklist.Failed? {
        namesUnavailable := true;
        return;
      }
      NameRows(tasklist.value);
    }

    /** Only a local daemon's `docker ps` may name containers. */
    method CollectDocker(haveDocker: bool, localErr: Option<string>, ps: Answer<seq<PsRow>>)
      requires containers == [] && dockerIds == {} && dockerErr.None? && !dockerAvail
      modifies this`dockerAvail, this`dockerErr, this`containers, this`dockerIds
      ensures dockerAvail == haveDocker
      ensures dockerErr.Some? <==> haveDocker && (localErr.Some? || ps.Failed?)
      ensures !haveDocker || dockerErr.Some? ==> containers == [] && dockerIds == {}
      ensures haveDocker && dockerErr.None? ==>
        && dockerIds == (set i | 0 <= i < |ps.value| && ps.value[i].id != "" :: ps.value[i].id)
        && multiset(containers) == multiset(AllListed(ps.value, |ps.value|))
        && (forall c :: c in containers <==> ListedBy(ps.value, c))
        && (forall i, j | 0 <= i < j < |containers| :: !Text.Less(containers[j].id, containers[i].id))
    {
      if !haveDocker {
        return;
      }
      dockerAvail := true;
      if localErr.Some? {
        dockerErr := localErr;
        return;
      }
      if ps.Failed? {
        dockerErr := Some(ps.text);
        return;
      }
      var rows := ps.value;
      var found := [];
      for n := 0 to |rows|
        invariant dockerAvail && dockerErr.None? && containers == []
        invariant dockerIds == set i | 0 <= i < n && rows[i].id != "" :: rows[i].id
        invariant found == AllListed(rows, n)
      {
        if rows[n].id != "" {
          dockerIds := dockerIds + {rows[n].id};
        }
        if Listed(rows[n]) {
          found := found + [FromPs(rows[n])];
        }
      }
      ById(found);
      var sorted := Sort(found, (a: Container, b: Container) => Text.Less(a.id, b.id));
      MultisetMembers(sorted, found);
      ListedMeans(rows);
      containers := sorted;
    }

    /** One identity lookup per attributed PID; the first row names it. */
    method CollectIdentities(lookup: int -> Lookup)
      requires idents == map[]
      modifies this`idents
      ensures forall l | l in owners && l.pid > 0 :: l.pid in idents
      ensures forall pid | pid in idents ::
        IdentSound(pid, idents[pid]) && idents[pid] == LookupOwner(lookup(pid), pid, idents[pid].name)
      ensures forall pid | pid in idents :: pid > 0 && NamedByFirstRow(owners, pid, idents[pid].name)
    {
      for n := 0 to |owners|
        invariant IdentsOf(owners, n, lookup, idents)
      {
        var l := owners[n];
        IdentsNext(owners, n, lookup, idents);
        if l.pid > 0 && l.pid !in idents {
          idents := idents[l.pid := LookupOwner(lookup(l.pid), l.pid, l.process)];
        }
      }
    }
  }

  /** parseDockerPSFull keeps rows with an ID that publish a port of the protocol. */
  predicate Listed(r: PsRow) {
    r.id != "" && r.ports != []
  }

  function FromPs(r: PsRow): Container {
    Container(r.id, r.name, r.ports, IsFullContainerId(r.id))
  }

  /** The containers among the first n rows, in row order. */
  function AllListed(rows: seq<PsRow>, n: nat): seq<Container>
    requires n <= |rows|
  {
    if n == 0 then [] else AllListed(rows, n - 1) + if Listed(rows[n - 1]) then [FromPs(rows[n - 1])] else []
  }

  lemma {:induction false} AllListedMembers(rows: seq<PsRow>, n: nat)
    requires n <= |rows|
    ensures forall c :: c in AllListed(rows, n) <==> exists i :: 0 <= i < n && Listed(rows[i]) && c == FromPs(rows[i])
  {
    if n > 0 { AllListedMembers(rows, n - 1); }
  }

  /** A row with an ID and a port stands for that container. */
  ghost predicate ListedBy(rows: seq<PsRow>, c: Container) {
    exists r :: r in rows && r.id != "" && r.ports != []
      && c == Container(r.id, r.name, r.ports, IsFullContainerId(r.id))
  }

  lemma ListedMeans(rows: seq<PsRow>)
    ensures forall c :: c in AllListed(rows, |rows|) <==> ListedBy(rows, c)
  {
    AllListedMembers(rows, |rows|);
    forall c ensures c in AllListed(rows, |rows|) <==> ListedBy(rows, c) {
      if r :| r in rows && r.id != "" && r.ports != [] && c == FromPs(r) {
        var i :| 0 <= i < |rows| && rows[i] == r;
        assert Listed(rows[i]);
      }
    }
  }

  lemma ById(cs: seq<Container>)
    ensures WeakOrderOn((a: Container, b: Container) => Text.Less(a.id, b.id), cs)
  {
    var less := (a: Container, b: Container) => Text.Less(a.id, b.id);
    forall x, y | x in cs && y in cs && less(x, y) ensures !less(y, x) {
      if less(y, x) { Text.LessTransitive(x.id, y.id, x.id); Text.LessIrreflexive(x.id); }
    }
    forall x, y, z | x in cs && y in cs && z in cs && less(x, z) ensures less(x, y) || less(y, z) {
      if x.id != y.id {
        Text.LessTotal(x.id, y.id);
        if Text.Less(y.id, x.id) { Text.LessTransitive(y.id, x.id, z.id); }
      }
    }
  }

  /** The external answers one collection consumes. */
  datatype Providers = Providers(
    table: Answer<set<int>>, haveLsof: bool, haveSS: bool, lsof: Answer<seq<Listener>>, ss: Answer<seq<Listener>>,
    netstat: Answer<seq<Listener>>, tasklist: Answer<map<int, string>>,
    haveDocker: bool, localErr: Option<string>, ps: Answer<seq<PsRow>>, lookup: int -> Lookup)

  /** Every collection, whatever its providers answered, satisfies Collected. */
  method Collect(os: OS, protocol: Protocol, p: Providers) returns (s: Snapshot)
    ensures Collected(s) && s.os == os && s.protocol == protocol
    ensures forall pid | pid in s.idents :: s.idents[pid] == LookupOwner(p.lookup(pid), pid, s.idents[pid].name)
    ensures forall pid | pid in s.idents :: pid > 0 && NamedByFirstRow(s.owners, pid, s.idents[pid].name)
    ensures os != Windows && p.table.Got? ==> s.tableHas == p.table.value
    ensures os == Windows && p.netstat.Got? ==> s.tableHas == set l | l in p.netstat.value :: l.port
    ensures os != Windows && p.haveLsof && p.lsof.Got? ==> s.owners == p.lsof.value
    ensures os == Linux && !(p.haveLsof && p.lsof.Got?) && p.haveSS && p.ss.Got? ==> s.owners == p.ss.value
    ensures p.haveDocker && s.dockerErr.None? && p.ps.Got? ==> forall c :: c in s.containers <==>
      ListedBy(p.ps.value, c)
    ensures p.haveDocker && s.dockerErr.None? && p.ps.Got? ==>
      multiset(s.containers) == multiset(AllListed(p.ps.value, |p.ps.value|))
    ensures s.dockerErr.None? <==> !(p.haveDocker && (p.localErr.Some? || p.ps.Failed?))
    ensures s.tableOK <==> if os == Windows then p.netstat.Got? else p.table.Got?
    ensures s.ownerErr.None? <==>
      if os == Windows then p.netstat.Got?
      else (p.haveLsof && p.lsof.Got?) || (p.haveSS && os == Linux && p.ss.Got?)
  {
    var c := new Collector(os, protocol);
    if os == Windows {
      c.CollectWindows(p.netstat, p.tasklist);
    } else {
      c.CollectTable(p.table);
      c.CollectOwnersUnix(p.haveLsof, p.haveSS, p.lsof, p.ss);
    }
    c.CollectDocker(p.haveDocker, p.localErr, p.ps);
    if p.haveDocker && p.localErr.None? && p.ps.Got? {
      AllListedMembers(p.ps.value, |p.ps.value|);
      MultisetMembers(c.containers, AllListed(p.ps.value, |p.ps.value|));
    }
    c.CollectIdentities(p.lookup);
    s := c.Value();
  }

  // ---- the projection as the program computes it ---------------------------

  /** The positive PIDs among the first n rows of a port. */
  function SeenPids(rows: seq<Listener>, port: int, n: nat): set<int>
    requires n <= |rows|
  {
    if n == 0 then {}
    else if rows[n - 1].port == port && rows[n - 1].pid > 0 then SeenPids(rows, port, n - 1) + {rows[n - 1].pid}
    else SeenPids(rows, port, n - 1)
  }

  /** The owners gathered from the first n rows, in row order. */
  function Gathered(s: Snapshot, port: int, n: nat): seq<OwnerObs>
    requires n <= |s.owners|
  {
    if n == 0 then [] else
      var l := s.owners[n - 1];
      var o := IdentOf(s, l.pid);
      Gathered(s, port, n - 1) +
      if l.port == port && l.pid > 0 && l.pid !in SeenPids(s.owners, port, n - 1) && o.ident != IdentGone then
        [if o.name == "" then o.(name := l.process) else o]
      else []
  }

  lemma {:induction false} SeenPidsMeans(rows: seq<Listener>, port: int, n: nat)
    requires n <= |rows|
    ensures forall pid :: pid in SeenPids(rows, port, n) <==>
      pid > 0 && exists i :: 0 <= i < n && rows[i].port == port && rows[i].pid == pid
  {
    if n > 0 { SeenPidsMeans(rows, port, n - 1); }
  }

  lemma {:induction false} FirstNameSkips(rows: seq<Listener>, n: nat, port: int, pid: int)
    requires n < |rows| && rows[n].port == port && rows[n].pid == pid
    requires forall i | 0 <= i < n :: !(rows[i].port == port && rows[i].pid == pid)
    ensures FirstName(rows, port, pid) == rows[n].process
  {
    if n > 0 { FirstNameSkips(rows[1..], n - 1, port, pid); }
  }

  /** g holds, once each, the owners of those of the PIDs that are not gone. */
  ghost predicate Gathers(s: Snapshot, port: int, g: seq<OwnerObs>, pids: set<int>) {
    && (forall i, j | 0 <= i < j < |g| :: g[i].pid != g[j].pid)
    && (forall o | o in g :: o.pid in pids && o == OwnerAt(s, port, o.pid) && o.ident != IdentGone)
    && (forall pid | pid in pids && IdentOf(s, pid).ident != IdentGone :: OwnerAt(s, port, pid) in g)
  }

  lemma GathersOneMore(s: Snapshot, port: int, g: seq<OwnerObs>, pids: set<int>, pid: int)
    requires Collected(s) && Gathers(s, port, g, pids) && pid !in pids && pid in s.idents
    requires IdentOf(s, pid).ident != IdentGone
    ensures Gathers(s, port, g + [OwnerAt(s, port, pid)], pids + {pid})
  {
    var o := OwnerAt(s, port, pid);
    assert o.pid == pid && o.ident != IdentGone;
    forall i | 0 <= i < |g| ensures g[i].pid != o.pid { assert g[i] in g; }
  }

  lemma {:induction false} GatheredMeans(s: Snapshot, port: int, n: nat)
    requires Collected(s) && n <= |s.owners|
    ensures Gathers(s, port, Gathered(s, port, n), SeenPids(s.owners, port, n))
  {
    if n > 0 {
      GatheredMeans(s, port, n - 1);
      GatheredNext(s, port, n - 1);
    }
  }

  lemma GatheredNext(s: Snapshot, port: int, n: nat)
    requires Collected(s) && n < |s.owners| && Gathers(s, port, Gathered(s, port, n), SeenPids(s.owners, port, n))
    ensures Gathers(s, port, Gathered(s, port, n + 1), SeenPids(s.owners, port, n + 1))
  {
    var l, before := s.owners[n], Gathered(s, port, n);
    if l.port == port && l.pid > 0 && l.pid !in SeenPids(s.owners, port, n) && IdentOf(s, l.pid).ident != IdentGone {
      SeenPidsMeans(s.owners, port, n);
      FirstNameSkips(s.owners, n, port, l.pid);
      assert l in s.owners;
      GathersOneMore(s, port, before, SeenPids(s.owners, port, n), l.pid);
      assert Gathered(s, port, n + 1) == before + [OwnerAt(s, port, l.pid)];
    } else {
      assert Gathered(s, port, n + 1) == before;
    }
  }

  method GatherOwners(s: Snapshot, port: int) returns (owners: seq<OwnerObs>, hiddenRow: bool)
    requires Collected(s)
    ensures owners == Gathered(s, port, |s.owners|)
    ensures hiddenRow <==> HiddenRow(s, port)
  {
    owners, hiddenRow := [], false;
    var seen := {};
    for n := 0 to |s.owners|
      invariant hiddenRow <==> exists i :: 0 <= i < n && s.owners[i].port == port && s.owners[i].pid <= 0
      invariant seen == SeenPids(s.owners, port, n)
      invariant owners == Gathered(s, port, n)
    {
      var l := s.owners[n];
      if l.port == port {
        if l.pid <= 0 {
          hiddenRow := true;
        } else if l.pid !in seen {
          seen := seen + {l.pid};
          var o := s.idents[l.pid];
          if o.ident != IdentGone {
            if o.name == "" {
              o := o.(name := l.process);
            }
            owners := owners + [o];
          }
        }
      }
    }
    if i :| 0 <= i < |s.owners| && s.owners[i].port == port && s.owners[i].pid <= 0 {
      assert Row(s, s.owners[i], port);
    }
  }

  lemma DistinctAfterSort(gathered: seq<OwnerObs>, sorted: seq<OwnerObs>)
    requires multiset(sorted) == multiset(gathered)
    requires forall i, j | 0 <= i < j < |gathered| :: gathered[i].pid != gathered[j].pid
    ensures forall i, j | 0 <= i < j < |sorted| :: sorted[i].pid != sorted[j].pid
  {
    MultisetMembers(sorted, gathered);
    PermutationKeepsDistinct(gathered, sorted);
    forall i, j | 0 <= i < j < |sorted| ensures sorted[i].pid != sorted[j].pid {
      assert sorted[i] in sorted && sorted[j] in sorted;
      var a :| 0 <= a < |gathered| && gathered[a] == sorted[i];
      var b :| 0 <= b < |gathered| && gathered[b] == sorted[j];
      assert a != b;
    }
  }

  lemma LiveArePids(s: Snapshot, port: int)
    requires Collected(s)
    ensures forall pid :: pid in LivePids(s, port) <==>
      pid in SeenPids(s.owners, port, |s.owners|) && IdentOf(s, pid).ident != IdentGone
  {
    SeenPidsMeans(s.owners, port, |s.owners|);
    forall pid | pid in SeenPids(s.owners, port, |s.owners|) && IdentOf(s, pid).ident != IdentGone
      ensures pid in LivePids(s, port)
    {
      var k :| 0 <= k < |s.owners| && s.owners[k].port == port && s.owners[k].pid == pid;
      assert Live(s, s.owners[k], port);
    }
  }

  lemma OwnersByPid(s: Snapshot, port: int, sorted: seq<OwnerObs>)
    requires forall i, j | 0 <= i < j < |sorted| :: sorted[i].pid < sorted[j].pid
    requires forall i | 0 <= i < |sorted| ::
      sorted[i] == OwnerAt(s, port, sorted[i].pid) && sorted[i].pid in LivePids(s, port)
    requires forall pid | pid in LivePids(s, port) ::
      OwnerAt(s, port, pid) in sorted && OwnerAt(s, port, pid).pid == pid
    ensures sorted == OwnersOf(s, port)
  {
    var pids := seq(|sorted|, i requires 0 <= i < |sorted| => sorted[i].pid);
    forall x | x in LivePids(s, port) ensures x in pids {
      var i :| 0 <= i < |sorted| && sorted[i] == OwnerAt(s, port, x);
      assert pids[i] == x;
    }
    AscendingIsUnique(pids, Ascending(LivePids(s, port)));
  }

  /** Any sort by PID of the gathered owners gives the one ascending list. */
  lemma SortedOwners(s: Snapshot, port: int, sorted: seq<OwnerObs>)
    requires Collected(s)
    requires multiset(sorted) == multiset(Gathered(s, port, |s.owners|))
    requires forall i, j | 0 <= i < j < |sorted| :: sorted[i].pid <= sorted[j].pid
    ensures sorted == OwnersOf(s, port)
  {
    var gathered := Gathered(s, port, |s.owners|);
    GatheredMeans(s, port, |s.owners|);
    LiveArePids(s, port);
    MultisetMembers(sorted, gathered);
    DistinctAfterSort(gathered, sorted);
    assert forall i | 0 <= i < |sorted| :: sorted[i] in sorted && sorted[i] in gathered;
    forall pid | pid in LivePids(s, port) ensures OwnerAt(s, port, pid) in sorted && OwnerAt(s, port, pid).pid == pid {
      assert OwnerAt(s, port, pid) in gathered;
    }
    OwnersByPid(s, port, sorted);
  }

  method ProjectOwners(s: Snapshot, port: int) returns (owners: seq<OwnerObs>, hiddenRow: bool)
    requires Collected(s)
    ensures owners == OwnersOf(s, port)
    ensures hiddenRow <==> HiddenRow(s, port)
  {
    var gathered;
    gathered, hiddenRow := GatherOwners(s, port);
    owners := Sort(gathered, (a: OwnerObs, b: OwnerObs) => a.pid < b.pid);
    SortedOwners(s, port, owners);
  }

  method ProjectContainers(s: Snapshot, port: int) returns (containers: seq<Container>)
    ensures containers == ContainersOf(s.containers, port)
  {
    containers := [];
    for n := 0 to |s.containers|
      invariant containers + ContainersOf(s.containers[n..], port) == ContainersOf(s.containers, port)
    {
      if port in s.containers[n].ports {
        containers := containers + [s.containers[n]];
      }
      assert s.containers[n..][1..] == s.containers[n + 1..];
    }
  }

  method AnyDenied(sys: Sys, owners: seq<OwnerObs>, explained: bool) returns (denied: bool)
    ensures denied <==> exists o :: o in owners && DeniedActionable(sys, o, explained)
  {
    denied := false;
    for n := 0 to |owners|
      invariant denied <==> exists i :: 0 <= i < n && DeniedActionable(sys, owners[i], explained)
    {
      if DeniedActionable(sys, owners[n], explained) {
        denied := true;
      }
    }
  }

  method ProjectEndpoint(sys: Sys, s: Snapshot, port: int) returns (e: EndpointObs)
    requires Collected(s)
    ensures e == Endpoint(sys, s, port)
  {
    var containers := ProjectContainers(s, port);
    var owners, hiddenRow := ProjectOwners(s, port);
    var explained := |containers| > 0;
    var denied := AnyDenied(sys, owners, explained);
    var table := s.tableOK && port in s.tableHas;
    var hidden := !explained && (hiddenRow || (table && |owners| == 0));
    var unattributed := hidden || denied;
    var occupied := table || |owners| > 0 || |containers| > 0 || hiddenRow;
    e := EndpointObs(s.protocol, port, VisibilityOf(s, unattributed, |owners| > 0, |containers| > 0),
      occupied, table, unattributed, hidden, owners, containers);
  }
}
