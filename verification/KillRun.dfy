/** internal/cli/kill.go: the classic kill after its acts were carried out: polling, settling
    the rows, and what the rows and calls of a whole run mean. */
module KillRun {
  import opened Domain
  import opened Sorting
  import opened KillRows
  import opened KillDraft
  import opened KillExecute
  import KillTheorems
  import Plan
  import Text

  // ---- who is left --------------------------------------------------------------------

  /** One enumeration during verification: the listeners, None when listing
      failed, and what Docker said. */
  datatype Enumeration = Enumeration(listeners: Option<seq<Listener>>, docker: DockerState)

  predicate NativeOwner(ls: seq<Listener>, k: OwnerKey) {
    k.cid == "" && exists l :: l in ls && l.port == k.port && l.pid == k.pid
  }

  predicate ContainerOwner(dk: DockerState, k: OwnerKey) {
    k.pid == 0 && exists c :: c in ContainersAt(dk, k.port) && c.id == k.cid
  }

  predicate OwnerIn(ports: set<int>, ls: seq<Listener>, dk: DockerState, k: OwnerKey) {
    k.port in ports && (NativeOwner(ls, k) || ContainerOwner(dk, k))
  }

  /** The name an owner is shown under: that of a row or container with its key. */
  ghost predicate NameFits(ls: seq<Listener>, dk: DockerState, k: OwnerKey, name: string) {
    || (k.cid == "" && exists l :: l in ls && l.port == k.port && l.pid == k.pid && l.process == name)
    || (k.pid == 0 && exists c :: c in ContainersAt(dk, k.port) && c.id == k.cid && c.name == name)
  }

  method NativeOwners(ports: set<int>, ls: seq<Listener>, ghost dk: DockerState) returns (m: map<OwnerKey, string>)
    ensures forall k :: k in m <==> k.port in ports && NativeOwner(ls, k)
    ensures forall k | k in m :: NameFits(ls, dk, k, m[k])
  {
    m := map[];
    for n := 0 to |ls|
      invariant forall k :: k in m <==> k.port in ports && NativeOwner(ls[..n], k)
      invariant forall k | k in m :: NameFits(ls, dk, k, m[k])
    {
      var l := ls[n];
      assert l in ls;
      assert ls[..n + 1] == ls[..n] + [l];
      if l.port in ports {
        m := m[OwnerKey(l.port, l.pid, "") := l.process];
      }
    }
    assert ls[..|ls|] == ls;
  }

  method AddContainers(m: map<OwnerKey, string>, port: int, cs: seq<ContainerRef>, ghost ls: seq<Listener>,
                       ghost dk: DockerState)
    returns (r: map<OwnerKey, string>)
    requires cs == ContainersAt(dk, port) && forall k | k in m :: NameFits(ls, dk, k, m[k])
    ensures forall k :: k in r <==> k in m || (k.port == port && k.pid == 0 && exists c :: c in cs && c.id == k.cid)
    ensures forall k | k in r :: NameFits(ls, dk, k, r[k])
  {
    r := m;
    for n := 0 to |cs|
      invariant forall k :: k in r <==>
        k in m || (k.port == port && k.pid == 0 && exists i :: 0 <= i < n && cs[i].id == k.cid)
      invariant forall k | k in r :: NameFits(ls, dk, k, r[k])
    {
      var c := cs[n];
      assert c in cs;
      r := r[OwnerKey(port, 0, c.id) := c.name];
    }
  }

  /** ownersOnPorts: ranging over Docker's map visits its ports in any order. */
  method OwnersOnPorts(ports: set<int>, ls: seq<Listener>, dk: DockerState) returns (m: map<OwnerKey, string>)
    ensures forall k :: k in m <==> OwnerIn(ports, ls, dk, k)
    ensures forall k | k in m :: NameFits(ls, dk, k, m[k])
  {
    m := NativeOwners(ports, ls, dk);
    var left := dk.owners.Keys;
    while left != {}
      invariant left <= dk.owners.Keys
      invariant forall k :: k in m <==>
        k.port in ports && (NativeOwner(ls, k) || (k.port !in left && ContainerOwner(dk, k)))
      invariant forall k | k in m :: NameFits(ls, dk, k, m[k])
      decreases left
    {
      var p := Pick(left);
      left := left - {p};
      if p in ports {
        m := AddContainers(m, p, dk.owners[p], ls, dk);
      }
    }
  }

  method Settled(owners: map<OwnerKey, string>, tolerate: set<OwnerKey>) returns (done: bool)
    ensures done <==> owners.Keys <= tolerate
  {
    var left := owners.Keys;
    while left != {}
      invariant left <= owners.Keys && owners.Keys - left <= tolerate
      decreases left
    {
      var k := Pick(left);
      if k !in tolerate {
        return false;
      }
      left := left - {k};
    }
    done := true;
  }

  const ATTEMPTS: nat := 16

  predicate Usable(e: Enumeration, needDocker: bool) {
    e.listeners.Some? && (needDocker ==> !e.docker.warned)
  }

  /** Containers count only when a stop was run. */
  predicate Remains(ports: set<int>, needDocker: bool, e: Enumeration, k: OwnerKey) {
    k.port in ports && ((e.listeners.Some? && NativeOwner(e.listeners.value, k)) ||
      (needDocker && ContainerOwner(e.docker, k)))
  }

  ghost predicate OnlyTolerated(ports: set<int>, needDocker: bool, e: Enumeration, tolerate: set<OwnerKey>) {
    forall k | Remains(ports, needDocker, e, k) :: k in tolerate
  }

  datatype Verification = Failure | Seen(owners: map<OwnerKey, string>)

  /** Polls at most 16 times; stops early when only tolerated owners are left or an
      enumeration cannot be used. `last` is the attempt whose result it returns. */
  method Verify(ports: set<int>, needDocker: bool, tolerate: set<OwnerKey>, poll: nat -> Enumeration)
    returns (v: Verification, last: nat)
    ensures last < ATTEMPTS
    ensures v.Failure? <==> !Usable(poll(last), needDocker)
    ensures v.Seen? ==> forall k :: k in v.owners <==> Remains(ports, needDocker, poll(last), k)
    ensures v.Seen? ==> forall k | k in v.owners ::
      NameFits(poll(last).listeners.value, poll(last).docker, k, v.owners[k])
    ensures v.Seen? ==> OnlyTolerated(ports, needDocker, poll(last), tolerate) || last == ATTEMPTS - 1
    ensures forall j: nat | j < last ::
      Usable(poll(j), needDocker) && !OnlyTolerated(ports, needDocker, poll(j), tolerate)
  {
    var attempt := 0;
    while true
      invariant attempt < ATTEMPTS
      invariant forall j: nat | j < attempt ::
        Usable(poll(j), needDocker) && !OnlyTolerated(ports, needDocker, poll(j), tolerate)
      decreases ATTEMPTS - attempt
    {
      var e := poll(attempt);
      if e.listeners.None? {
        return Failure, attempt;
      }
      var dk := DockerState(false, false, map[]);
      if needDocker {
        dk := e.docker;
        if dk.warned {
          return Failure, attempt;
        }
      }
      var owners := OwnersOnPorts(ports, e.listeners.value, dk);
      assert forall k :: k in owners <==> Remains(ports, needDocker, e, k);
      var done := Settled(owners, tolerate);
      if done || attempt == ATTEMPTS - 1 {
        return Seen(owners), attempt;
      }
      assert !OnlyTolerated(ports, needDocker, e, tolerate);
      attempt := attempt + 1;
    }
  }

  // ---- finishRows -----------------------------------------------------------------------

  /** How a row comes out of planning; its act may have failed since. */
  predicate FromPlan(r: Row)
    reads r, r.act
  {
    && !r.killed && (r.owner.Some? ==> r.owner.value.port == r.port)
    && (if r.act != null then r.status == RowPlanned && r.owner.Some?
        else if r.owner.Some? then r.status == RowFailed
        else r.status == RowFree)
  }

  predicate Acted(r: Row)
    reads r.act
  {
    r.act != null && r.act.err.None?
  }

  ghost predicate DistinctRows(rows: seq<Row>) {
    forall i, j | 0 <= i < j < |rows| :: rows[i] != rows[j]
  }

  /** What the first pass finds: the ports acted on, the owners that cannot be
      expected to leave, and whether a stop was run. */
  datatype Tally = Tally(acted: set<int>, tolerate: set<OwnerKey>, needDocker: bool)

  ghost predicate Tallied(t: Tally, rows: seq<Row>, acted: seq<bool>, n: nat)
    requires n <= |rows| == |acted|
  {
    && (forall p :: p in t.acted <==> exists i :: 0 <= i < n && acted[i] && rows[i].port == p)
    && (forall k :: k in t.tolerate <==> exists i :: 0 <= i < n && !acted[i] && rows[i].owner == Some(k))
    && (t.needDocker <==> exists i :: 0 <= i < n && acted[i] && StopsContainer(rows[i]))
  }

  predicate StopsContainer(r: Row) {
    r.act != null && r.act.target.Ctr?
  }

  function WithRow(t: Tally, r: Row, acted: bool): Tally {
    if acted then t.(acted := t.acted + {r.port}, needDocker := t.needDocker || StopsContainer(r))
    else if r.owner.Some? then t.(tolerate := t.tolerate + {r.owner.value})
    else t
  }

  function TallyOf(rows: seq<Row>, acted: seq<bool>, n: nat): Tally
    requires n <= |rows| == |acted|
  {
    if n == 0 then Tally({}, {}, false) else WithRow(TallyOf(rows, acted, n - 1), rows[n - 1], acted[n - 1])
  }

  lemma {:induction false} TallyMeans(rows: seq<Row>, acted: seq<bool>, n: nat)
    requires n <= |rows| == |acted|
    ensures Tallied(TallyOf(rows, acted, n), rows, acted, n)
  {
    if n > 0 { TallyMeans(rows, acted, n - 1); }
  }

  method MarkRow(r: Row)
    requires FromPlan(r)
    modifies r
    ensures AfterTally(r) && (r.act == null ==> r.reason == old(r.reason))
  {
    if r.act != null && r.act.err.Some? {
      r.Fail(r.act.err.value);
    }
  }

  /** The rows without an act keep the reasons they were planned with. */
  predicate StillRefused(rows: seq<Row>, why: seq<Option<RowReason>>)
    reads rows
  {
    |why| == |rows| && forall i | 0 <= i < |rows| && rows[i].act == null :: rows[i].reason == why[i]
  }

  /** The first pass: a failed act fails its rows, and the rest is tallied. */
  method TallyRows(rows: seq<Row>, ghost acted: seq<bool>, ghost why: seq<Option<RowReason>>) returns (t: Tally)
    requires StillRefused(rows, why)
    requires DistinctRows(rows) && forall i | 0 <= i < |rows| :: FromPlan(rows[i])
    requires |acted| == |rows| && forall i | 0 <= i < |rows| :: acted[i] <==> Acted(rows[i])
    modifies rows
    ensures t == TallyOf(rows, acted, |rows|)
    ensures forall i | 0 <= i < |rows| :: AfterTally(rows[i])
    ensures StillRefused(rows, why)
  {
    t := Tally({}, {}, false);
    for n := 0 to |rows|
      invariant forall i | n <= i < |rows| :: FromPlan(rows[i])
      invariant forall i | 0 <= i < n :: AfterTally(rows[i])
      invariant forall i | n <= i < |rows| :: acted[i] <==> Acted(rows[i])
      invariant t == TallyOf(rows, acted, n)
      invariant StillRefused(rows, why)
    {
      t := WithRow(t, rows[n], rows[n].act != null && rows[n].act.err.None?);
      MarkRow(rows[n]);
    }
  }

  predicate AfterTally(r: Row)
    reads r, r.act
  {
    && !r.killed && (r.owner.Some? ==> r.owner.value.port == r.port) && (r.act != null ==> r.owner.Some?)
    && (if Acted(r) then r.status == RowPlanned
        else if r.owner.Some? then r.status == RowFailed && (r.act != null ==> r.reason == r.act.err)
        else r.status == RowFree)
  }

  /** The final state of a row that was planned. */
  predicate Concluded(r: Row, v: Verification)
    reads r, r.act
  {
    && (r.act != null ==> r.owner.Some?)
    && (if Acted(r) then
          if v.Failure? then r.status == RowFailed && !r.killed && r.reason == Some(Unconfirmed)
          else if r.owner.value in v.owners then r.status == RowFailed && !r.killed && r.reason == Some(StillHeld)
          else r.killed && r.status == if r.act.target.Ctr? then RowStopped else RowKilled
        else !r.killed && if r.owner.Some? then r.status == RowFailed && (r.act != null ==> r.reason == r.act.err)
                          else r.status == RowFree)
  }

  /** The second pass: a row is killed or stopped only if its own owner is gone. */
  method Conclude(rows: seq<Row>, v: Verification, ghost why: seq<Option<RowReason>>)
    requires StillRefused(rows, why)
    requires DistinctRows(rows) && forall i | 0 <= i < |rows| :: AfterTally(rows[i])
    modifies rows
    ensures forall i | 0 <= i < |rows| :: Concluded(rows[i], v)
    ensures StillRefused(rows, why)
  {
    for n := 0 to |rows|
      invariant forall i | n <= i < |rows| :: AfterTally(rows[i])
      invariant forall i | 0 <= i < n :: Concluded(rows[i], v)
      invariant StillRefused(rows, why)
    {
      var r := rows[n];
      if r.act != null && r.act.err.None? {
        if v.Failure? {
          r.Fail(Unconfirmed);
        } else if r.owner.value in v.owners {
          r.Fail(StillHeld);
        } else {
          r.killed := true;
          r.status := if r.act.target.Ctr? then RowStopped else RowKilled;
        }
      }
    }
  }

  /** A row for an owner nobody planned for. */
  predicate ExtraFor(r: Row, k: OwnerKey, name: string, initial: set<OwnerKey>)
    reads r
  {
    && r.act == null && r.owner == Some(k) && r.port == k.port && r.name == name
    && r.status == RowFailed && !r.killed && r.reason == Some(if k in initial then StillThere else NowHeld)
  }

  ghost predicate OwnersDiffer(rows: seq<Row>) {
    forall i, j | 0 <= i < j < |rows| :: rows[i].owner != rows[j].owner
  }

  /** One failed row for every remaining owner that has no row yet. */
  method ExtraRows(rows: seq<Row>, owners: map<OwnerKey, string>, initial: set<OwnerKey>) returns (extra: seq<Row>)
    ensures forall r | r in extra ::
      fresh(r) && r.owner.Some? && r.owner.value in owners && ExtraFor(r, r.owner.value, owners[r.owner.value], initial)
      && forall q | q in rows :: q.owner != r.owner
    ensures forall k | k in owners ::
      (exists q :: q in rows && q.owner == Some(k)) || (exists r :: r in extra && r.owner == Some(k))
    ensures OwnersDiffer(extra)
  {
    var have: set<OwnerKey> := {};
    for n := 0 to |rows|
      invariant forall k :: k in have <==> exists i :: 0 <= i < n && rows[i].owner == Some(k)
    {
      if rows[n].owner.Some? {
        have := have + {rows[n].owner.value};
      }
    }
    extra := [];
    var left := owners.Keys - have;
    while left != {}
      invariant left <= owners.Keys - have
      invariant forall r | r in extra ::
        fresh(r) && r.owner.Some? && r.owner.value in owners.Keys - have - left &&
        ExtraFor(r, r.owner.value, owners[r.owner.value], initial)
      invariant OwnersDiffer(extra)
      invariant forall k | k in owners.Keys - have - left :: exists r :: r in extra && r.owner == Some(k)
      decreases left
    {
      var k := Pick(left);
      left := left - {k};
      var r := new Row(k.port, Some(k), owners[k], null, RowFailed, Some(if k in initial then StillThere else NowHeld));
      extra := extra + [r];
    }
    forall k | k in owners
      ensures (exists q :: q in rows && q.owner == Some(k)) || (exists r :: r in extra && r.owner == Some(k))
    {
      assert k !in have ==> k in owners.Keys - have - left;
      if k in have {
        var i :| 0 <= i < |rows| && rows[i].owner == Some(k);
        assert rows[i] in rows;
      }
    }
  }

  // ---- order of the rows -----------------------------------------------------------------

  function ClassOf(r: Row): nat {
    if r.owner.None? then 0 else if r.owner.value.cid != "" then 1 else 2
  }

  predicate RowLess(a: Row, b: Row) {
    if a.port != b.port then a.port < b.port
    else if ClassOf(a) != ClassOf(b) then ClassOf(a) < ClassOf(b)
    else if ClassOf(a) == 0 then false
    else if ClassOf(a) == 2 then a.owner.value.pid < b.owner.value.pid
    else if a.name != b.name then Text.Less(a.name, b.name)
    else Text.Less(a.owner.value.cid, b.owner.value.cid)
  }

  lemma RowOrder(rows: seq<Row>)
    ensures WeakOrderOn(RowLess, rows)
  {
    forall x, y | x in rows && y in rows && RowLess(x, y) ensures !RowLess(y, x) {
      RowLessFacts(x, y, y);
    }
    forall x, y, z | x in rows && y in rows && z in rows && RowLess(x, z) ensures RowLess(x, y) || RowLess(y, z) {
      RowLessFacts(x, y, z);
    }
  }

  lemma RowLessFacts(x: Row, y: Row, z: Row)
    ensures RowLess(x, y) ==> !RowLess(y, x)
    ensures RowLess(x, z) ==> RowLess(x, y) || RowLess(y, z)
  {
    Plan.StringFacts(x.name, y.name, z.name);
    if x.owner.Some? && y.owner.Some? {
      Plan.StringFacts(x.owner.value.cid, y.owner.value.cid, y.owner.value.cid);
      if z.owner.Some? { Plan.StringFacts(x.owner.value.cid, y.owner.value.cid, z.owner.value.cid); }
    }
  }

  /** Rows come by port; on a port the free row first, then containers, then processes
      in PID order. */
  lemma RowsInOrder(rows: seq<Row>, i: nat, j: nat)
    requires Ordered(RowLess, rows) && i < j < |rows|
    ensures rows[i].port <= rows[j].port
    ensures rows[i].port == rows[j].port && rows[j].owner.None? ==> rows[i].owner.None?
    ensures rows[i].port == rows[j].port && rows[i].owner.Some? && rows[j].owner.Some? ==>
      var k, m := rows[i].owner.value, rows[j].owner.value;
      (m.cid != "" ==> k.cid != "") && (k.cid == "" && m.cid == "" ==> k.pid <= m.pid)
  {
    assert !RowLess(rows[j], rows[i]);
  }

  // ---- the result ----------------------------------------------------------------------------

  /** Which rows' acts were carried out without an error. */
  ghost predicate ActedAre(acted: seq<bool>, rows: seq<Row>)
    reads set i | 0 <= i < |rows| :: rows[i].act
  {
    |acted| == |rows| && forall i | 0 <= i < |rows| :: acted[i] <==> Acted(rows[i])
  }

  /** Every remaining owner is reported as a failure under its own key. */
  ghost predicate AllReported(out: seq<Row>, owners: map<OwnerKey, string>)
    reads out
  {
    forall k | k in owners :: Reported(out, k)
  }

  ghost predicate Reported(out: seq<Row>, k: OwnerKey)
    reads out
  {
    exists r :: r in out && r.owner == Some(k) && r.status == RowFailed && !r.killed
  }

  lemma ReportedByRows(rows: seq<Row>, extra: seq<Row>, out: seq<Row>, owners: map<OwnerKey, string>,
                       initial: set<OwnerKey>)
    requires multiset(out) == multiset(rows + extra)
    requires forall i | 0 <= i < |rows| :: Concluded(rows[i], Seen(owners))
    requires forall r | r in extra ::
      r.owner.Some? && r.owner.value in owners && ExtraFor(r, r.owner.value, owners[r.owner.value], initial)
    requires forall k | k in owners ::
      (exists q :: q in rows && q.owner == Some(k)) || (exists r :: r in extra && r.owner == Some(k))
    ensures AllReported(out, owners)
  {
    MultisetMembers(out, rows + extra);
    forall k | k in owners ensures Reported(out, k) {
      if q :| q in rows && q.owner == Some(k) {
        var i :| 0 <= i < |rows| && rows[i] == q;
        assert Concluded(rows[i], Seen(owners));
        assert q in rows + extra;
        assert q in out;
      } else {
        var r :| r in extra && r.owner == Some(k);
        assert r in rows + extra;
        assert r in out;
      }
    }
  }

  /** What finishRows saw: the tally, the verification and the attempt it came from. The
      attempts before it were usable and showed owners that are not tolerated; it was
      the last possible one, or showed no such owner, or could not be used. */
  datatype Sight = Sight(tally: Tally, v: Verification, last: nat)

  ghost predicate Quiet(s: Sight, e: Enumeration) {
    OnlyTolerated(s.tally.acted, s.tally.needDocker, e, s.tally.tolerate)
  }

  ghost predicate Sighted(s: Sight, poll: nat -> Enumeration) {
    && s.last < ATTEMPTS
    && (s.v.Failure? <==> !Usable(poll(s.last), s.tally.needDocker))
    && (s.v.Seen? ==> forall k :: k in s.v.owners <==> Remains(s.tally.acted, s.tally.needDocker, poll(s.last), k))
    && (s.v.Seen? ==> s.last == ATTEMPTS - 1 || Quiet(s, poll(s.last)))
    && (forall j: nat | j < s.last :: Usable(poll(j), s.tally.needDocker) && !Quiet(s, poll(j)))
  }

  /** The rows of the result besides the planned ones. */
  ghost predicate ExtrasOnly(out: seq<Row>, rows: seq<Row>, owners: map<OwnerKey, string>, initial: set<OwnerKey>)
    reads out
  {
    && (forall r | r in rows :: r in out)
    && forall r | r in out && r !in rows ::
         r.owner.Some? && r.owner.value in owners && ExtraFor(r, r.owner.value, owners[r.owner.value], initial)
  }

  /** No row twice, and no two added rows for one owner. */
  ghost predicate EachOnce(out: seq<Row>, rows: seq<Row>) {
    && NoDuplicates(out)
    && forall r, q | r in out && q in out && r !in rows && q !in rows && r != q :: r.owner != q.owner
  }

  lemma OnceAfterSort(rows: seq<Row>, extra: seq<Row>, out: seq<Row>)
    requires multiset(out) == multiset(rows + extra) && DistinctRows(rows) && OwnersDiffer(extra)
    requires forall r | r in extra :: r !in rows
    ensures EachOnce(out, rows)
  {
    var all := rows + extra;
    forall i, j | 0 <= i < j < |all| ensures all[i] != all[j] {
      if i < |rows| <= j {
        assert all[i] in rows && all[j] == extra[j - |rows|] && extra[j - |rows|] in extra;
      } else if |rows| <= i {
        assert extra[i - |rows|].owner != extra[j - |rows|].owner;
      }
    }
    PermutationKeepsDistinct(all, out);
    MultisetMembers(out, all);
    forall r, q | r in out && q in out && r !in rows && q !in rows && r != q ensures r.owner != q.owner {
      assert r in all && q in all;
      var i :| 0 <= i < |extra| && extra[i] == r;
      var j :| 0 <= j < |extra| && extra[j] == q;
      assert if i < j then extra[i].owner != extra[j].owner else extra[j].owner != extra[i].owner;
    }
  }

  method AppendExtras(rows: seq<Row>, owners: map<OwnerKey, string>, initial: set<OwnerKey>) returns (out: seq<Row>)
    requires DistinctRows(rows) && forall i | 0 <= i < |rows| :: Concluded(rows[i], Seen(owners))
    ensures AllReported(out, owners) && ExtrasOnly(out, rows, owners, initial) && Ordered(RowLess, out)
    ensures EachOnce(out, rows)
  {
    var extra := ExtraRows(rows, owners, initial);
    RowOrder(rows + extra);
    out := Sort(rows + extra, RowLess);
    OnceAfterSort(rows, extra, out);
    ReportedByRows(rows, extra, out, owners, initial);
    MultisetMembers(out, rows + extra);
    forall r | r in rows ensures r in out { assert r in rows + extra; }
  }

  /** finishRows: `seen` is what verification saw, None when there was nothing to
      verify because no act succeeded. */
  method FinishRows(rows: seq<Row>, initial: set<OwnerKey>, poll: nat -> Enumeration, ghost acted: seq<bool>,
                    ghost why: seq<Option<RowReason>>)
    returns (out: seq<Row>, ghost seen: Option<Sight>)
    requires StillRefused(rows, why)
    requires DistinctRows(rows) && (forall i | 0 <= i < |rows| :: FromPlan(rows[i])) && ActedAre(acted, rows)
    modifies rows
    ensures seen.None? <==> forall i | 0 <= i < |rows| :: !acted[i]
    ensures seen.None? ==> out == rows && forall i | 0 <= i < |rows| :: AfterTally(rows[i])
    ensures seen.Some? ==>
      && Tallied(seen.value.tally, rows, acted, |rows|) && Sighted(seen.value, poll)
      && (forall i | 0 <= i < |rows| :: Concluded(rows[i], seen.value.v))
    ensures seen.Some? && seen.value.v.Failure? ==> out == rows
    ensures seen.Some? && seen.value.v.Seen? ==>
      AllReported(out, seen.value.v.owners) && ExtrasOnly(out, rows, seen.value.v.owners, initial) &&
      EachOnce(out, rows) && Ordered(RowLess, out)
    ensures StillRefused(rows, why)
  {
    var t := TallyRows(rows, acted, why);
    TallyMeans(rows, acted, |rows|);
    assert forall i | 0 <= i < |rows| && acted[i] :: rows[i].port in t.acted;
    if t.acted == {} {
      return rows, None;
    }
    ghost var port := SomeElement(t.acted);
    assert exists i :: 0 <= i < |rows| && acted[i] && rows[i].port == port;
    ghost var s: Sight;
    out, s := FinishActed(rows, t, initial, poll, why);
    seen := Some(s);
  }

  method FinishActed(rows: seq<Row>, t: Tally, initial: set<OwnerKey>, poll: nat -> Enumeration,
                     ghost why: seq<Option<RowReason>>)
    returns (out: seq<Row>, ghost s: Sight)
    requires StillRefused(rows, why)
    requires DistinctRows(rows) && forall i | 0 <= i < |rows| :: AfterTally(rows[i])
    modifies rows
    ensures s.tally == t && Sighted(s, poll) && forall i | 0 <= i < |rows| :: Concluded(rows[i], s.v)
    ensures s.v.Failure? ==> out == rows
    ensures s.v.Seen? ==>
      AllReported(out, s.v.owners) && ExtrasOnly(out, rows, s.v.owners, initial) && EachOnce(out, rows) &&
        Ordered(RowLess, out)
    ensures StillRefused(rows, why)
  {
    var v, last := Verify(t.acted, t.needDocker, t.tolerate, poll);
    s := Sight(t, v, last);
    Conclude(rows, v, why);
    if v.Failure? {
      return rows, s;
    }
    out := AppendExtras(rows, v.owners, initial);
  }

  // ---- the whole command ---------------------------------------------------------------------

  /** Everybody in the listing or in Docker's answer before anything was done. */
  function InitialSet(ls: seq<Listener>, dk: DockerState): set<OwnerKey> {
    (set l | l in ls :: OwnerKey(l.port, l.pid, "")) +
    (set p, c | p in dk.owners && c in dk.owners[p] :: OwnerKey(p, 0, c.id))
  }

  lemma TargetsDiffer(acts: seq<Act>, ts: seq<Target>)
    requires ActsAre(acts, ts) && NoDuplicates(ts)
    ensures DistinctActs(acts) && OneTargetEach(acts)
  {
    forall i, j | 0 <= i < j < |acts| ensures acts[i] != acts[j] {
      assert acts[i].target != acts[j].target;
    }
  }

  lemma PlannedRowsAreFromPlan(sys: Sys, lst: Listing, dk: DockerState, lookup: int -> Lookup, ports: seq<int>,
                               rows: seq<Row>, acts: seq<Act>)
    requires RowsShow(rows, acts, PlannedRows(sys, lst, dk, lookup, ports))
    ensures DistinctRows(rows) && forall i | 0 <= i < |rows| :: FromPlan(rows[i])
  {
    var plan := PlannedRows(sys, lst, dk, lookup, ports);
    KillTheorems.RowsAreWellShaped(sys, lst, dk, lookup, ports);
    forall i | 0 <= i < |rows| ensures FromPlan(rows[i]) {
      assert plan[i] in plan;
      assert rows[i].Shows(plan[i]);
    }
  }

  /** How a real run leaves the planned rows and the result. */
  ghost predicate Ended(planned: seq<Row>, acted: seq<bool>, rows: seq<Row>, seen: Option<Sight>,
                        poll: nat -> Enumeration, initial: set<OwnerKey>)
    reads planned, rows, set i | 0 <= i < |planned| :: planned[i].act
  {
    && |acted| == |planned| && (forall i | 0 <= i < |planned| :: acted[i] <==> Acted(planned[i]))
    && (forall r | r in planned :: r in rows)
    && match seen
       case None => rows == planned && forall i | 0 <= i < |planned| :: !acted[i] && AfterTally(planned[i])
       case Some(s) =>
         && Tallied(s.tally, planned, acted, |planned|) && Sighted(s, poll)
         && (forall i | 0 <= i < |planned| :: Concluded(planned[i], s.v))
         && (s.v.Failure? ==> rows == planned)
         && (s.v.Seen? ==>
               AllReported(rows, s.v.owners) && ExtrasOnly(rows, planned, s.v.owners, initial) &&
               EachOnce(rows, planned) && Ordered(RowLess, rows))
  }

  /** The ports acted on, and whether a container was stopped, read off the rows. */
  ghost predicate Left(planned: seq<Row>, e: Enumeration, k: OwnerKey)
    reads set i | 0 <= i < |planned| :: planned[i].act
  {
    && (exists i :: 0 <= i < |planned| && Acted(planned[i]) && planned[i].port == k.port)
    && ((e.listeners.Some? && NativeOwner(e.listeners.value, k)) ||
        ((exists i :: 0 <= i < |planned| && Acted(planned[i]) && StopsContainer(planned[i])) &&
          ContainerOwner(e.docker, k)))
  }

  lemma LeftMeans(planned: seq<Row>, acted: seq<bool>, t: Tally, e: Enumeration, k: OwnerKey)
    requires |acted| == |planned| && (forall i | 0 <= i < |planned| :: acted[i] <==> Acted(planned[i]))
    requires Tallied(t, planned, acted, |planned|)
    ensures Left(planned, e, k) <==> Remains(t.acted, t.needDocker, e, k)
  {
  }

  /** Every owner that the last enumeration shows on a port that was acted on is
      reported as a failure under its own key. */
  lemma LeftAreReported(planned: seq<Row>, acted: seq<bool>, rows: seq<Row>, s: Sight,
                        poll: nat -> Enumeration, initial: set<OwnerKey>, k: OwnerKey)
    requires Ended(planned, acted, rows, Some(s), poll, initial) && s.v.Seen? && Left(planned, poll(s.last), k)
    ensures Reported(rows, k)
  {
    LeftMeans(planned, acted, s.tally, poll(s.last), k);
    assert k in s.v.owners;
  }

  /** A row reported killed or stopped: its own owner was not seen any more. */
  lemma GoneOwners(planned: seq<Row>, acted: seq<bool>, rows: seq<Row>, seen: Option<Sight>, poll: nat -> Enumeration,
                   initial: set<OwnerKey>, r: Row)
    requires Ended(planned, acted, rows, seen, poll, initial) && r in planned &&
      (r.status == RowKilled || r.status == RowStopped)
    ensures r.act != null && (r.status == RowStopped <==> r.act.target.Ctr?) && r.owner.Some?
    ensures seen.Some? && !Left(planned, poll(seen.value.last), r.owner.value)
  {
    var i :| 0 <= i < |planned| && planned[i] == r;
    if seen.Some? {
      LeftMeans(planned, acted, seen.value.tally, poll(seen.value.last), r.owner.value);
    }
  }

  /** What a run without a failed row shows. */
  ghost predicate CleanMeans(planned: seq<Row>, rows: seq<Row>, seen: Option<Sight>, poll: nat -> Enumeration)
    reads planned, rows, set i | 0 <= i < |planned| :: planned[i].act
  {
    (forall r | r in rows :: r.status != RowFailed) ==>
      match seen
      case None => forall r | r in planned :: r.status == RowFree
      case Some(s) => s.last < ATTEMPTS && forall k :: !Left(planned, poll(s.last), k)
  }

  /** No failed row: then nothing was acted on, or the last look found no owner
      at all on any port that was acted on. */
  lemma CleanRun(planned: seq<Row>, acted: seq<bool>, rows: seq<Row>, seen: Option<Sight>,
                 poll: nat -> Enumeration, initial: set<OwnerKey>)
    requires Ended(planned, acted, rows, seen, poll, initial) && forall r | r in rows :: r.status != RowFailed
    ensures seen.None? ==> forall i | 0 <= i < |planned| :: planned[i].status == RowFree
    ensures seen.Some? ==> seen.value.v.Seen? || forall i | 0 <= i < |planned| :: !acted[i]
    ensures seen.Some? ==> forall k :: !Left(planned, poll(seen.value.last), k)
  {
    forall i | 0 <= i < |planned| ensures planned[i] in planned && planned[i] in rows {}
    if seen.Some? && seen.value.v.Seen? {
      forall k ensures !Left(planned, poll(seen.value.last), k) {
        LeftMeans(planned, acted, seen.value.tally, poll(seen.value.last), k);
        assert k in seen.value.v.owners ==> Reported(rows, k);
      }
    }
  }

  lemma EndedIsClean(planned: seq<Row>, acted: seq<bool>, rows: seq<Row>, seen: Option<Sight>,
                     poll: nat -> Enumeration, initial: set<OwnerKey>)
    requires Ended(planned, acted, rows, seen, poll, initial)
    ensures CleanMeans(planned, rows, seen, poll)
  {
    if forall r | r in rows :: r.status != RowFailed {
      CleanRun(planned, acted, rows, seen, poll, initial);
    }
  }

  ghost predicate ActsHave(acts: seq<Act>, ts: seq<Target>) {
    |acts| == |ts| && forall i | 0 <= i < |acts| :: acts[i].target == ts[i]
  }

  ghost predicate Unmarked(acts: seq<Act>)
    reads acts
  {
    forall i | 0 <= i < |acts| :: acts[i].err.None?
  }

  /** Every act was carried out, and has an error exactly where it did not succeed. */
  ghost predicate CarriedOut(acts: seq<Act>, w: World, lookup: int -> Lookup)
    reads acts
  {
    forall i | 0 <= i < |acts| :: ErrorFits(w, lookup, acts[i].target, acts[i].err)
  }

  /** Some row of the process on a requested port may be acted on. */
  ghost predicate Wanted(sys: Sys, lst: Listing, lookup: int -> Lookup, ports: seq<int>, pid: int) {
    exists l :: l in lst.listeners && l.port in ports && l.pid == pid && KillTheorems.Actable(sys, lst, lookup, l)
  }

  ghost predicate Publishes(dk: DockerState, ports: seq<int>, cid: string) {
    exists port, c :: port in ports && c in ContainersAt(dk, port) && c.id == cid
  }

  /** The calls of a whole run, from the listing, Docker's answer and the lookups: a
      process is signalled with the very start token its lookup gave, it is killed
      unchecked only where the platform has no identities, and never else. */
  ghost predicate CallsAsked(sys: Sys, lst: Listing, dk: DockerState, lookup: int -> Lookup, ports: seq<int>,
                             calls: seq<Call>)
  {
    && (forall pid, st :: SignalIfSame(pid, st) in calls <==>
          Wanted(sys, lst, lookup, ports, pid) && ReadAs(lookup(pid), st))
    && (forall pid :: UncheckedKill(pid) in calls <==>
          Wanted(sys, lst, lookup, ports, pid) && WithoutIdentities(lookup(pid)))
    && (forall cid :: StopContainer(cid) in calls <==> Publishes(dk, ports, cid))
  }

  lemma FitIsAsked(sys: Sys, lst: Listing, dk: DockerState, lookup: int -> Lookup, ports: seq<int>, calls: seq<Call>,
                   acts: seq<Act>)
    requires ActsHave(acts, Targets(PlannedRows(sys, lst, dk, lookup, ports))) && CallsFit(calls, acts, lookup)
    ensures CallsAsked(sys, lst, dk, lookup, ports, calls)
  {
    var ts := Targets(PlannedRows(sys, lst, dk, lookup, ports));
    KillTheorems.TargetedExactly(sys, lst, dk, lookup, ports);
    forall t ensures Targeted(acts, t) <==> t in ts {
      if t in ts {
        var i :| 0 <= i < |ts| && ts[i] == t;
        assert acts[i].target == t;
      }
    }
    forall pid ensures Targeted(acts, Process(pid)) <==> Wanted(sys, lst, lookup, ports, pid) {}
    forall cid ensures Targeted(acts, Ctr(cid)) <==> Publishes(dk, ports, cid) {}
  }

  /** The rows of a plan stand for its entries and share the acts. */
  ghost predicate RowsOf(planned: seq<Row>, acts: seq<Act>, plan: seq<RowPlan>) {
    |planned| == |plan| && forall i | 0 <= i < |planned| :: RowOf(planned[i], acts, plan[i])
  }

  ghost predicate RowOf(r: Row, acts: seq<Act>, p: RowPlan) {
    && r.port == p.port && r.owner == p.owner && r.name == p.name
    && (r.act == null <==> p.target.None?) && (r.act != null ==> r.act in acts && p.target == Some(r.act.target))
  }

  /** How a planned row ends: as planned where there was nothing to do; failed with the
      error of its act where that did not succeed; and otherwise killed or stopped
      exactly when verification got an answer and its own owner was not left. */
  ghost predicate RowEnds(planned: seq<Row>, r: Row, p: RowPlan, w: World, lookup: int -> Lookup,
                          seen: Option<Sight>, poll: nat -> Enumeration)
    reads r, set i | 0 <= i < |planned| :: planned[i].act
  {
    match p.target
    case None => !r.killed && r.status == p.status && r.reason == p.reason
    case Some(t) =>
      if !Succeeds(w, lookup, t) then
        r.status == RowFailed && !r.killed && r.reason == Some(ActionFailed(FoundChanged(w, lookup, t)))
      else
        seen.Some? && r.owner.Some? &&
        if seen.value.v.Failure? then r.status == RowFailed && !r.killed && r.reason == Some(Unconfirmed)
        else if Left(planned, poll(seen.value.last), r.owner.value) then
          r.status == RowFailed && !r.killed && r.reason == Some(StillHeld)
        else r.killed && r.status == if t.Ctr? then RowStopped else RowKilled
  }

  ghost predicate RowsEnd(planned: seq<Row>, plan: seq<RowPlan>, w: World, lookup: int -> Lookup,
                          seen: Option<Sight>, poll: nat -> Enumeration)
    reads planned, set i | 0 <= i < |planned| :: planned[i].act
  {
    |planned| == |plan| && forall i | 0 <= i < |planned| :: RowEnds(planned, planned[i], plan[i], w, lookup, seen, poll)
  }

  lemma ActedMeans(r: Row, acts: seq<Act>, p: RowPlan, w: World, lookup: int -> Lookup)
    requires RowOf(r, acts, p) && CarriedOut(acts, w, lookup)
    ensures Acted(r) <==> p.target.Some? && Succeeds(w, lookup, p.target.value)
    ensures p.target.Some? && !Acted(r) ==> r.act.err == Some(ActionFailed(FoundChanged(w, lookup, p.target.value)))
  {
    if r.act != null {
      var i :| 0 <= i < |acts| && acts[i] == r.act;
      assert ErrorFits(w, lookup, acts[i].target, acts[i].err);
    }
  }

  lemma RowEndsAsSeen(planned: seq<Row>, acts: seq<Act>, plan: seq<RowPlan>, acted: seq<bool>, rows: seq<Row>,
                      seen: Option<Sight>, poll: nat -> Enumeration, initial: set<OwnerKey>, w: World,
                      lookup: int -> Lookup, i: nat)
    requires Ended(planned, acted, rows, seen, poll, initial) && RowsOf(planned, acts, plan) && i < |planned|
    requires CarriedOut(acts, w, lookup) && KillTheorems.WellShaped(plan[i])
    requires planned[i].act == null ==> planned[i].reason == plan[i].reason
    ensures RowEnds(planned, planned[i], plan[i], w, lookup, seen, poll)
  {
    var r := planned[i];
    assert RowOf(r, acts, plan[i]);
    ActedMeans(r, acts, plan[i], w, lookup);
    if seen.Some? && r.owner.Some? {
      LeftMeans(planned, acted, seen.value.tally, poll(seen.value.last), r.owner.value);
    }
  }

  lemma RowsEndAsSeen(sys: Sys, ports: seq<int>, lst: Listing, dk: DockerState, lookup: int -> Lookup, w: World,
                      planned: seq<Row>, acts: seq<Act>, acted: seq<bool>, rows: seq<Row>,
                      seen: Option<Sight>, poll: nat -> Enumeration)
    requires Ended(planned, acted, rows, seen, poll, InitialSet(lst.listeners, dk)) && CarriedOut(acts, w, lookup)
    requires RowsOf(planned, acts, PlannedRows(sys, lst, dk, lookup, ports))
    requires
      var plan := PlannedRows(sys, lst, dk, lookup, ports);
      forall i | 0 <= i < |planned| && planned[i].act == null :: planned[i].reason == plan[i].reason
    ensures RowsEnd(planned, PlannedRows(sys, lst, dk, lookup, ports), w, lookup, seen, poll)
  {
    var plan := PlannedRows(sys, lst, dk, lookup, ports);
    KillTheorems.RowsAreWellShaped(sys, lst, dk, lookup, ports);
    forall i | 0 <= i < |planned| ensures RowEnds(planned, planned[i], plan[i], w, lookup, seen, poll) {
      assert plan[i] in plan;
      RowEndsAsSeen(planned, acts, plan, acted, rows, seen, poll, InitialSet(lst.listeners, dk), w, lookup, i);
    }
  }

  /** The owner was there before anything was done. */
  ghost predicate ThereAtFirst(lst: Listing, dk: DockerState, k: OwnerKey) {
    || (k.cid == "" && exists l :: l in lst.listeners && l.port == k.port && l.pid == k.pid)
    || (k.pid == 0 && exists c :: c in ContainersAt(dk, k.port) && c.id == k.cid)
  }

  /** Every added row says whether its owner was there before or is new. */
  ghost predicate AddedRows(planned: seq<Row>, rows: seq<Row>, lst: Listing, dk: DockerState)
    reads rows
  {
    forall r | r in rows && r !in planned ::
      && r.owner.Some? && r.status == RowFailed && !r.killed
      && (r.reason == Some(StillThere) <==> ThereAtFirst(lst, dk, r.owner.value))
      && (r.reason == Some(NowHeld) <==> !ThereAtFirst(lst, dk, r.owner.value))
  }

  lemma InitialMeans(lst: Listing, dk: DockerState, k: OwnerKey)
    ensures k in InitialSet(lst.listeners, dk) <==> ThereAtFirst(lst, dk, k)
  {
  }

  lemma AddedExplained(planned: seq<Row>, acted: seq<bool>, rows: seq<Row>, seen: Option<Sight>,
                       poll: nat -> Enumeration, lst: Listing, dk: DockerState)
    requires Ended(planned, acted, rows, seen, poll, InitialSet(lst.listeners, dk))
    ensures AddedRows(planned, rows, lst, dk)
  {
    forall r | r in rows && r !in planned && r.owner.Some? { InitialMeans(lst, dk, r.owner.value); }
  }

  function Reasons(plan: seq<RowPlan>): seq<Option<RowReason>> {
    seq(|plan|, i requires 0 <= i < |plan| => plan[i].reason)
  }

  lemma ShownRows(rows: seq<Row>, acts: seq<Act>, plan: seq<RowPlan>)
    requires RowsShow(rows, acts, plan)
    ensures RowsOf(rows, acts, plan) && StillRefused(rows, Reasons(plan))
  {
    forall i | 0 <= i < |rows| ensures RowOf(rows[i], acts, plan[i]) && rows[i].reason == plan[i].reason {
      assert rows[i].Shows(plan[i]);
    }
  }
}
