/** internal/cli/listeners.go: normalizeListeners and groupByPort. */
module Listeners {
  import opened Domain
  import opened Sorting

  predicate SameKey(a: Listener, b: Listener) {
    a.port == b.port && a.pid == b.pid
  }

  predicate KeyLess(a: Listener, b: Listener) {
    a.port < b.port || (a.port == b.port && a.pid < b.pid)
  }

  /** l is the first row of ls with its (port, PID). */
  ghost predicate IsFirst(ls: seq<Listener>, l: Listener) {
    exists i :: 0 <= i < |ls| && ls[i] == l && forall j | 0 <= j < i :: !SameKey(ls[j], l)
  }

  ghost predicate StrictByKey(ls: seq<Listener>) {
    forall i, j | 0 <= i < j < |ls| :: KeyLess(ls[i], ls[j])
  }

  /** One row per (port, PID), the first one given, in key order. */
  ghost predicate IsNormalOf(out: seq<Listener>, ls: seq<Listener>) {
    StrictByKey(out) && forall l :: l in out <==> IsFirst(ls, l)
  }

  predicate KeySeen(ls: seq<Listener>, n: nat, port: int, pid: int)
    requires n <= |ls|
  {
    exists i :: 0 <= i < n && ls[i].port == port && ls[i].pid == pid
  }

  lemma FirstsGrow(ls: seq<Listener>, n: nat, l: Listener)
    requires n < |ls|
    ensures IsFirst(ls[..n + 1], l) <==>
      IsFirst(ls[..n], l) || (l == ls[n] && !KeySeen(ls, n, l.port, l.pid))
  {
    var u, v := ls[..n], ls[..n + 1];
    assert forall i | 0 <= i < n :: u[i] == v[i] == ls[i];
    if IsFirst(v, l) {
      var i :| 0 <= i < |v| && v[i] == l && forall j | 0 <= j < i :: !SameKey(v[j], l);
      if i < n { assert u[i] == l; }
    }
    if IsFirst(u, l) {
      var i :| 0 <= i < |u| && u[i] == l && forall j | 0 <= j < i :: !SameKey(u[j], l);
      assert v[i] == l;
    }
    if l == ls[n] && !KeySeen(ls, n, l.port, l.pid) {
      assert v[n] == l;
    }
  }

  method Deduplicate(ls: seq<Listener>) returns (out: seq<Listener>)
    ensures forall l :: l in out <==> IsFirst(ls, l)
    ensures forall i, j | 0 <= i < j < |out| :: !SameKey(out[i], out[j])
  {
    var seen: set<(int, int)> := {};
    out := [];
    for n := 0 to |ls|
      invariant forall port, pid :: (port, pid) in seen <==> KeySeen(ls, n, port, pid)
      invariant forall l :: l in out <==> IsFirst(ls[..n], l)
      invariant forall i | 0 <= i < |out| :: (out[i].port, out[i].pid) in seen
      invariant forall i, j | 0 <= i < j < |out| :: !SameKey(out[i], out[j])
    {
      var l := ls[n];
      forall x ensures IsFirst(ls[..n + 1], x) <==> IsFirst(ls[..n], x) || (x == l && !KeySeen(ls, n, l.port, l.pid)) {
        FirstsGrow(ls, n, x);
      }
      if (l.port, l.pid) !in seen {
        seen := seen + {(l.port, l.pid)};
        out := out + [l];
      }
    }
    assert ls[..|ls|] == ls;
  }

  lemma StrictAfterSort(found: seq<Listener>, out: seq<Listener>)
    requires multiset(out) == multiset(found) && Ordered(KeyLess, out)
    requires forall i, j | 0 <= i < j < |found| :: !SameKey(found[i], found[j])
    ensures StrictByKey(out)
  {
    assert NoDuplicates(found) by {
      forall i, j | 0 <= i < j < |found| ensures found[i] != found[j] { assert !SameKey(found[i], found[j]); }
    }
    PermutationKeepsDistinct(found, out);
    MultisetMembers(out, found);
    forall i, j | 0 <= i < j < |out| ensures KeyLess(out[i], out[j]) {
      var x, y := out[i], out[j];
      assert x in out && y in out;
      var a :| 0 <= a < |found| && found[a] == x;
      var b :| 0 <= b < |found| && found[b] == y;
      assert x != y && a != b;
      assert !SameKey(x, y) by {
        if a < b { assert !SameKey(found[a], found[b]); } else { assert !SameKey(found[b], found[a]); }
      }
      assert !KeyLess(y, x);
    }
  }

  method NormalizeListeners(ls: seq<Listener>) returns (out: seq<Listener>)
    ensures IsNormalOf(out, ls)
  {
    var found := Deduplicate(ls);
    out := Sort(found, KeyLess);
    MultisetMembers(out, found);
    StrictAfterSort(found, out);
  }

  /** The normal form is unique, so it does not depend on how it is sorted. */
  lemma NormalIsUnique(a: seq<Listener>, b: seq<Listener>, ls: seq<Listener>)
    requires IsNormalOf(a, ls) && IsNormalOf(b, ls)
    ensures a == b
  {
    StrictIsUnique(a, b);
  }

  lemma EmptyTogether(a: seq<Listener>, b: seq<Listener>)
    requires forall l :: l in a <==> l in b
    ensures a == [] <==> b == []
  {
    if a != [] { var x := a[0]; assert x in a; }
    if b != [] { var x := b[0]; assert x in b; }
  }

  lemma {:induction false} StrictIsUnique(a: seq<Listener>, b: seq<Listener>)
    requires StrictByKey(a) && StrictByKey(b) && forall l :: l in a <==> l in b
    ensures a == b
  {
    EmptyTogether(a, b);
    if a != [] {
      HeadsAgree(a, b);
      forall l ensures l in a[1..] <==> l in b[1..] {
        TailMembers(a, l);
        TailMembers(b, l);
      }
      StrictIsUnique(a[1..], b[1..]);
      assert a == [a[0]] + a[1..] && b == [b[0]] + b[1..];
    }
  }

  lemma HeadsAgree(a: seq<Listener>, b: seq<Listener>)
    requires a != [] && b != [] && StrictByKey(a) && StrictByKey(b) && forall l :: l in a <==> l in b
    ensures a[0] == b[0]
  {
    var x, y := a[0], b[0];
    assert x in a && y in b;
    var i :| 0 <= i < |b| && b[i] == x;
    var j :| 0 <= j < |a| && a[j] == y;
  }

  lemma TailMembers(a: seq<Listener>, l: Listener)
    requires a != [] && StrictByKey(a)
    ensures l in a[1..] <==> l in a && l != a[0]
  {
    assert a == [a[0]] + a[1..];
    if l in a[1..] {
      var i :| 0 <= i < |a[1..]| && a[1..][i] == l;
      assert KeyLess(a[0], a[i + 1]);
    }
  }

  /** Normalizing what is normal already changes nothing. */
  lemma NormalIsStable(a: seq<Listener>, b: seq<Listener>, ls: seq<Listener>)
    requires IsNormalOf(a, ls) && IsNormalOf(b, a)
    ensures b == a
  {
    forall l ensures IsFirst(a, l) <==> l in a {
      if l in a {
        var i :| 0 <= i < |a| && a[i] == l;
        assert forall j | 0 <= j < i :: KeyLess(a[j], a[i]);
        assert IsFirst(a, l);
      }
    }
    StrictIsUnique(a, b);
  }

  // ---- grouping -----------------------------------------------------------------

  /** The rows of one port among the first n, in order. */
  function OnPort(ls: seq<Listener>, n: nat, port: int): seq<Listener>
    requires n <= |ls|
  {
    if n == 0 then [] else OnPort(ls, n - 1, port) + if ls[n - 1].port == port then [ls[n - 1]] else []
  }

  lemma {:induction false} OnPortMembers(ls: seq<Listener>, n: nat, port: int)
    requires n <= |ls|
    ensures forall l :: l in OnPort(ls, n, port) <==> l in ls[..n] && l.port == port
  {
    if n > 0 {
      OnPortMembers(ls, n - 1, port);
      assert ls[..n] == ls[..n - 1] + [ls[n - 1]];
    }
  }

  function Group(m: map<int, seq<Listener>>, port: int): seq<Listener> {
    if port in m then m[port] else []
  }

  ghost predicate Grouped(m: map<int, seq<Listener>>, ls: seq<Listener>, n: nat)
    requires n <= |ls|
  {
    forall port :: Group(m, port) == OnPort(ls, n, port)
  }

  lemma OneMoreRow(m: map<int, seq<Listener>>, ls: seq<Listener>, n: nat, l: Listener)
    requires n < |ls| && l == ls[n] && Grouped(m, ls, n)
    ensures Grouped(m[l.port := Group(m, l.port) + [l]], ls, n + 1)
  {
    var after := m[l.port := Group(m, l.port) + [l]];
    forall port ensures Group(after, port) == OnPort(ls, n + 1, port) {
      assert Group(m, port) == OnPort(ls, n, port);
    }
  }

  method GroupByPort(ls: seq<Listener>) returns (m: map<int, seq<Listener>>)
    ensures Grouped(m, ls, |ls|)
  {
    m := map[];
    for n := 0 to |ls|
      invariant Grouped(m, ls, n)
    {
      OneMoreRow(m, ls, n, ls[n]);
      m := m[ls[n].port := Group(m, ls[n].port) + [ls[n]]];
    }
  }
}
