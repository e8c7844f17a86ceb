/** internal/cli/ports.go: port arguments. */
module PortSpecs {
  import opened Domain
  import opened Sorting
  import opened Text
  import PlanCheck

  // ---- one port -----------------------------------------------------------------

  /** A strictly decimal number of at most nine digits in the port range. */
  predicate IsPort(s: string, n: int) {
    s != "" && AllDigits(s) && |s| <= 9 && DecimalValue(s) == n && 1 <= n <= MAX_PORT
  }

  /** strconv.Atoi on digits. */
  method Atoi(s: string) returns (n: nat)
    requires AllDigits(s)
    ensures n == DecimalValue(s)
  {
    n := 0;
    for i := 0 to |s|
      invariant n == DecimalValue(s[..i])
    {
      assert s[..i + 1][..i] == s[..i];
      n := 10 * n + DigitValue(s[i]);
    }
    assert s[..|s|] == s;
  }

  method ParseDecimalPort(s: string) returns (r: Option<int>)
    ensures r.Some? ==> IsPort(s, r.value)
    ensures r.None? ==> forall n :: !IsPort(s, n)
  {
    if s == "" {
      return None;
    }
    for i := 0 to |s|
      invariant AllDigits(s[..i])
    {
      if s[i] < '0' || s[i] > '9' {
        assert !IsDigit(s[i]);
        return None;
      }
    }
    assert s[..|s|] == s;
    if |s| > 9 {
      return None;
    }
    var n := Atoi(s);
    if n < 1 || n > MAX_PORT {
      return None;
    }
    r := Some(n);
  }

  lemma {:induction false} NatTextLength(n: nat, d: nat)
    requires d > 0 && n < Power10(d)
    ensures |NatText(n)| <= d
  {
    if n >= 10 { NatTextLength(n / 10, d - 1); }
  }

  function Power10(d: nat): nat {
    if d == 0 then 1 else 10 * Power10(d - 1)
  }

  /** Every port is accepted as it is printed, and nothing is accepted as two ports. */
  lemma PortRoundTrip(n: int)
    requires 1 <= n <= MAX_PORT
    ensures forall m :: IsPort(NatText(n), m) <==> m == n
  {
    DecimalRoundTrip(n);
    assert Power10(5) == 100000 by {
      assert Power10(1) == 10 && Power10(2) == 100 && Power10(3) == 1000 && Power10(4) == 10000;
    }
    NatTextLength(n, 5);
  }

  // ---- specs ----------------------------------------------------------------------

  function Dashes(s: string, n: nat): nat
    requires n <= |s|
  {
    if n == 0 then 0 else Dashes(s, n - 1) + if s[n - 1] == '-' then 1 else 0
  }

  /** The spec is one port, or a range whose ends are ports in order. */
  ghost predicate Denotes(spec: string, lo: int, hi: int) {
    || (Dashes(spec, |spec|) == 0 && IsPort(spec, lo) && hi == lo)
    || (Dashes(spec, |spec|) == 1 && lo <= hi &&
        exists i :: 0 <= i < |spec| && spec[i] == '-' && IsPort(spec[..i], lo) && IsPort(spec[i + 1..], hi))
  }

  ghost predicate IsSpec(spec: string) {
    exists lo, hi :: Denotes(spec, lo, hi)
  }

  ghost predicate Covers(spec: string, p: int) {
    exists lo, hi :: Denotes(spec, lo, hi) && lo <= p <= hi
  }

  lemma {:induction false} NoDashes(s: string, n: nat, i: nat)
    requires n <= |s| && i < n && s[i] == '-'
    ensures Dashes(s, n) >= 1
  {
    if i < n - 1 { NoDashes(s, n - 1, i); }
  }

  lemma {:induction false} TwoDashes(s: string, n: nat, i: nat, j: nat)
    requires n <= |s| && i < j < n && s[i] == '-' && s[j] == '-'
    ensures Dashes(s, n) >= 2
  {
    if j < n - 1 { TwoDashes(s, n - 1, i, j); } else { NoDashes(s, n - 1, i); }
  }

  lemma OnlyDash(spec: string, i: nat, lo: int, hi: int, j: nat)
    requires i < |spec| && IsPort(spec[..i], lo) && IsPort(spec[i + 1..], hi) && j < |spec| && spec[j] == '-'
    ensures i == j
  {
    forall k | 0 <= k < |spec| && k != i ensures IsDigit(spec[k]) {
      assert if k < i then spec[k] == spec[..i][k] else spec[k] == spec[i + 1..][k - i - 1];
    }
  }

  /** A spec denotes at most one range. */
  lemma DenotesOne(spec: string, lo: int, hi: int, lo': int, hi': int)
    requires Denotes(spec, lo, hi) && Denotes(spec, lo', hi')
    ensures lo == lo' && hi == hi'
  {
    if Dashes(spec, |spec|) == 1 {
      var i :| 0 <= i < |spec| && spec[i] == '-' && IsPort(spec[..i], lo) && IsPort(spec[i + 1..], hi);
      var j :| 0 <= j < |spec| && spec[j] == '-' && IsPort(spec[..j], lo') && IsPort(spec[j + 1..], hi');
      OnlyDash(spec, i, lo, hi, j);
    }
  }

  method CountDashes(s: string) returns (n: nat)
    ensures n == Dashes(s, |s|)
  {
    n := 0;
    for i := 0 to |s|
      invariant n == Dashes(s, i)
    {
      if s[i] == '-' {
        n := n + 1;
      }
    }
  }

  method FirstDash(s: string) returns (i: nat)
    requires Dashes(s, |s|) == 1
    ensures i < |s| && s[i] == '-'
  {
    i := 0;
    while i < |s| && s[i] != '-'
      invariant i <= |s| && Dashes(s, i) == 0
    {
      i := i + 1;
    }
  }

  /** One argument: its range, or None. */
  method ParseSpec(spec: string) returns (r: Option<(int, int)>)
    ensures r.Some? ==> Denotes(spec, r.value.0, r.value.1)
    ensures r.None? ==> !IsSpec(spec)
  {
    var dashes := CountDashes(spec);
    if dashes == 0 {
      var p := ParseDecimalPort(spec);
      return if p.Some? then Some((p.value, p.value)) else None;
    }
    if dashes != 1 {
      return None;
    }
    var i := FirstDash(spec);
    var lo := ParseDecimalPort(spec[..i]);
    var hi := ParseDecimalPort(spec[i + 1..]);
    forall j | 0 <= j < |spec| && spec[j] == '-' ensures j == i {
      if i < j { TwoDashes(spec, |spec|, i, j); } else if j < i { TwoDashes(spec, |spec|, j, i); }
    }
    if lo.None? || hi.None? || lo.value > hi.value {
      return None;
    }
    r := Some((lo.value, hi.value));
  }

  ghost predicate CoveredBy(args: seq<string>, n: nat, p: int)
    requires n <= |args|
  {
    exists k :: 0 <= k < n && Covers(args[k], p)
  }

  method SortedInts(s: set<int>) returns (r: seq<int>)
    ensures StrictlyAscending(r) && forall p :: p in r <==> p in s
  {
    var found: seq<int> := [];
    var left := s;
    while left != {}
      invariant left <= s && NoDuplicates(found)
      invariant forall p :: p in found <==> p in s && p !in left
      decreases left
    {
      var p := Pick(left);
      found := found + [p];
      left := left - {p};
    }
    var less := (a: int, b: int) => a < b;
    r := Sort(found, less);
    PermutationKeepsDistinct(found, r);
    MultisetMembers(r, found);
    forall i, j | 0 <= i < j < |r| ensures r[i] < r[j] { assert !less(r[j], r[i]); }
  }

  /** The n-th argument is the first that denotes nothing. */
  ghost predicate FirstBad(args: seq<string>, n: nat) {
    n < |args| && !IsSpec(args[n]) && forall k | 0 <= k < n :: IsSpec(args[k])
  }

  /** What has been expanded when the arguments are rejected. */
  ghost predicate HeldAtRejection(args: seq<string>, n: nat, held: set<int>) {
    FirstBad(args, n) && forall p :: p in held <==> CoveredBy(args, n, p)
  }

  /** The arguments are accepted exactly when each denotes a port or a range, and
      the ports are exactly those denoted, each once, in ascending order. held is
      what the map holds at the end: never more than all ports, and on rejection
      what the arguments before the first bad one denote. */
  method ParsePortSpecs(args: seq<string>) returns (r: Option<seq<int>>, ghost held: set<int>)
    ensures r.Some? <==> forall k | 0 <= k < |args| :: IsSpec(args[k])
    ensures r.Some? ==> StrictlyAscending(r.value) && forall p :: p in r.value <==> CoveredBy(args, |args|, p)
    ensures r.Some? ==> forall p :: p in held <==> p in r.value
    ensures r.None? ==> exists n: nat :: HeldAtRejection(args, n, held)
    ensures |held| <= MAX_PORT
  {
    var seen: set<int> := {};
    held := {};
    for n := 0 to |args|
      invariant forall k | 0 <= k < n :: IsSpec(args[k])
      invariant forall p :: p in seen <==> CoveredBy(args, n, p)
      invariant held == seen && |held| <= MAX_PORT
    {
      var range := ParseSpec(args[n]);
      if range.None? {
        assert HeldAtRejection(args, n, held);
        return None, held;
      }
      seen := Expand(seen, range.value.0, range.value.1);
      held := seen;
      CoveredNext(args, n, range.value.0, range.value.1);
      CoveredIsBounded(args, n + 1, held);
    }
    var ports := SortedInts(seen);
    r := Some(ports);
  }

  method Expand(seen: set<int>, lo: int, hi: int) returns (s: set<int>)
    requires lo <= hi
    ensures forall q :: q in s <==> q in seen || lo <= q <= hi
  {
    s := seen;
    for p := lo to hi + 1
      invariant forall q :: q in s <==> q in seen || lo <= q < p
    {
      s := s + {p};
    }
  }

  lemma CoveredNext(args: seq<string>, n: nat, lo: int, hi: int)
    requires n < |args| && Denotes(args[n], lo, hi)
    ensures IsSpec(args[n])
    ensures forall p :: CoveredBy(args, n + 1, p) <==> CoveredBy(args, n, p) || lo <= p <= hi
  {
    forall p ensures CoveredBy(args, n + 1, p) <==> CoveredBy(args, n, p) || lo <= p <= hi {
      CoversExactly(args[n], lo, hi, p);
    }
  }

  lemma {:induction false} PortSetIsSmall(s: set<int>, n: nat)
    requires forall p | p in s :: 1 <= p <= n
    ensures |s| <= n
  {
    if n == 0 {
      assert forall p :: p !in s;
    } else {
      PortSetIsSmall(s - {n}, n - 1);
    }
  }

  lemma CoveredIsBounded(args: seq<string>, n: nat, held: set<int>)
    requires n <= |args| && forall p :: p in held <==> CoveredBy(args, n, p)
    ensures |held| <= MAX_PORT
  {
    forall p | p in held ensures 1 <= p <= MAX_PORT {
      var k :| 0 <= k < n && Covers(args[k], p);
    }
    PortSetIsSmall(held, MAX_PORT);
  }

  /** Nothing has been expanded when the arguments are rejected if and only if it is
      the first argument that denotes nothing. */
  lemma NothingHeldExactly(args: seq<string>, n: nat, held: set<int>)
    requires HeldAtRejection(args, n, held)
    ensures held == {} <==> !IsSpec(args[0])
  {
    if n == 0 {
      assert forall p :: p !in held;
    } else {
      assert IsSpec(args[0]);
      var lo, hi :| Denotes(args[0], lo, hi);
      assert Covers(args[0], lo);
      assert CoveredBy(args, n, lo);
    }
  }

  lemma {:induction false} DigitsHaveNoDash(s: string, n: nat)
    requires n <= |s| && forall i | 0 <= i < n :: IsDigit(s[i])
    ensures Dashes(s, n) == 0
  {
    if n > 0 { DigitsHaveNoDash(s, n - 1); }
  }

  lemma {:induction false} OneDash(s: string, n: nat, i: nat)
    requires i < n <= |s| && s[i] == '-' && forall k | 0 <= k < n && k != i :: IsDigit(s[k])
    ensures Dashes(s, n) == 1
  {
    if i < n - 1 { OneDash(s, n - 1, i); } else { DigitsHaveNoDash(s, n - 1); }
  }

  function RangeText(lo: nat, hi: nat): string {
    NatText(lo) + "-" + NatText(hi)
  }

  /** A range of ports is read as it is printed. */
  lemma RangeRoundTrip(lo: nat, hi: nat)
    requires 1 <= lo <= hi <= MAX_PORT
    ensures Denotes(RangeText(lo, hi), lo, hi)
  {
    var s, i := RangeText(lo, hi), |NatText(lo)|;
    PortRoundTrip(lo);
    PortRoundTrip(hi);
    assert IsPort(NatText(lo), lo) && IsPort(NatText(hi), hi);
    assert s[i] == '-' && s[..i] == NatText(lo) && s[i + 1..] == NatText(hi);
    forall k | 0 <= k < |s| && k != i ensures IsDigit(s[k]) {
      assert s[k] == if k < i then NatText(lo)[k] else NatText(hi)[k - i - 1];
    }
    OneDash(s, |s|, i);
  }

  lemma HeldAfterFirst(spec: string, lo: int, hi: int, bad: string, held: set<int>)
    requires Denotes(spec, lo, hi) && !IsSpec(bad) && forall p :: p in held <==> CoveredBy([spec, bad], 1, p)
    ensures HeldAtRejection([spec, bad], 1, held) && forall p :: p in held <==> lo <= p <= hi
  {
    var args := [spec, bad];
    assert IsSpec(args[0]);
    forall p ensures p in held <==> lo <= p <= hi {
      CoversExactly(spec, lo, hi, p);
      assert CoveredBy(args, 1, p) <==> Covers(args[0], p);
    }
  }

  /** The comment above parsePortSpecs says that every argument is validated before
      any range is expanded. These arguments are rejected with every port expanded. */
  lemma ExpandedBeforeRejected(held: set<int>)
    requires forall p :: p in held <==> CoveredBy([RangeText(1, MAX_PORT), "x"], 1, p)
    ensures HeldAtRejection([RangeText(1, MAX_PORT), "x"], 1, held) && |held| == MAX_PORT
  {
    RangeRoundTrip(1, MAX_PORT);
    XIsNoSpec();
    HeldAfterFirst(RangeText(1, MAX_PORT), 1, MAX_PORT, "x", held);
    AllPorts(held, MAX_PORT);
  }

  lemma XIsNoSpec()
    ensures !IsSpec("x")
  {
    assert Dashes("x", 1) == Dashes("x", 0);
    assert !IsDigit("x"[0]);
  }

  lemma {:induction false} AllPorts(s: set<int>, n: nat)
    requires forall p :: p in s <==> 1 <= p <= n
    ensures |s| == n
  {
    if n == 0 {
      assert forall p :: p !in s;
    } else {
      AllPorts(s - {n}, n - 1);
    }
  }

  lemma CoversExactly(spec: string, lo: int, hi: int, p: int)
    requires Denotes(spec, lo, hi)
    ensures Covers(spec, p) <==> lo <= p <= hi
  {
    if lo', hi' :| Denotes(spec, lo', hi') && lo' <= p <= hi' {
      DenotesOne(spec, lo, hi, lo', hi');
    }
  }

  /** What the plan relies on: accepted arguments give ports in range, and at
      least one port when there is at least one argument. */
  lemma AcceptedPortsAreInRange(args: seq<string>, ports: seq<int>)
    requires forall k | 0 <= k < |args| :: IsSpec(args[k])
    requires StrictlyAscending(ports) && forall p :: p in ports <==> CoveredBy(args, |args|, p)
    ensures PlanCheck.PortsInRange(ports) && |ports| <= MAX_PORT
    ensures args != [] ==> ports != []
  {
    forall p | p in ports ensures 1 <= p <= MAX_PORT {
      var k :| 0 <= k < |args| && Covers(args[k], p);
    }
    AscendingIsShort(ports, 1, MAX_PORT);
    if args != [] {
      assert IsSpec(args[0]);
      var lo, hi :| Denotes(args[0], lo, hi);
      assert Covers(args[0], lo);
      assert CoveredBy(args, |args|, lo);
      assert lo in ports;
    }
  }

  lemma {:induction false} AscendingIsShort(s: seq<int>, lo: int, hi: int)
    requires StrictlyAscending(s) && lo <= hi + 1 && forall x | x in s :: lo <= x <= hi
    ensures |s| <= hi - lo + 1
  {
    if s != [] {
      var u, last := s[..|s| - 1], s[|s| - 1];
      assert last in s;
      forall x | x in u ensures lo <= x <= last - 1 {
        var i :| 0 <= i < |u| && u[i] == x;
        assert s[i] == x && s[i] in s;
      }
      AscendingIsShort(u, lo, last - 1);
    }
  }
}
