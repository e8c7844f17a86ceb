/** Sorting by a caller-supplied order. The method promises only what a library
    sort promises: a permutation without inversions. What makes results unique
    is proved separately, from the order being total on the sorted elements. */
module Sorting {

  ghost predicate Ordered<T>(less: (T, T) -> bool, s: seq<T>) {
    forall i, j | 0 <= i < j < |s| :: !less(s[j], s[i])
  }

  ghost predicate WeakOrderOn<T>(less: (T, T) -> bool, s: seq<T>) {
    && (forall x, y | x in s && y in s && less(x, y) :: !less(y, x))
    && (forall x, y, z | x in s && y in s && z in s && less(x, z) :: less(x, y) || less(y, z))
  }

  ghost predicate TotalOn<T>(less: (T, T) -> bool, s: seq<T>) {
    forall x, y | x in s && y in s && x != y :: less(x, y) || less(y, x)
  }

  lemma MultisetMembers<T>(a: seq<T>, b: seq<T>)
    requires multiset(a) == multiset(b)
    ensures |a| == |b|
    ensures forall x :: x in a <==> x in b
  {
    assert |multiset(a)| == |a| && |multiset(b)| == |b|;
    forall x ensures x in a <==> x in b {
      assert x in a <==> x in multiset(a);
      assert x in b <==> x in multiset(b);
    }
  }

  lemma OrderOfTail<T>(less: (T, T) -> bool, s: seq<T>)
    requires s != [] && Ordered(less, s)
    ensures Ordered(less, s[1..])
    ensures TotalOn(less, s) ==> TotalOn(less, s[1..])
  {
    forall i, j | 0 <= i < j < |s[1..]| ensures !less(s[1..][j], s[1..][i]) {
      assert s[1..][i] == s[i + 1] && s[1..][j] == s[j + 1];
    }
  }

  lemma SortedHeadsAgree<T>(less: (T, T) -> bool, a: seq<T>, b: seq<T>)
    requires a != [] && b != [] && a[0] in b && b[0] in a
    requires Ordered(less, a) && Ordered(less, b) && TotalOn(less, a)
    ensures a[0] == b[0]
  {
    var i :| 0 <= i < |b| && b[i] == a[0];
    var j :| 0 <= j < |a| && a[j] == b[0];
    assert j == 0 || !less(b[0], a[0]);
    assert i == 0 || !less(a[0], b[0]);
  }

  ghost predicate NoDuplicates<T>(s: seq<T>) {
    forall i, j | 0 <= i < j < |s| :: s[i] != s[j]
  }

  lemma {:induction false} DuplicatesCount<T>(s: seq<T>)
    ensures NoDuplicates(s) <==> forall x | x in s :: multiset(s)[x] == 1
  {
    if s != [] {
      var rest := s[..|s| - 1];
      var last := s[|s| - 1];
      assert s == rest + [last];
      DuplicatesCount(rest);
      if NoDuplicates(s) {
        assert last !in rest;
      }
      if forall x | x in s :: multiset(s)[x] == 1 {
        assert last in s && multiset(s)[last] == multiset(rest)[last] + 1;
        forall x | x in rest ensures multiset(rest)[x] == 1 {
          assert x in s && multiset(s)[x] == multiset(rest)[x] + if x == last then 1 else 0;
        }
        assert last !in rest;
      }
    }
  }

  lemma PermutationKeepsDistinct<T>(a: seq<T>, b: seq<T>)
    requires multiset(a) == multiset(b) && NoDuplicates(a)
    ensures NoDuplicates(b)
  {
    DuplicatesCount(a);
    DuplicatesCount(b);
    MultisetMembers(a, b);
  }

  /** A total order leaves one sorted permutation only. */
  lemma {:induction false} SortedIsUnique<T>(less: (T, T) -> bool, a: seq<T>, b: seq<T>)
    requires multiset(a) == multiset(b)
    requires Ordered(less, a) && Ordered(less, b) && TotalOn(less, a)
    ensures a == b
  {
    MultisetMembers(a, b);
    if a != [] {
      assert a[0] in a && b[0] in b;
      SortedHeadsAgree(less, a, b);
      assert a == [a[0]] + a[1..] && b == [b[0]] + b[1..];
      assert multiset(a[1..]) == multiset(a) - multiset{a[0]};
      assert multiset(b[1..]) == multiset(b) - multiset{b[0]};
      OrderOfTail(less, a);
      OrderOfTail(less, b);
      SortedIsUnique(less, a[1..], b[1..]);
    }
  }

  method Sort<T(==)>(s: seq<T>, less: (T, T) -> bool) returns (r: seq<T>)
    requires WeakOrderOn(less, s)
    ensures multiset(r) == multiset(s) && Ordered(less, r)
  {
    r := [];
    for n := 0 to |s|
      invariant multiset(r) == multiset(s[..n]) && Ordered(less, r)
    {
      assert s[..n + 1] == s[..n] + [s[n]];
      forall x | x in r ensures x in s { MultisetMembers(r, s[..n]); }
      r := Insert(r, s[n], s, less);
    }
    assert s[..|s|] == s;
  }

  method Insert<T(==)>(r: seq<T>, x: T, ghost s: seq<T>, less: (T, T) -> bool) returns (q: seq<T>)
    requires WeakOrderOn(less, s) && x in s && (forall y | y in r :: y in s)
    requires Ordered(less, r)
    ensures multiset(q) == multiset(r) + multiset{x} && Ordered(less, q)
  {
    var k := |r|;
    while k > 0 && less(x, r[k - 1])
      invariant 0 <= k <= |r|
      invariant forall j | k <= j < |r| :: less(x, r[j])
    {
      k := k - 1;
    }
    q := r[..k] + [x] + r[k..];
    assert r == r[..k] + r[k..];
    InsertKeepsOrder(r, x, k, s, less);
  }

  lemma InsertKeepsOrder<T>(r: seq<T>, x: T, k: nat, s: seq<T>, less: (T, T) -> bool)
    requires WeakOrderOn(less, s) && x in s && (forall y | y in r :: y in s)
    requires Ordered(less, r) && k <= |r|
    requires k > 0 ==> !less(x, r[k - 1])
    requires forall j | k <= j < |r| :: less(x, r[j])
    ensures Ordered(less, r[..k] + [x] + r[k..])
  {
    var q := r[..k] + [x] + r[k..];
    forall i, j | 0 <= i < j < |q| ensures !less(q[j], q[i]) {
      if i < k && j == k {
        assert r[i] in s && r[k - 1] in s;
        assert i < k - 1 ==> !less(r[k - 1], r[i]);
      } else if i == k {
        assert r[j - 1] in s && q[j] == r[j - 1];
      } else {
        var i' := if i < k then i else i - 1;
        var j' := if j < k then j else j - 1;
        assert q[i] == r[i'] && q[j] == r[j'];
      }
    }
  }

  ghost predicate StrictlyAscending(s: seq<int>) {
    forall i, j | 0 <= i < j < |s| :: s[i] < s[j]
  }

  lemma SomeElement<T>(S: set<T>) returns (x: T)
    requires S != {}
    ensures x in S
  {
    x :| x in S;
  }

  method Pick<T>(S: set<T>) returns (x: T)
    requires S != {}
    ensures x in S
  {
    x :| x in S;
  }

  lemma {:induction false} SmallestExists(S: set<int>) returns (m: int)
    requires S != {}
    ensures m in S && forall x | x in S :: m <= x
  {
    var x := SomeElement(S);
    if S == {x} {
      m := x;
    } else {
      var rest := SmallestExists(S - {x});
      m := if x < rest then x else rest;
      forall y | y in S ensures m <= y {
        assert y == x || y in S - {x};
      }
    }
  }

  /** The elements of a finite set of integers in ascending order. */
  ghost function Ascending(S: set<int>): (s: seq<int>)
    ensures StrictlyAscending(s)
    ensures forall x :: x in s <==> x in S
  {
    if S == {} then [] else
      assert exists m :: m in S && forall x | x in S :: m <= x by { var m := SmallestExists(S); }
      var m :| m in S && forall x | x in S :: m <= x;
      [m] + Ascending(S - {m})
  }

  /** Strictly ascending sequences with the same elements are equal. */
  lemma {:induction false} AscendingIsUnique(a: seq<int>, b: seq<int>)
    requires StrictlyAscending(a) && StrictlyAscending(b)
    requires forall x :: x in a <==> x in b
    ensures a == b
  {
    if a == [] {
      assert forall i | 0 <= i < |b| :: b[i] in a;
    } else {
      assert a[0] in a && a[0] in b;
      assert b[0] in b && b[0] in a;
      assert a[0] == b[0];
      forall x ensures x in a[1..] <==> x in b[1..] {
        assert x in a[1..] <==> x in a && x != a[0];
        assert x in b[1..] <==> x in b && x != b[0];
      }
      AscendingIsUnique(a[1..], b[1..]);
    }
  }
}
