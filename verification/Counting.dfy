/** Sums of weights over a sequence whose elements change one at a time. */
module Counting {

  function Sum<T>(w: T -> nat, s: seq<T>, n: nat): nat
    requires n <= |s|
  {
    if n == 0 then 0 else Sum(w, s, n - 1) + w(s[n - 1])
  }

  lemma {:induction false} SumUpdate<T>(w: T -> nat, s: seq<T>, n: nat, i: nat, x: T)
    requires n <= |s| && i < |s|
    ensures Sum(w, s[i := x], n) + (if i < n then w(s[i]) else 0) == Sum(w, s, n) + (if i < n then w(x) else 0)
  {
    if n > 0 { SumUpdate(w, s, n - 1, i, x); }
  }

  lemma {:induction false} SumZero<T>(w: T -> nat, s: seq<T>, n: nat)
    requires n <= |s|
    ensures Sum(w, s, n) == 0 <==> forall i | 0 <= i < n :: w(s[i]) == 0
  {
    if n > 0 { SumZero(w, s, n - 1); }
  }

  lemma {:induction false} SumAtLeast<T>(w: T -> nat, s: seq<T>, n: nat, i: nat)
    requires i < n <= |s|
    ensures w(s[i]) <= Sum(w, s, n)
  {
    if i < n - 1 { SumAtLeast(w, s, n - 1, i); }
  }

  lemma {:induction false} SumAtLeastTwo<T>(w: T -> nat, s: seq<T>, n: nat, i: nat, j: nat)
    requires i < j < n <= |s|
    ensures w(s[i]) + w(s[j]) <= Sum(w, s, n)
  {
    if j < n - 1 { SumAtLeastTwo(w, s, n - 1, i, j); } else { SumAtLeast(w, s, n - 1, i); }
  }

  lemma {:induction false} SumAgree<T>(w: T -> nat, s: seq<T>, t: seq<T>, n: nat)
    requires n <= |s| && n <= |t| && forall i | 0 <= i < n :: s[i] == t[i]
    ensures Sum(w, s, n) == Sum(w, t, n)
  {
    if n > 0 { SumAgree(w, s, t, n - 1); }
  }

  function Count<T>(w: T -> nat, s: seq<T>): nat {
    Sum(w, s, |s|)
  }

  lemma CountSnoc<T>(w: T -> nat, s: seq<T>)
    requires s != []
    ensures Count(w, s) == Count(w, s[..|s| - 1]) + w(s[|s| - 1])
  {
    SumAgree(w, s, s[..|s| - 1], |s| - 1);
  }

  lemma {:induction false} SumMonotone<T>(v: T -> nat, w: T -> nat, s: seq<T>, n: nat)
    requires n <= |s| && forall x | x in s :: v(x) <= w(x)
    ensures Sum(v, s, n) <= Sum(w, s, n)
  {
    if n > 0 { SumMonotone(v, w, s, n - 1); }
  }

  lemma {:induction false} SumConstant<T>(w: T -> nat, s: seq<T>, n: nat, c: nat)
    requires n <= |s| && forall i | 0 <= i < n :: w(s[i]) == c
    ensures Sum(w, s, n) == c * n
  {
    if n > 0 { SumConstant(w, s, n - 1, c); }
  }
}
