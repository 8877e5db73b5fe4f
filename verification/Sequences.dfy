/** Lists without repetition, and what remains of a list when some elements are left out. */
module Sequences {

  ghost function Elems<T>(s: seq<T>): (t: set<T>)
    ensures (forall x :: x in s ==> x in t) && forall x :: x in t ==> x in s
  {
    set x | x in s
  }

  predicate NoDup<T(==)>(s: seq<T>) {
    forall i, j :: 0 <= i < j < |s| ==> s[i] != s[j]
  }

  lemma NoDupJoin<T>(a: seq<T>, b: seq<T>)
    requires NoDup(a) && NoDup(b) && forall x :: x in b ==> x !in a
    ensures NoDup(a + b)
  {
    forall i, j | 0 <= i < j < |a + b|
      ensures (a + b)[i] != (a + b)[j]
    {
      if j >= |a| { assert (a + b)[j] in b; }
    }
  }

  /** The elements of `s` that are in `k`, in order. */
  ghost function Within<T>(s: seq<T>, k: set<T>): seq<T> {
    if s == [] then [] else (if s[0] in k then [s[0]] else []) + Within(s[1..], k)
  }

  lemma Regroup<T>(a: seq<T>, b: seq<T>, c: seq<T>)
    ensures a + (b + c) == a + b + c
  {}

  lemma {:induction false} WithinJoin<T>(a: seq<T>, b: seq<T>, k: set<T>)
    ensures Within(a + b, k) == Within(a, k) + Within(b, k)
  {
    if a == [] {
      assert a + b == b;
    } else {
      assert (a + b)[1..] == a[1..] + b;
      WithinJoin(a[1..], b, k);
      Regroup(if a[0] in k then [a[0]] else [], Within(a[1..], k), Within(b, k));
    }
  }

  lemma WithinMore<T>(s: seq<T>, x: T, k: set<T>)
    ensures Within(s + [x], k) == Within(s, k) + if x in k then [x] else []
  {
    WithinJoin(s, [x], k);
    assert Within([x], k) == (if x in k then [x] else []) + Within([], k);
  }

  lemma WithinMembers<T>(s: seq<T>, k: set<T>)
    ensures forall x :: x in Within(s, k) ==> x in s && x in k
    ensures forall x :: x in s && x in k ==> x in Within(s, k)
    ensures NoDup(s) ==> NoDup(Within(s, k))
    ensures (forall x :: x in s ==> x in k) ==> Within(s, k) == s
  {
    WithinIn(s, k);
    if NoDup(s) { WithinNoDup(s, k); }
    if forall x :: x in s ==> x in k { WithinAll(s, k); }
  }

  lemma {:induction false} WithinIn<T>(s: seq<T>, k: set<T>)
    ensures forall x :: x in Within(s, k) ==> x in s && x in k
    ensures forall x :: x in s && x in k ==> x in Within(s, k)
  {
    if s != [] { WithinIn(s[1..], k); }
  }

  lemma {:induction false} WithinNoDup<T>(s: seq<T>, k: set<T>)
    requires NoDup(s)
    ensures NoDup(Within(s, k))
  {
    if s != [] {
      WithinNoDup(s[1..], k);
      WithinIn(s[1..], k);
      assert s[0] !in s[1..];
    }
  }

  lemma {:induction false} WithinAll<T>(s: seq<T>, k: set<T>)
    requires forall x :: x in s ==> x in k
    ensures Within(s, k) == s
  {
    if s != [] {
      WithinAll(s[1..], k);
      assert s == [s[0]] + s[1..];
    }
  }

  lemma {:induction false} WithinNone<T>(s: seq<T>, k: set<T>)
    requires forall x :: x in s ==> x !in k
    ensures Within(s, k) == []
  {
    if s != [] { WithinNone(s[1..], k); }
  }

  lemma {:induction false} WithinOne<T>(s: seq<T>, k: set<T>, x: T)
    requires NoDup(s) && forall y :: y in s && y in k ==> y == x
    ensures Within(s, k) == [] || Within(s, k) == [x]
  {
    if s != [] {
      if s[0] in k {
        assert s[0] == x && x !in s[1..];
        WithinNone(s[1..], k);
      } else {
        WithinOne(s[1..], k, x);
      }
    }
  }

  /** `s` without its first `x`. */
  ghost function Without<T>(s: seq<T>, x: T): seq<T> {
    if s == [] then [] else if s[0] == x then s[1..] else [s[0]] + Without(s[1..], x)
  }

  lemma {:induction false} WithoutAt<T>(s: seq<T>, x: T, i: nat)
    requires i < |s| && s[i] == x && x !in s[..i]
    ensures Without(s, x) == s[..i] + s[i + 1..]
  {
    if i > 0 {
      assert s[0] in s[..i];
      assert s[1..][..i - 1] == s[..i][1..];
      WithoutAt(s[1..], x, i - 1);
    }
  }

  lemma {:induction false} WithoutMembers<T>(s: seq<T>, x: T)
    requires NoDup(s)
    ensures NoDup(Without(s, x))
    ensures forall y :: y in Without(s, x) ==> y in s && y != x
    ensures forall y :: y in s && y != x ==> y in Without(s, x)
  {
    if s != [] {
      assert s == [s[0]] + s[1..];
      assert NoDup(s[1..]) && s[0] !in s[1..];
      WithoutMembers(s[1..], x);
    }
  }

  /** What was appended stays when an element of the front is taken out. */
  lemma {:induction false} WithoutJoin<T>(a: seq<T>, b: seq<T>, x: T)
    requires x in a
    ensures Without(a + b, x) == Without(a, x) + b
  {
    if a[0] == x {
      assert (a + b)[1..] == a[1..] + b;
    } else {
      assert (a + b)[1..] == a[1..] + b;
      assert a == [a[0]] + a[1..];
      WithoutJoin(a[1..], b, x);
    }
  }

  lemma {:induction false} OnceEach<T>(a: seq<T>, x: T)
    requires NoDup(a)
    ensures multiset(a)[x] == if x in a then 1 else 0
  {
    if a != [] {
      OnceEach(a[1..], x);
      assert a == [a[0]] + a[1..];
    }
  }

  /** Two listings of the same elements are permutations of each other. */
  lemma SamePermute<T>(a: seq<T>, b: seq<T>)
    requires NoDup(a) && NoDup(b)
    ensures multiset(a) == multiset(b) <==> (forall x :: x in a ==> x in b) && (forall x :: x in b ==> x in a)
  {
    forall x
      ensures multiset(a)[x] == (if x in a then 1 else 0) && multiset(b)[x] == (if x in b then 1 else 0)
      ensures (x in multiset(a) <==> x in a) && (x in multiset(b) <==> x in b)
    {
      OnceEach(a, x);
      OnceEach(b, x);
    }
  }
}
