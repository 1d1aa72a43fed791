// Sorting by a comparison function. Go's sort package promises a sorted permutation and nothing
// more; OneArrangement shows that for a total order this fixes the result.
module Sorting {
  ghost predicate TotalPreorder<T(!new)>(leq: (T, T) -> bool) {
    && (forall x, y :: leq(x, y) || leq(y, x))
    && (forall x, y, z :: leq(x, y) && leq(y, z) ==> leq(x, z))
  }

  ghost predicate TotalOrder<T(!new)>(leq: (T, T) -> bool) {
    && TotalPreorder(leq)
    && (forall x, y :: leq(x, y) && leq(y, x) ==> x == y)
  }

  ghost predicate SortedBy<T>(s: seq<T>, leq: (T, T) -> bool) {
    forall i, j :: 0 <= i < j < |s| ==> leq(s[i], s[j])
  }

  function Insert<T>(x: T, s: seq<T>, leq: (T, T) -> bool): (r: seq<T>)
    ensures multiset(r) == multiset(s) + multiset{x}
  {
    if s == [] then [x]
    else if leq(x, s[0]) then [x] + s
    else
      assert s == [s[0]] + s[1..];
      [s[0]] + Insert(x, s[1..], leq)
  }

  function Sort<T>(s: seq<T>, leq: (T, T) -> bool): (r: seq<T>)
    ensures multiset(r) == multiset(s)
    ensures |r| == |s|
  {
    if s == [] then []
    else
      assert s == [s[0]] + s[1..];
      var r := Insert(s[0], Sort(s[1..], leq), leq);
      assert |multiset(r)| == |multiset(s)|;
      r
  }

  lemma {:induction false} InsertSorted<T(!new)>(x: T, s: seq<T>, leq: (T, T) -> bool)
    requires TotalPreorder(leq) && SortedBy(s, leq)
    ensures SortedBy(Insert(x, s, leq), leq)
  {
    if s != [] && !leq(x, s[0]) {
      InsertSorted(x, s[1..], leq);
      var rest := Insert(x, s[1..], leq);
      forall y | y in rest ensures leq(s[0], y) {
        assert y in multiset(rest);
        assert y == x || y in s[1..];
      }
    }
  }

  lemma {:induction false} SortSorts<T(!new)>(s: seq<T>, leq: (T, T) -> bool)
    requires TotalPreorder(leq)
    ensures SortedBy(Sort(s, leq), leq)
  {
    if s != [] {
      SortSorts(s[1..], leq);
      InsertSorted(s[0], Sort(s[1..], leq), leq);
    }
  }

  function Without<T>(s: seq<T>, i: nat): (r: seq<T>)
    requires i < |s|
    ensures |r| == |s| - 1
    ensures multiset(r) == multiset(s) - multiset{s[i]}
    ensures forall j :: 0 <= j < |r| ==> r[j] == if j < i then s[j] else s[j + 1]
  {
    assert s == s[..i] + [s[i]] + s[i + 1..];
    s[..i] + s[i + 1..]
  }

  // Of a sorted sequence no element comes after the last.
  lemma LastIsGreatest<T(!new)>(s: seq<T>, x: T, leq: (T, T) -> bool)
    requires TotalPreorder(leq) && SortedBy(s, leq) && x in s
    ensures leq(x, s[|s| - 1])
  {
    var i :| 0 <= i < |s| && s[i] == x;
    assert leq(x, x);
  }

  lemma WithoutLast<T>(s: seq<T>, leq: (T, T) -> bool)
    requires s != []
    ensures s == Without(s, |s| - 1) + [s[|s| - 1]]
    ensures SortedBy(s, leq) ==> SortedBy(Without(s, |s| - 1), leq)
  {
  }

  lemma SameLast<T(!new)>(leq: (T, T) -> bool, s: seq<T>, t: seq<T>)
    requires TotalOrder(leq) && SortedBy(s, leq) && SortedBy(t, leq)
    requires multiset(s) == multiset(t) && s != [] && t != []
    ensures s[|s| - 1] == t[|t| - 1]
  {
    var x, y := s[|s| - 1], t[|t| - 1];
    var inT := IndexOf(x, t, s);
    var inS := IndexOf(y, s, t);
    LastIsGreatest(t, x, leq);
    LastIsGreatest(s, y, leq);
  }

  // A multiset has one sorted arrangement: taking the greatest element away leaves a smaller instance.
  lemma {:induction false} OneArrangement<T(!new)>(leq: (T, T) -> bool, all: multiset<T>, s: seq<T>, t: seq<T>)
    requires TotalOrder(leq)
    requires multiset(s) == all == multiset(t)
    ensures SortedBy(s, leq) && SortedBy(t, leq) ==> s == t
    decreases |all|
  {
    hide TotalOrder, SortedBy, Without;
    SameLength(s, t);
    if SortedBy(s, leq) && SortedBy(t, leq) && s != [] {
      var k := |s| - 1;
      SameLast(leq, s, t);
      WithoutLast(s, leq);
      WithoutLast(t, leq);
      OneArrangement(leq, all - multiset{s[k]}, Without(s, k), Without(t, k));
    }
  }

  // Mapping a function over two arrangements of the same elements.
  lemma {:induction false} MapPermutation<A, B>(f: A -> B, s: seq<A>, t: seq<A>, fs: seq<B>, ft: seq<B>)
    requires multiset(s) == multiset(t) && |fs| == |s| && |ft| == |t|
    requires forall i :: 0 <= i < |s| ==> fs[i] == f(s[i])
    requires forall i :: 0 <= i < |t| ==> ft[i] == f(t[i])
    ensures multiset(fs) == multiset(ft)
  {
    SameLength(s, t);
    if s != [] {
      var i := IndexOf(s[0], t, s);
      MapWithout(f, s, fs, 0);
      MapWithout(f, t, ft, i);
      hide Without;
      MapPermutation(f, Without(s, 0), Without(t, i), Without(fs, 0), Without(ft, i));
      Reinsert(fs, ft, 0, i);
    }
  }

  lemma SameLength<T>(s: seq<T>, t: seq<T>)
    requires multiset(s) == multiset(t)
    ensures |s| == |t|
  {
    assert |multiset(s)| == |multiset(t)|;
  }

  lemma IndexOf<T>(x: T, t: seq<T>, s: seq<T>) returns (i: nat)
    requires multiset(s) == multiset(t) && x in s
    ensures i < |t| && t[i] == x
  {
    assert x in multiset(t);
    i :| 0 <= i < |t| && t[i] == x;
  }

  lemma MapWithout<A, B>(f: A -> B, s: seq<A>, fs: seq<B>, i: nat)
    requires |fs| == |s| && i < |s| && forall j :: 0 <= j < |s| ==> fs[j] == f(s[j])
    ensures forall j :: 0 <= j < |s| - 1 ==> Without(fs, i)[j] == f(Without(s, i)[j])
  {
  }

  lemma Reinsert<T>(s: seq<T>, t: seq<T>, i: nat, j: nat)
    requires i < |s| && j < |t| && s[i] == t[j]
    requires multiset(Without(s, i)) == multiset(Without(t, j))
    ensures multiset(s) == multiset(t)
  {
    assert s[i] in multiset(s) && t[j] in multiset(t);
    assert multiset(s) == multiset(Without(s, i)) + multiset{s[i]};
    assert multiset(t) == multiset(Without(t, j)) + multiset{t[j]};
  }
}
