/** Rust's stable `sort` on a vector, for an ordering the caller supplies.
    `leq(a, b)` is "a does not sort after b"; Rust's `Ord` contract makes it a
    total preorder. */
module Sorting {

  ghost predicate TotalPreorder<T(!new)>(leq: (T, T) -> bool) {
    && (forall a, b :: leq(a, b) || leq(b, a))
    && (forall a, b, c :: leq(a, b) && leq(b, c) ==> leq(a, c))
  }

  predicate Sorted<T>(s: seq<T>, leq: (T, T) -> bool) {
    forall i, j :: 0 <= i < j < |s| ==> leq(s[i], s[j])
  }

  /** Inserts `x` before the first element it does not sort after. */
  function Insert<T(!new)>(x: T, s: seq<T>, leq: (T, T) -> bool): (r: seq<T>)
    requires TotalPreorder(leq)
    ensures multiset(r) == multiset(s) + multiset{x}
    ensures |r| == |s| + 1
    ensures r[0] == x || (s != [] && r[0] == s[0])
    ensures Sorted(s, leq) ==> Sorted(r, leq)
    decreases |s|, 1
  {
    if s == [] then [x]
    else if leq(x, s[0]) then [x] + s
    else
      assert s == [s[0]] + s[1..];
      var r := [s[0]] + Insert(x, s[1..], leq);
      if Sorted(s, leq) then InsertBehind(x, s, leq); r else r
  }

  /** When `x` goes after the head of a sorted `s`, the head stays in front. */
  lemma InsertBehind<T(!new)>(x: T, s: seq<T>, leq: (T, T) -> bool)
    requires TotalPreorder(leq) && s != [] && !leq(x, s[0]) && Sorted(s, leq)
    ensures Sorted([s[0]] + Insert(x, s[1..], leq), leq)
    decreases |s|, 0
  {
    var t := Insert(x, s[1..], leq);
    forall k | 0 <= k < |t| ensures leq(s[0], t[k]) {
      assert t[k] in multiset(s[1..]) + multiset{x} by { assert t[k] in multiset(t); }
      if t[k] != x {
        assert t[k] in s[1..];
      }
    }
  }

  /** Insertion sort: sorted, and a permutation of its input. */
  function Sort<T(!new)>(s: seq<T>, leq: (T, T) -> bool): (r: seq<T>)
    requires TotalPreorder(leq)
    ensures multiset(r) == multiset(s)
    ensures |r| == |s|
    ensures Sorted(r, leq)
  {
    if s == [] then []
    else
      assert s == [s[0]] + s[1..];
      Insert(s[0], Sort(s[1..], leq), leq)
  }
}
