/**
 * The JavaScript array operations that both copies of the task list are
 * built from: `filter`, `findIndex`, `find`, `splice` and the sortable
 * library's `arrayMove`, each as a function on sequences.
 */
module Seqs {
  import opened Wrappers

  /** `Array.prototype.filter`: the elements that satisfy `p`, in their original order. */
  function Filter<T>(s: seq<T>, p: T -> bool): (r: seq<T>)
    ensures |r| <= |s|
    ensures forall i :: 0 <= i < |r| ==> p(r[i])
  {
    if s == [] then [] else (if p(s[0]) then [s[0]] else []) + Filter(s[1..], p)
  }

  /** The negation of a predicate, for the complement of a filter. */
  function Not<T>(p: T -> bool): T -> bool {
    x => !p(x)
  }

  /** Filtering distributes over concatenation, so a filter keeps relative order. */
  lemma {:induction false} FilterAppend<T>(a: seq<T>, b: seq<T>, p: T -> bool)
    ensures Filter(a + b, p) == Filter(a, p) + Filter(b, p)
  {
    if a == [] {
      assert a + b == b;
    } else {
      assert (a + b)[1..] == a[1..] + b;
      FilterAppend(a[1..], b, p);
    }
  }

  /** A filter keeps each element that passes as often as it occurs, and drops the others. */
  lemma {:induction false} FilterCount<T>(s: seq<T>, p: T -> bool, x: T)
    ensures multiset(Filter(s, p))[x] == if p(x) then multiset(s)[x] else 0
  {
    if s != [] {
      FilterCount(s[1..], p, x);
      var head := if p(s[0]) then [s[0]] else [];
      assert Filter(s, p) == head + Filter(s[1..], p);
      assert multiset(Filter(s, p)) == multiset(head) + multiset(Filter(s[1..], p));
      assert multiset(s) == multiset([s[0]]) + multiset(s[1..]) by {
        assert s == [s[0]] + s[1..];
      }
    }
  }

  /** A filter and its complement split the sequence between them. */
  lemma {:induction false} FilterComplement<T>(s: seq<T>, p: T -> bool)
    ensures multiset(Filter(s, p)) + multiset(Filter(s, Not(p))) == multiset(s)
    ensures |Filter(s, p)| + |Filter(s, Not(p))| == |s|
  {
    if s != [] {
      FilterComplement(s[1..], p);
      assert s == [s[0]] + s[1..];
    }
  }

  /** A filter that every element passes returns the sequence itself. */
  lemma {:induction false} FilterKeepsAll<T>(s: seq<T>, p: T -> bool)
    requires forall i :: 0 <= i < |s| ==> p(s[i])
    ensures Filter(s, p) == s
  {
    if s != [] {
      FilterKeepsAll(s[1..], p);
    }
  }

  /** A filter that no element passes returns nothing. */
  lemma {:induction false} FilterKeepsNone<T>(s: seq<T>, p: T -> bool)
    requires forall i :: 0 <= i < |s| ==> !p(s[i])
    ensures Filter(s, p) == []
  {
    if s != [] {
      FilterKeepsNone(s[1..], p);
    }
  }

  /** Exactly one of three conditions holds. */
  predicate ExactlyOne(a: bool, b: bool, c: bool) {
    (a && !b && !c) || (!a && b && !c) || (!a && !b && c)
  }

  /** Three filters whose conditions are exclusive and exhaustive on `s` partition it. */
  lemma FilterPartition3<T>(s: seq<T>, p: T -> bool, q: T -> bool, u: T -> bool)
    requires forall i :: 0 <= i < |s| ==> ExactlyOne(p(s[i]), q(s[i]), u(s[i]))
    ensures |Filter(s, p)| + |Filter(s, q)| + |Filter(s, u)| == |s|
    ensures multiset(Filter(s, p)) + multiset(Filter(s, q)) + multiset(Filter(s, u)) == multiset(s)
  {
    PartitionMultiset(s, p, q, u);
    var whole := multiset(Filter(s, p)) + multiset(Filter(s, q)) + multiset(Filter(s, u));
    assert |whole| == |Filter(s, p)| + |Filter(s, q)| + |Filter(s, u)|;
  }

  /** The multiset half of `FilterPartition3`, by induction on `s`. */
  lemma {:induction false} PartitionMultiset<T>(s: seq<T>, p: T -> bool, q: T -> bool, u: T -> bool)
    requires forall i :: 0 <= i < |s| ==> ExactlyOne(p(s[i]), q(s[i]), u(s[i]))
    ensures multiset(Filter(s, p)) + multiset(Filter(s, q)) + multiset(Filter(s, u)) == multiset(s)
  {
    if s != [] {
      PartitionMultiset(s[1..], p, q, u);
      assert s == [s[0]] + s[1..];
    }
  }

  /** `Array.prototype.findIndex`: the first position whose element satisfies `p`, or -1. */
  function FirstIndex<T>(s: seq<T>, p: T -> bool): (r: int)
    ensures -1 <= r < |s|
    ensures r == -1 <==> forall i :: 0 <= i < |s| ==> !p(s[i])
    ensures 0 <= r ==> p(s[r]) && forall i :: 0 <= i < r ==> !p(s[i])
  {
    if s == [] then -1
    else if p(s[0]) then 0
    else
      var k := FirstIndex(s[1..], p);
      if k == -1 then -1 else k + 1
  }

  /** `Array.prototype.find`: the first element that satisfies `p`, if there is one. */
  function Find<T>(s: seq<T>, p: T -> bool): (r: Option<T>)
    ensures r.None? <==> forall i :: 0 <= i < |s| ==> !p(s[i])
    ensures r.Some? ==> 0 <= FirstIndex(s, p) && r.value == s[FirstIndex(s, p)] && p(r.value)
  {
    var k := FirstIndex(s, p);
    if k == -1 then None else Some(s[k])
  }

  /** `s.splice(i, 1)`: the sequence without its element at `i`. */
  function RemoveAt<T>(s: seq<T>, i: nat): (r: seq<T>)
    requires i < |s|
    ensures |r| == |s| - 1
    ensures forall j :: 0 <= j < i ==> r[j] == s[j]
    ensures forall j :: i <= j < |r| ==> r[j] == s[j + 1]
    ensures multiset(r) + multiset{s[i]} == multiset(s)
  {
    assert s == s[..i] + [s[i]] + s[i + 1..];
    s[..i] + s[i + 1..]
  }

  /** `s.splice(i, 0, x)`: the sequence with `x` inserted before position `i`. */
  function InsertAt<T>(s: seq<T>, i: nat, x: T): (r: seq<T>)
    requires i <= |s|
    ensures |r| == |s| + 1 && r[i] == x
    ensures forall j :: 0 <= j < i ==> r[j] == s[j]
    ensures forall j :: i < j < |r| ==> r[j] == s[j - 1]
    ensures multiset(r) == multiset(s) + multiset{x}
  {
    assert s == s[..i] + s[i..];
    s[..i] + [x] + s[i..]
  }

  /**
   * `arrayMove(s, from, to)` of the sortable library: take the element at
   * `from` out and put it back so that it ends up at index `to`.
   */
  function ArrayMove<T>(s: seq<T>, from: nat, to: nat): (r: seq<T>)
    requires from < |s| && to < |s|
    ensures |r| == |s| && r[to] == s[from]
    ensures multiset(r) == multiset(s)
  {
    InsertAt(RemoveAt(s, from), to, s[from])
  }

  /**
   * Where every element ends up after `ArrayMove`: the elements strictly
   * between the two indices shift by one towards `from`, the rest stay.
   */
  lemma ArrayMoveAt<T>(s: seq<T>, from: nat, to: nat, k: nat)
    requires from < |s| && to < |s| && k < |s|
    ensures ArrayMove(s, from, to)[k] ==
      if k == to then s[from]
      else if from <= k < to then s[k + 1]
      else if to < k <= from then s[k - 1]
      else s[k]
  {
    var rest := RemoveAt(s, from);
    assert ArrayMove(s, from, to) == InsertAt(rest, to, s[from]);
  }

  /** Moving an element onto its own index changes nothing. */
  lemma ArrayMoveInPlace<T>(s: seq<T>, i: nat)
    requires i < |s|
    ensures ArrayMove(s, i, i) == s
  {
    forall k | 0 <= k < |s| ensures ArrayMove(s, i, i)[k] == s[k] {
      ArrayMoveAt(s, i, i, k);
    }
  }
}
