/**
 * Order-preserving selections over sequences: the shape of LINQ's
 * `Where(...).Select(...)` and of a `foreach` that appends the qualifying
 * elements to a fresh list.
 */
module Seqs {
  import opened Wrappers

  /** The elements of `s` satisfying `keep`, in order. */
  function Filter<T>(s: seq<T>, keep: T -> bool): (r: seq<T>)
    ensures |r| <= |s|
  {
    if s == [] then []
    else (if keep(s[0]) then [s[0]] else []) + Filter(s[1..], keep)
  }

  /** The filtered sequence holds exactly the elements of `s` that satisfy `keep`. */
  lemma {:induction false} FilterMembers<T>(s: seq<T>, keep: T -> bool)
    ensures forall x :: x in Filter(s, keep) <==> x in s && keep(x)
  {
    if s != [] {
      FilterMembers(s[1..], keep);
      assert s == [s[0]] + s[1..];
    }
  }

  /** `f` of each element of `s` satisfying `keep`, in order. */
  function SelectMap<T, U>(s: seq<T>, keep: T -> bool, f: T -> U): (r: seq<U>)
  {
    if s == [] then []
    else (if keep(s[0]) then [f(s[0])] else []) + SelectMap(s[1..], keep, f)
  }

  /** How many elements of `s` satisfy `keep`. */
  function Count<T>(s: seq<T>, keep: T -> bool): nat {
    if s == [] then 0 else (if keep(s[0]) then 1 else 0) + Count(s[1..], keep)
  }

  /**
   * `r` is an order-preserving selection of `s`: `idx` lists selected
   * indices, strictly increasing, each of an element satisfying `keep`, with
   * `r[k]` being `f` of element `idx[k]`; and there are as many of them as
   * elements satisfying `keep`, so every such element is selected.
   */
  ghost predicate IsSelection<T, U>(s: seq<T>, keep: T -> bool, f: T -> U, r: seq<U>, idx: seq<int>) {
    && |idx| == |r| == Count(s, keep)
    && (forall k :: 0 <= k < |idx| ==> 0 <= idx[k] < |s| && keep(s[idx[k]]) && r[k] == f(s[idx[k]]))
    && (forall k, m :: 0 <= k < m < |idx| ==> idx[k] < idx[m])
  }

  /** Every index one further on. */
  function Shifted(idx: seq<int>): (r: seq<int>)
    ensures |r| == |idx| && forall k :: 0 <= k < |idx| ==> r[k] == idx[k] + 1
  {
    if idx == [] then [] else [idx[0] + 1] + Shifted(idx[1..])
  }

  lemma ShiftSound<T, U>(s: seq<T>, keep: T -> bool, f: T -> U, rt: seq<U>, tail: seq<int>)
    requires s != [] && IsSelection(s[1..], keep, f, rt, tail)
    ensures forall k :: 0 <= k < |tail| ==>
              1 <= Shifted(tail)[k] < |s| && keep(s[Shifted(tail)[k]]) && rt[k] == f(s[Shifted(tail)[k]])
    ensures forall k, m :: 0 <= k < m < |tail| ==> Shifted(tail)[k] < Shifted(tail)[m]
  {
    var shifted := Shifted(tail);
    var t := s[1..];
    forall k | 0 <= k < |shifted|
      ensures 1 <= shifted[k] < |s| && keep(s[shifted[k]]) && rt[k] == f(s[shifted[k]])
    {
      assert 0 <= tail[k] < |t| && keep(t[tail[k]]) && rt[k] == f(t[tail[k]]);
      assert shifted[k] == tail[k] + 1;
      assert t[tail[k]] == s[shifted[k]];
    }
    forall k, m | 0 <= k < m < |shifted|
      ensures shifted[k] < shifted[m]
    {
      assert tail[k] < tail[m];
      assert shifted[k] == tail[k] + 1 && shifted[m] == tail[m] + 1;
    }
  }

  lemma KeepHead<T, U>(s: seq<T>, keep: T -> bool, f: T -> U, rt: seq<U>, tail: seq<int>)
    requires s != [] && keep(s[0]) && IsSelection(s[1..], keep, f, rt, tail)
    ensures IsSelection(s, keep, f, [f(s[0])] + rt, [0] + Shifted(tail))
  {
    ShiftSound(s, keep, f, rt, tail);
    var shifted := Shifted(tail);
    var idx := [0] + shifted;
    var r := [f(s[0])] + rt;
    forall k | 0 <= k < |idx|
      ensures 0 <= idx[k] < |s| && keep(s[idx[k]]) && r[k] == f(s[idx[k]])
    {
      if k > 0 {
        assert idx[k] == shifted[k - 1] && r[k] == rt[k - 1];
      }
    }
    forall k, m | 0 <= k < m < |idx|
      ensures idx[k] < idx[m]
    {
      assert idx[m] == shifted[m - 1];
      if k > 0 {
        assert idx[k] == shifted[k - 1];
      }
    }
  }

  lemma SkipHead<T, U>(s: seq<T>, keep: T -> bool, f: T -> U, rt: seq<U>, tail: seq<int>)
    requires s != [] && !keep(s[0]) && IsSelection(s[1..], keep, f, rt, tail)
    ensures IsSelection(s, keep, f, rt, Shifted(tail))
  {
    ShiftSound(s, keep, f, rt, tail);
  }

  /** `SelectMap` keeps exactly the qualifying elements, in their original order. */
  lemma {:induction false} SelectMapIsOrderedSelection<T, U>(s: seq<T>, keep: T -> bool, f: T -> U)
    returns (idx: seq<int>)
    ensures IsSelection(s, keep, f, SelectMap(s, keep, f), idx)
  {
    if s == [] {
      idx := [];
    } else {
      var tail := SelectMapIsOrderedSelection(s[1..], keep, f);
      if keep(s[0]) {
        KeepHead(s, keep, f, SelectMap(s[1..], keep, f), tail);
        idx := [0] + Shifted(tail);
      } else {
        SkipHead(s, keep, f, SelectMap(s[1..], keep, f), tail);
        idx := Shifted(tail);
      }
    }
  }

  /** The first element of `s` satisfying `p`: an early-return search loop's answer. */
  function FirstMatch<T>(s: seq<T>, p: T -> bool): (r: Option<T>)
    ensures r.Some? ==> exists i :: 0 <= i < |s| && s[i] == r.value && p(s[i]) && NoneBefore(s, p, i)
    ensures r.None? ==> forall i :: 0 <= i < |s| ==> !p(s[i])
  {
    if s == [] then None
    else if p(s[0]) then
      assert NoneBefore(s, p, 0);
      Some(s[0])
    else
      var r := FirstMatch(s[1..], p);
      assert forall i :: 1 <= i < |s| ==> s[i] == s[1..][i - 1];
      assert r.Some? ==> exists i :: 0 <= i < |s| && s[i] == r.value && p(s[i]) && NoneBefore(s, p, i) by {
        if r.Some? {
          var i :| 0 <= i < |s[1..]| && s[1..][i] == r.value && p(s[1..][i]) && NoneBefore(s[1..], p, i);
          assert NoneBefore(s, p, i + 1);
        }
      }
      r
  }

  /** No element before index `i` satisfies `p`. */
  predicate NoneBefore<T>(s: seq<T>, p: T -> bool, i: int)
    requires 0 <= i <= |s|
  {
    forall j :: 0 <= j < i ==> !p(s[j])
  }

  /**
   * The index a stable `OrderBy(key).First()` picks: a minimum of `key`,
   * and the earliest of the minima.
   */
  function ArgMin<T>(s: seq<T>, key: T -> nat): (i: nat)
    requires |s| > 0
    ensures i < |s|
    ensures forall j :: 0 <= j < |s| ==> key(s[i]) <= key(s[j])
    ensures forall j :: 0 <= j < i ==> key(s[j]) > key(s[i])
    decreases |s|
  {
    if |s| == 1 then 0
    else
      var k := ArgMin(s[1..], key) + 1;
      assert forall j :: 1 <= j < |s| ==> s[j] == s[1..][j - 1];
      if key(s[0]) <= key(s[k]) then 0 else k
  }
}
