/**
 * `Array.prototype.sort((a, b) => a - b)` on processing times, as a
 * functional insertion sort over `seq<real>` with its specification: the
 * result is ascending and a permutation of the input.
 */
module Sorting {

  predicate SortedAsc(s: seq<real>) {
    forall i, j :: 0 <= i < j < |s| ==> s[i] <= s[j]
  }

  /** Insert `x` into an ascending sequence, before the first larger element. */
  function Insert(x: real, s: seq<real>): (r: seq<real>)
    requires SortedAsc(s)
    ensures SortedAsc(r)
    ensures multiset(r) == multiset(s) + multiset{x}
    ensures |r| == |s| + 1
    ensures r[0] == x || (|s| > 0 && r[0] == s[0])
  {
    if |s| == 0 then [x]
    else if x <= s[0] then [x] + s
    else
      var tail := Insert(x, s[1..]);
      assert s == [s[0]] + s[1..];
      ConsSorted(s[0], tail);
      [s[0]] + tail
  }

  /** A value at most the head of an ascending sequence can be put in front of it. */
  lemma ConsSorted(h: real, t: seq<real>)
    requires SortedAsc(t) && (|t| == 0 || h <= t[0])
    ensures SortedAsc([h] + t)
  {
    var r := [h] + t;
    forall i, j | 0 <= i < j < |r|
      ensures r[i] <= r[j]
    {
      if i > 0 {
        assert r[i] == t[i - 1] && r[j] == t[j - 1];
      } else {
        assert r[j] == t[j - 1];
      }
    }
  }

  /** The ascending permutation of `s`. */
  function Sort(s: seq<real>): (r: seq<real>)
    ensures SortedAsc(r)
    ensures multiset(r) == multiset(s)
    ensures |r| == |s|
  {
    if |s| == 0 then []
    else
      assert s == [s[0]] + s[1..];
      Insert(s[0], Sort(s[1..]))
  }

  /** A value of a sorted sequence is at most its last element. */
  lemma AtMostLast(r: seq<real>, v: real)
    requires SortedAsc(r) && v in r
    ensures v <= r[|r| - 1]
  {
    var j :| 0 <= j < |r| && r[j] == v;
  }

  /** Every element of the sorted copy is an element of the input, and the last one is a maximum. */
  lemma SortedElementsFromInput(s: seq<real>, i: nat)
    requires i < |s|
    ensures Sort(s)[i] in s
    ensures forall k :: 0 <= k < |s| ==> s[k] <= Sort(s)[|s| - 1]
  {
    var r := Sort(s);
    assert r[i] in multiset(s);
    forall k | 0 <= k < |s|
      ensures s[k] <= r[|s| - 1]
    {
      assert s[k] in multiset(r);
      AtMostLast(r, s[k]);
    }
  }

  /** `reduce((a, b) => a + b, 0)`. */
  function Sum(s: seq<real>): real {
    if |s| == 0 then 0.0 else s[0] + Sum(s[1..])
  }

  /** Inserting adds the inserted value to the total. */
  lemma {:induction false} SumInsert(x: real, s: seq<real>)
    requires SortedAsc(s)
    ensures Sum(Insert(x, s)) == x + Sum(s)
  {
    if |s| > 0 && x > s[0] {
      SumInsert(x, s[1..]);
      assert Insert(x, s)[1..] == Insert(x, s[1..]);
    } else if |s| > 0 {
      assert Insert(x, s)[1..] == s;
    }
  }

  /** Sorting keeps the total. */
  lemma {:induction false} SumSort(s: seq<real>)
    ensures Sum(Sort(s)) == Sum(s)
  {
    if |s| > 0 {
      SumSort(s[1..]);
      SumInsert(s[0], Sort(s[1..]));
    }
  }
}
