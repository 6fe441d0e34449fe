/** `Array.prototype.sort` with the comparator `(a, b) => a - b`, as runMonteCarlo uses it
    (src/lib/trading.ts:168). The engine's algorithm is not the program's own; the model is the
    function every ascending sort computes, written as an insertion sort. */
module Sorting {

  ghost predicate Sorted(s: seq<real>)
  {
    forall i, j :: 0 <= i < j < |s| ==> s[i] <= s[j]
  }

  function Insert(x: real, s: seq<real>): seq<real>
  {
    if |s| == 0 then [x]
    else if x <= s[0] then [x] + s
    else [s[0]] + Insert(x, s[1..])
  }

  function SortAscending(s: seq<real>): seq<real>
  {
    if |s| == 0 then [] else Insert(s[0], SortAscending(s[1..]))
  }

  lemma {:induction false} InsertPermutes(x: real, s: seq<real>)
    ensures multiset(Insert(x, s)) == multiset(s) + multiset{x}
    ensures |Insert(x, s)| == |s| + 1
  {
    if |s| > 0 && x > s[0] {
      InsertPermutes(x, s[1..]);
      assert s == [s[0]] + s[1..];
    }
  }

  lemma SortedCons(a: real, r: seq<real>)
    requires Sorted(r) && forall k :: 0 <= k < |r| ==> a <= r[k]
    ensures Sorted([a] + r)
  {
    var t := [a] + r;
    forall i, j | 0 <= i < j < |t|
      ensures t[i] <= t[j]
    {
      if i > 0 { assert t[i] == r[i - 1] && t[j] == r[j - 1]; }
    }
  }

  lemma {:induction false} InsertSorted(x: real, s: seq<real>)
    requires Sorted(s)
    ensures Sorted(Insert(x, s))
  {
    if |s| > 0 {
      if x <= s[0] {
        SortedCons(x, s);
      } else {
        var tail := s[1..];
        assert Sorted(tail);
        InsertSorted(x, tail);
        InsertPermutes(x, tail);
        var r := Insert(x, tail);
        forall k | 0 <= k < |r|
          ensures s[0] <= r[k]
        {
          assert r[k] in multiset(tail) + multiset{x};
          if r[k] != x {
            assert r[k] in tail;
          }
        }
        SortedCons(s[0], r);
      }
    }
  }

  /** The sort returns an ascending permutation of its input. */
  lemma {:induction false} SortAscendingCorrect(s: seq<real>)
    ensures Sorted(SortAscending(s))
    ensures multiset(SortAscending(s)) == multiset(s)
    ensures |SortAscending(s)| == |s|
  {
    if |s| > 0 {
      var rest := SortAscending(s[1..]);
      SortAscendingCorrect(s[1..]);
      InsertSorted(s[0], rest);
      InsertPermutes(s[0], rest);
      assert SortAscending(s) == Insert(s[0], rest);
      assert s == [s[0]] + s[1..];
      assert multiset(s) == multiset(s[1..]) + multiset{s[0]};
    }
  }

  /** A sorted permutation is unique: any correct ascending sort gives the same sequence. */
  lemma {:induction false} SortedPermutationUnique(a: seq<real>, b: seq<real>)
    requires Sorted(a) && Sorted(b) && multiset(a) == multiset(b)
    ensures a == b
  {
    if |a| > 0 {
      assert |b| == |multiset(b)| == |a|;
      assert a[0] in multiset(b);
      assert b[0] in multiset(a);
      MinOfSorted(a, b[0]);
      MinOfSorted(b, a[0]);
      assert a[0] == b[0];
      assert a == [a[0]] + a[1..];
      assert b == [b[0]] + b[1..];
      assert multiset(a) == multiset{a[0]} + multiset(a[1..]);
      assert multiset(b) == multiset{a[0]} + multiset(b[1..]);
      assert multiset(a[1..]) == multiset(a) - multiset{a[0]};
      assert multiset(b[1..]) == multiset(b) - multiset{a[0]};
      SortedPermutationUnique(a[1..], b[1..]);
    }
  }

  lemma MinOfSorted(s: seq<real>, x: real)
    requires Sorted(s) && x in multiset(s)
    ensures |s| > 0 && s[0] <= x
  {
    var k :| 0 <= k < |s| && s[k] == x;
  }
}
