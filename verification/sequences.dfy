/** Generic sequence operations the pages rely on: `Array.prototype.filter`
    and the stable `Array.prototype.sort` with a descending numeric comparator
    (`(a, b) => key(b) - key(a)`). */
module Sequences {

  /** `s.filter(p)`: the elements satisfying `p`, in their original order. */
  function Filter<T>(s: seq<T>, p: T -> bool): (r: seq<T>)
    ensures |r| <= |s|
    ensures forall i :: 0 <= i < |r| ==> r[i] in s && p(r[i])
    ensures forall i :: 0 <= i < |s| && p(s[i]) ==> s[i] in r
  {
    if |s| == 0 then []
    else (if p(s[0]) then [s[0]] else []) + Filter(s[1..], p)
  }

  /** Filtering with two predicates that agree on every element gives the
      same result. */
  lemma {:induction false} FilterCongruent<T>(s: seq<T>, p: T -> bool, q: T -> bool)
    requires forall i :: 0 <= i < |s| ==> p(s[i]) == q(s[i])
    ensures Filter(s, p) == Filter(s, q)
  {
    if |s| > 0 {
      assert forall i :: 0 <= i < |s[1..]| ==> s[1..][i] == s[i + 1];
      FilterCongruent(s[1..], p, q);
    }
  }

  /** Filtering never repeats an element: each is kept at most as often as
      it occurs, and exactly as often when it satisfies the predicate. */
  lemma {:induction false} FilterCounts<T>(s: seq<T>, p: T -> bool)
    ensures multiset(Filter(s, p)) <= multiset(s)
    ensures forall x :: p(x) ==> multiset(Filter(s, p))[x] == multiset(s)[x]
  {
    if |s| > 0 {
      FilterCounts(s[1..], p);
      assert s == [s[0]] + s[1..];
      assert Filter(s, p) == (if p(s[0]) then [s[0]] else []) + Filter(s[1..], p);
    }
  }

  /** Filtering twice by the same predicate is filtering once. */
  lemma {:induction false} FilterIdempotent<T>(s: seq<T>, p: T -> bool)
    ensures Filter(Filter(s, p), p) == Filter(s, p)
  {
    if |s| > 0 {
      FilterIdempotent(s[1..], p);
      var r := Filter(s, p);
      if p(s[0]) {
        assert r == [s[0]] + Filter(s[1..], p);
        assert r[1..] == Filter(s[1..], p);
      } else {
        assert r == Filter(s[1..], p);
      }
    }
  }

  /** `a` is obtained from `b` by deleting elements without reordering the rest. */
  predicate IsSubsequence<T(==)>(a: seq<T>, b: seq<T>)
    decreases |b|
  {
    if |a| == 0 then true
    else if |b| == 0 then false
    else if a[0] == b[0] then IsSubsequence(a[1..], b[1..])
    else IsSubsequence(a, b[1..])
  }

  /** Every element's key is at least every later element's key. */
  predicate NonIncreasing<T>(s: seq<T>, key: T -> int) {
    forall i, j :: 0 <= i < j < |s| ==> key(s[i]) >= key(s[j])
  }

  /** Filtering only deletes elements: the result is a subsequence of the input. */
  lemma {:induction false} FilterIsSubsequence<T>(s: seq<T>, p: T -> bool)
    ensures IsSubsequence(Filter(s, p), s)
  {
    if |s| > 0 {
      FilterIsSubsequence(s[1..], p);
      var r := Filter(s, p);
      if p(s[0]) {
        assert r[1..] == Filter(s[1..], p);
      } else {
        assert r == Filter(s[1..], p);
        // r's head satisfies p and s[0] does not, so s[0] is skipped
        assert |r| > 0 ==> r[0] != s[0];
      }
    }
  }

  /** Every element of a subsequence occurs in the sequence. */
  lemma {:induction false} SubsequenceElements<T>(a: seq<T>, b: seq<T>)
    requires IsSubsequence(a, b)
    ensures forall x :: x in a ==> x in b
    decreases |b|
  {
    if |a| > 0 {
      if a[0] == b[0] {
        SubsequenceElements(a[1..], b[1..]);
        forall x | x in a ensures x in b {
          if x != a[0] { assert x in a[1..]; }
        }
      } else {
        SubsequenceElements(a, b[1..]);
      }
    }
  }

  /** Deleting elements cannot break a newest-first order. */
  lemma {:induction false} SubsequenceKeepsOrder<T>(a: seq<T>, b: seq<T>, key: T -> int)
    requires IsSubsequence(a, b)
    requires NonIncreasing(b, key)
    ensures NonIncreasing(a, key)
    decreases |b|
  {
    if |a| > 0 {
      if a[0] == b[0] {
        SubsequenceKeepsOrder(a[1..], b[1..], key);
        SubsequenceElements(a[1..], b[1..]);
        forall j | 0 < j < |a| ensures key(a[0]) >= key(a[j]) {
          assert a[j] in a[1..];
          var k :| 0 <= k < |b[1..]| && b[1..][k] == a[j];
          assert b[k + 1] == a[j];
        }
      } else {
        SubsequenceKeepsOrder(a, b[1..], key);
      }
    }
  }

  /** Deleting elements cannot break a strictly ascending order. */
  lemma {:induction false} FilterKeepsAscending<T>(s: seq<T>, p: T -> bool, id: T -> int)
    requires StrictlyAscending(s, id)
    ensures StrictlyAscending(Filter(s, p), id)
  {
    if |s| > 0 {
      var tail := s[1..];
      TailAscending(s, id);
      FilterKeepsAscending(tail, p, id);
      var rest := Filter(tail, p);
      if p(s[0]) {
        AboveHead(s, rest, id);
        ConsAscending(s[0], rest, id);
        assert Filter(s, p) == [s[0]] + rest;
      } else {
        assert Filter(s, p) == rest;
      }
    }
  }

  lemma TailAscending<T>(s: seq<T>, id: T -> int)
    requires |s| > 0 && StrictlyAscending(s, id)
    ensures StrictlyAscending(s[1..], id)
  {
    forall i, j | 0 <= i < j < |s[1..]| ensures id(s[1..][i]) < id(s[1..][j]) {
      assert s[1..][i] == s[i + 1] && s[1..][j] == s[j + 1];
    }
  }

  lemma AboveHead<T>(s: seq<T>, rest: seq<T>, id: T -> int)
    requires |s| > 0 && StrictlyAscending(s, id)
    requires forall i :: 0 <= i < |rest| ==> rest[i] in s[1..]
    ensures forall i :: 0 <= i < |rest| ==> id(s[0]) < id(rest[i])
  {
    forall i | 0 <= i < |rest| ensures id(s[0]) < id(rest[i]) {
      var k :| 0 <= k < |s[1..]| && s[1..][k] == rest[i];
      assert s[k + 1] == rest[i];
    }
  }

  lemma ConsAscending<T>(x: T, rest: seq<T>, id: T -> int)
    requires StrictlyAscending(rest, id)
    requires forall i :: 0 <= i < |rest| ==> id(x) < id(rest[i])
    ensures StrictlyAscending([x] + rest, id)
  {
    var r := [x] + rest;
    forall i, j | 0 <= i < j < |r| ensures id(r[i]) < id(r[j]) {
      assert r[j] == rest[j - 1];
      if i > 0 {
        assert r[i] == rest[i - 1];
      }
    }
  }

  /** Inserts `x` into a newest-first sequence in front of every element whose
      key does not exceed `key(x)`. */
  function Insert<T>(x: T, s: seq<T>, key: T -> int): (r: seq<T>)
    requires NonIncreasing(s, key)
    ensures NonIncreasing(r, key)
    ensures multiset(r) == multiset(s) + multiset{x}
    ensures |r| == |s| + 1
    ensures r[0] == x || (|s| > 0 && r[0] == s[0])
  {
    if |s| == 0 || key(x) >= key(s[0]) then [x] + s
    else
      var rest := Insert(x, s[1..], key);
      assert s == [s[0]] + s[1..];
      assert key(s[0]) >= key(rest[0]);
      assert forall j :: 0 <= j < |rest| ==> key(rest[0]) >= key(rest[j]);
      [s[0]] + rest
  }

  /** `s.sort((a, b) => key(b) - key(a))`: a stable sort, largest key first. */
  function SortDesc<T>(s: seq<T>, key: T -> int): (r: seq<T>)
    ensures NonIncreasing(r, key)
    ensures multiset(r) == multiset(s)
    ensures |r| == |s|
  {
    if |s| == 0 then []
    else
      assert s == [s[0]] + s[1..];
      Insert(s[0], SortDesc(s[1..], key), key)
  }

  /** Sorting keeps exactly the same elements. */
  lemma SortDescSameElements<T>(s: seq<T>, key: T -> int)
    ensures forall x :: x in SortDesc(s, key) <==> x in s
  {
    var r := SortDesc(s, key);
    forall x ensures x in r <==> x in s {
      assert x in r <==> x in multiset(r);
      assert x in s <==> x in multiset(s);
    }
  }

  /** Ordered by `key` descending, ties broken by `id` ascending. */
  predicate RankedBy<T>(s: seq<T>, key: T -> int, id: T -> int) {
    forall i, j :: 0 <= i < j < |s| ==>
      key(s[i]) > key(s[j]) || (key(s[i]) == key(s[j]) && id(s[i]) < id(s[j]))
  }

  predicate StrictlyAscending<T>(s: seq<T>, id: T -> int) {
    forall i, j :: 0 <= i < j < |s| ==> id(s[i]) < id(s[j])
  }

  /** Inserting an element whose `id` is below every id present keeps a ranking. */
  lemma {:induction false} InsertKeepsRanking<T>(x: T, s: seq<T>, key: T -> int, id: T -> int)
    requires NonIncreasing(s, key)
    requires RankedBy(s, key, id)
    requires forall y :: y in s ==> id(x) < id(y)
    ensures RankedBy(Insert(x, s, key), key, id)
  {
    if |s| == 0 || key(x) >= key(s[0]) {
    } else {
      var rest := Insert(x, s[1..], key);
      InsertKeepsRanking(x, s[1..], key, id);
      assert Insert(x, s, key) == [s[0]] + rest;
      forall y | y in rest ensures y == x || y in s[1..] {
        assert y in multiset(rest);
      }
      forall j | 0 <= j < |rest|
        ensures key(s[0]) > key(rest[j])
             || (key(s[0]) == key(rest[j]) && id(s[0]) < id(rest[j]))
      {
        assert rest[j] in rest;
        if rest[j] != x {
          var k :| 0 <= k < |s[1..]| && s[1..][k] == rest[j];
          assert s[k + 1] == rest[j];
        }
      }
    }
  }

  /** The stable sort applied to a sequence in ascending `id` order ranks it by
      `key` descending with ties in ascending `id`. This is how equal keys are
      ordered after a stable sort of `Object.entries` over integer-like keys. */
  lemma {:induction false} StableSortRanks<T>(s: seq<T>, key: T -> int, id: T -> int)
    requires StrictlyAscending(s, id)
    ensures RankedBy(SortDesc(s, key), key, id)
  {
    if |s| > 0 {
      StableSortRanks(s[1..], key, id);
      var sorted := SortDesc(s[1..], key);
      forall y | y in sorted ensures id(s[0]) < id(y) {
        assert y in multiset(sorted);
        assert y in multiset(s[1..]);
        var k :| 0 <= k < |s[1..]| && s[1..][k] == y;
        assert s[k + 1] == y;
      }
      InsertKeepsRanking(s[0], sorted, key, id);
    }
  }
}
