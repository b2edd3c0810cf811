/** Sequence operations the components use through JavaScript's array methods:
    `filter`, `[...new Set(...)]` and `join`, with the properties the rest of the
    model relies on. */
module Seqs {

  /** The elements of `s` that satisfy `p`, in their original order (`Array.prototype.filter`). */
  function Filter<T>(s: seq<T>, p: T -> bool): (r: seq<T>)
    ensures |r| <= |s|
    ensures forall i :: 0 <= i < |r| ==> r[i] in s && p(r[i])
    ensures forall i :: 0 <= i < |s| && p(s[i]) ==> s[i] in r
  {
    if |s| == 0 then []
    else if p(s[0]) then [s[0]] + Filter(s[1..], p)
    else Filter(s[1..], p)
  }

  /** `r` can be obtained from `s` by deleting elements, keeping the order of the rest. */
  predicate IsSubsequence<T(==)>(r: seq<T>, s: seq<T>)
    decreases |s|
  {
    |r| == 0 ||
    (|s| > 0 && ((r[0] == s[0] && IsSubsequence(r[1..], s[1..])) || IsSubsequence(r, s[1..])))
  }

  /** `filter` deletes elements and keeps the order of the others. */
  lemma {:induction false} FilterIsSubsequence<T>(s: seq<T>, p: T -> bool)
    ensures IsSubsequence(Filter(s, p), s)
  {
    if |s| > 0 {
      FilterIsSubsequence(s[1..], p);
      if p(s[0]) {
        assert Filter(s, p)[1..] == Filter(s[1..], p);
      }
    }
  }

  /** Filtering distributes over concatenation, so it keeps relative order. */
  lemma {:induction false} FilterConcat<T>(a: seq<T>, b: seq<T>, p: T -> bool)
    ensures Filter(a + b, p) == Filter(a, p) + Filter(b, p)
  {
    if |a| > 0 {
      assert (a + b)[0] == a[0];
      assert (a + b)[1..] == a[1..] + b;
      FilterConcat(a[1..], b, p);
    } else {
      assert a + b == b;
    }
  }

  /** A filter that every element passes keeps the whole sequence. */
  lemma {:induction false} FilterKeepsAll<T>(s: seq<T>, p: T -> bool)
    requires forall i :: 0 <= i < |s| ==> p(s[i])
    ensures Filter(s, p) == s
  {
    if |s| > 0 {
      FilterKeepsAll(s[1..], p);
      assert [s[0]] + s[1..] == s;
    }
  }

  /** Two predicates that agree on the elements of `s` select the same elements. */
  lemma {:induction false} FilterAgree<T>(s: seq<T>, p: T -> bool, q: T -> bool)
    requires forall i :: 0 <= i < |s| ==> p(s[i]) == q(s[i])
    ensures Filter(s, p) == Filter(s, q)
  {
    if |s| > 0 {
      FilterAgree(s[1..], p, q);
    }
  }

  /** Filtering by `p` and then by `q` is filtering once by their conjunction `pq`. */
  lemma {:induction false} FilterFilter<T>(s: seq<T>, p: T -> bool, q: T -> bool, pq: T -> bool)
    requires forall i :: 0 <= i < |s| ==> pq(s[i]) == (p(s[i]) && q(s[i]))
    ensures Filter(Filter(s, p), q) == Filter(s, pq)
  {
    if |s| > 0 {
      FilterFilter(s[1..], p, q, pq);
    }
  }

  /** Filtering keeps each element that passes as often as it occurs, and no other. */
  lemma {:induction false} FilterMultiset<T>(s: seq<T>, p: T -> bool)
    ensures forall x :: multiset(Filter(s, p))[x] == if p(x) then multiset(s)[x] else 0
  {
    if |s| > 0 {
      FilterMultiset(s[1..], p);
      assert s == [s[0]] + s[1..];
    }
  }

  /** The number of elements of `s` that satisfy `p` (`s.filter(p).length`). */
  function Count<T>(s: seq<T>, p: T -> bool): (n: nat)
    ensures n <= |s|
  {
    |Filter(s, p)|
  }

  /** 1 for true, 0 for false. */
  function Indicator(b: bool): nat {
    if b then 1 else 0
  }

  /** Counting from position `k` on: `s[k]` counts one if it satisfies `p`. */
  lemma CountStep<T>(s: seq<T>, k: nat, p: T -> bool)
    requires k < |s|
    ensures Count(s[k..], p) == Indicator(p(s[k])) + Count(s[k + 1..], p)
  {
    assert s[k..][1..] == s[k + 1..];
  }

  /** The positions of `s` whose element satisfies `p`. */
  ghost function Positions<T>(s: seq<T>, p: T -> bool): set<int> {
    set i | 0 <= i < |s| && p(s[i])
  }

  /** The count is the number of positions holding an element that satisfies `p`. */
  lemma CountIsPositions<T>(s: seq<T>, p: T -> bool)
    ensures Count(s, p) == |Positions(s, p)|
  {
    CountPrefixPositions(s, p, |s|);
    assert s[..|s|] == s;
  }

  lemma {:induction false} CountPrefixPositions<T>(s: seq<T>, p: T -> bool, n: nat)
    requires n <= |s|
    ensures Count(s[..n], p) == |set i | 0 <= i < n && p(s[i])|
  {
    var now := set i | 0 <= i < n && p(s[i]);
    if n == 0 {
      assert now == {};
    } else {
      CountPrefixPositions(s, p, n - 1);
      CountPrefixStep(s, p, n);
      PositionsStep(s, p, n);
    }
  }

  /** Extending the prefix by one element adds one to the count if it satisfies `p`. */
  lemma CountPrefixStep<T>(s: seq<T>, p: T -> bool, n: nat)
    requires 0 < n <= |s|
    ensures Count(s[..n], p) == Count(s[..n - 1], p) + Indicator(p(s[n - 1]))
  {
    assert s[..n] == s[..n - 1] + [s[n - 1]];
    FilterConcat(s[..n - 1], [s[n - 1]], p);
  }

  /** Extending the prefix by one element adds its position if it satisfies `p`. */
  lemma PositionsStep<T>(s: seq<T>, p: T -> bool, n: nat)
    requires 0 < n <= |s|
    ensures |set i | 0 <= i < n && p(s[i])| == |set i | 0 <= i < n - 1 && p(s[i])| + Indicator(p(s[n - 1]))
  {
    var now := set i | 0 <= i < n && p(s[i]);
    var before := set i | 0 <= i < n - 1 && p(s[i]);
    if p(s[n - 1]) {
      assert now == before + {n - 1};
    } else {
      assert now == before;
    }
  }

  /** Some element is counted exactly when some element satisfies `p`. */
  lemma CountPositiveIff<T>(s: seq<T>, p: T -> bool)
    ensures Count(s, p) > 0 <==> exists i :: 0 <= i < |s| && p(s[i])
  {
    var r := Filter(s, p);
    if |r| > 0 {
      var i :| 0 <= i < |s| && s[i] == r[0];
      assert p(s[i]);
    }
  }

  /** Three pairwise exclusive predicates count no more elements than there are. */
  lemma {:induction false} CountExclusive3<T>(s: seq<T>, p: T -> bool, q: T -> bool, r: T -> bool)
    requires forall i :: 0 <= i < |s| ==> !(p(s[i]) && q(s[i])) && !(p(s[i]) && r(s[i])) && !(q(s[i]) && r(s[i]))
    ensures Count(s, p) + Count(s, q) + Count(s, r) <= |s|
  {
    if |s| > 0 {
      CountExclusive3(s[1..], p, q, r);
    }
  }

  /** Two exclusive predicates together count what their disjunction `pq` counts. */
  lemma {:induction false} CountExclusiveUnion<T>(s: seq<T>, p: T -> bool, q: T -> bool, pq: T -> bool)
    requires forall i :: 0 <= i < |s| ==> !(p(s[i]) && q(s[i])) && pq(s[i]) == (p(s[i]) || q(s[i]))
    ensures Count(s, p) + Count(s, q) == Count(s, pq)
  {
    if |s| > 0 {
      CountExclusiveUnion(s[1..], p, q, pq);
    }
  }

  /** The index of the first occurrence of `x` in `s` (`Array.prototype.indexOf`). */
  function FirstIndex<T(==)>(s: seq<T>, x: T): (k: nat)
    requires x in s
    ensures k < |s| && s[k] == x && x !in s[..k]
  {
    if s[0] == x then 0
    else
      assert x in s[1..];
      var k := 1 + FirstIndex(s[1..], x);
      assert s[..k] == [s[0]] + s[1..][..k - 1];
      k
  }

  /** The first occurrence is the only position holding `x` with no earlier `x`. */
  lemma FirstIndexUnique<T>(s: seq<T>, x: T, k: nat)
    requires k < |s| && s[k] == x && x !in s[..k]
    ensures FirstIndex(s, x) == k
  {
    assert x in s;
  }

  predicate NoDuplicates<T(==)>(s: seq<T>) {
    forall i, j :: 0 <= i < j < |s| ==> s[i] != s[j]
  }

  /** The distinct elements of `s` in first-seen order (`[...new Set(s)]`). */
  function Distinct<T(==)>(s: seq<T>): (r: seq<T>)
    ensures NoDuplicates(r)
    ensures forall i :: 0 <= i < |r| ==> r[i] in s
    ensures forall i :: 0 <= i < |s| ==> s[i] in r
  {
    if |s| == 0 then []
    else
      var init := s[..|s| - 1];
      var d := Distinct(init);
      assert forall i :: 0 <= i < |s| - 1 ==> s[i] == init[i];
      if s[|s| - 1] in d then d else d + [s[|s| - 1]]
  }

  /** `Distinct` lists the values in the order of their first occurrence in `s`. */
  lemma {:induction false} DistinctFirstSeenOrder<T>(s: seq<T>, i: nat, j: nat)
    requires i < j < |Distinct(s)|
    ensures FirstIndex(s, Distinct(s)[i]) < FirstIndex(s, Distinct(s)[j])
  {
    var n := |s|;
    var init := s[..n - 1];
    var d := Distinct(init);
    var x, y := Distinct(s)[i], Distinct(s)[j];
    assert x in init by {
      assert x in d;
    }
    PrefixFirstIndex(s, x);
    if j < |d| {
      DistinctFirstSeenOrder(init, i, j);
      assert y in d;
      PrefixFirstIndex(s, y);
    } else {
      assert y == s[n - 1] && y !in init;
      assert s[..n - 1] == init;
      FirstIndexUnique(s, y, n - 1);
    }
  }

  /** A value of `s[..|s|-1]` first occurs in `s` where it first occurs in that prefix. */
  lemma PrefixFirstIndex<T>(s: seq<T>, x: T)
    requires |s| > 0 && x in s[..|s| - 1]
    ensures x in s && FirstIndex(s, x) == FirstIndex(s[..|s| - 1], x) < |s| - 1
  {
    var init := s[..|s| - 1];
    var k := FirstIndex(init, x);
    assert s[..k] == init[..k];
    FirstIndexUnique(s, x, k);
  }

  /** The parts joined with the separator between them (`Array.prototype.join`). */
  function Join(parts: seq<string>, sep: char): string {
    if |parts| == 0 then ""
    else if |parts| == 1 then parts[0]
    else parts[0] + [sep] + Join(parts[1..], sep)
  }

  /** The pieces of `s` between occurrences of `sep` (`String.prototype.split`). */
  function Split(s: string, sep: char): (r: seq<string>)
    ensures |r| >= 1
    ensures forall k :: 0 <= k < |r| ==> sep !in r[k]
    decreases |s|
  {
    if sep !in s then [s]
    else
      var i := FirstIndex(s, sep);
      [s[..i]] + Split(s[i + 1..], sep)
  }

  /** A character that is neither the separator nor in any part is not in the joined text. */
  lemma {:induction false} JoinAvoids(parts: seq<string>, sep: char, c: char)
    requires c != sep
    requires forall k :: 0 <= k < |parts| ==> c !in parts[k]
    ensures c !in Join(parts, sep)
  {
    if |parts| > 1 {
      JoinAvoids(parts[1..], sep, c);
    }
  }

  /** Splitting a joined line recovers its parts when no part holds the separator. */
  lemma {:induction false} SplitJoin(parts: seq<string>, sep: char)
    requires |parts| >= 1
    requires forall k :: 0 <= k < |parts| ==> sep !in parts[k]
    ensures Split(Join(parts, sep), sep) == parts
  {
    if |parts| > 1 {
      var p, rest := parts[0], parts[1..];
      assert [p] + rest == parts;
      JoinCons(p, rest, sep);
      var s := Join(parts, sep);
      assert s[|p|] == sep && s[..|p|] == p;
      FirstIndexUnique(s, sep, |p|);
      assert s[|p| + 1..] == Join(rest, sep);
      SplitJoin(rest, sep);
    }
  }

  /** Joining a part in front of a non-empty list puts the separator after it. */
  lemma JoinCons(p: string, rest: seq<string>, sep: char)
    requires |rest| >= 1
    ensures Join([p] + rest, sep) == p + [sep] + Join(rest, sep)
  {
    assert ([p] + rest)[1..] == rest;
  }

  /** The joined text starts with the first part, and the separator follows
      it when more parts come. */
  lemma JoinStartsWithFirst(parts: seq<string>, sep: char)
    requires |parts| >= 1
    ensures parts[0] <= Join(parts, sep)
    ensures |parts| == 1 ==> Join(parts, sep) == parts[0]
    ensures |parts| > 1 ==> |parts[0]| < |Join(parts, sep)| && Join(parts, sep)[|parts[0]|] == sep
  {
  }
}
