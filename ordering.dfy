/** Sorting by an integer key, as `.sort({ field: 1 })` on a query and
    `Array.prototype.sort` with a subtracting comparator do. A descending
    sort is an ascending sort by the negated key. */
module Ordering {
  import Seqs

  predicate SortedBy<T>(s: seq<T>, key: T -> int) {
    forall i, j :: 0 <= i < j < |s| ==> key(s[i]) <= key(s[j])
  }

  /** Inserts `x` after every element whose key is not greater. */
  function Insert<T(==)>(x: T, s: seq<T>, key: T -> int): (r: seq<T>)
    ensures |r| == |s| + 1
    ensures multiset(r) == multiset(s) + multiset{x}
    ensures forall i :: 0 <= i < |r| ==> r[i] == x || r[i] in s
  {
    if |s| == 0 then [x]
    else if key(x) < key(s[0]) then [x] + s
    else
      assert s == [s[0]] + s[1..];
      [s[0]] + Insert(x, s[1..], key)
  }

  lemma {:induction false} InsertSorted<T>(x: T, s: seq<T>, key: T -> int)
    requires SortedBy(s, key)
    ensures SortedBy(Insert(x, s, key), key)
  {
    if |s| > 0 && key(x) >= key(s[0]) {
      InsertSorted(x, s[1..], key);
      var rest := Insert(x, s[1..], key);
      forall i | 0 <= i < |rest| ensures key(s[0]) <= key(rest[i]) {
        if rest[i] != x {
          var k :| 0 <= k < |s[1..]| && s[1..][k] == rest[i];
          assert s[k + 1] == rest[i];
        }
      }
    }
  }

  /** Insertion sort: a sorted permutation of `s`. */
  function SortBy<T(==)>(s: seq<T>, key: T -> int): (r: seq<T>)
    ensures |r| == |s|
    ensures SortedBy(r, key)
    ensures multiset(r) == multiset(s)
  {
    if |s| == 0 then []
    else
      assert s == s[..|s| - 1] + [s[|s| - 1]];
      InsertSorted(s[|s| - 1], SortBy(s[..|s| - 1], key), key);
      Insert(s[|s| - 1], SortBy(s[..|s| - 1], key), key)
  }

  /** The elements whose key is `k`. */
  function KeyIs<T>(key: T -> int, k: int): T -> bool {
    x => key(x) == k
  }

  /** `x` lands after the elements of a sorted `s` with its key. */
  lemma {:induction false} InsertKeepsTies<T>(x: T, s: seq<T>, key: T -> int, k: int)
    requires SortedBy(s, key)
    ensures Seqs.Filter(Insert(x, s, key), KeyIs(key, k))
         == Seqs.Filter(s, KeyIs(key, k)) + (if key(x) == k then [x] else [])
  {
    var p := KeyIs(key, k);
    if |s| == 0 {
    } else if key(x) < key(s[0]) {
      assert ([x] + s)[1..] == s;
      if key(x) == k {
        Seqs.FilterNone(s, p);
      }
    } else {
      InsertKeepsTies(x, s[1..], key, k);
      assert ([s[0]] + Insert(x, s[1..], key))[1..] == Insert(x, s[1..], key);
    }
  }

  /** The sort is stable: the elements sharing a key keep their order. */
  lemma {:induction false} SortByStable<T>(s: seq<T>, key: T -> int, k: int)
    ensures Seqs.Filter(SortBy(s, key), KeyIs(key, k)) == Seqs.Filter(s, KeyIs(key, k))
  {
    if |s| > 0 {
      var init, last := s[..|s| - 1], s[|s| - 1];
      SortByStable(init, key, k);
      SortByLast(s, key);
      InsertKeepsTies(last, SortBy(init, key), key, k);
      FilterLast(s, KeyIs(key, k));
    }
  }

  /** Sorting a non-empty sequence inserts its last element into the
      sorted rest. */
  lemma SortByLast<T>(s: seq<T>, key: T -> int)
    requires |s| > 0
    ensures SortBy(s, key) == Insert(s[|s| - 1], SortBy(s[..|s| - 1], key), key)
  {
  }

  /** Filtering a non-empty sequence filters all but the last element,
      then the last. */
  lemma FilterLast<T>(s: seq<T>, keep: T -> bool)
    requires |s| > 0
    ensures Seqs.Filter(s, keep)
         == Seqs.Filter(s[..|s| - 1], keep) + (if keep(s[|s| - 1]) then [s[|s| - 1]] else [])
  {
    var init, last := s[..|s| - 1], s[|s| - 1];
    assert s == init + [last];
    Seqs.FilterAppend(init, [last], keep);
    FilterOne(last, keep);
  }

  lemma FilterOne<T>(x: T, keep: T -> bool)
    ensures Seqs.Filter([x], keep) == if keep(x) then [x] else []
  {
    assert [x][1..] == [];
  }

  /** Where `x` lands: before the first element with a greater key. */
  lemma {:induction false} InsertAt<T>(x: T, s: seq<T>, key: T -> int, j: nat)
    requires j <= |s|
    requires forall i :: 0 <= i < j ==> key(s[i]) <= key(x)
    requires forall i :: j <= i < |s| ==> key(x) < key(s[i])
    ensures Insert(x, s, key) == s[..j] + [x] + s[j..]
  {
    if j == 0 {
      InsertFront(x, s, key);
    } else {
      InsertAt(x, s[1..], key, j - 1);
      InsertPast(x, s, key, j);
    }
  }

  lemma InsertFront<T>(x: T, s: seq<T>, key: T -> int)
    requires |s| > 0 ==> key(x) < key(s[0])
    ensures Insert(x, s, key) == [x] + s
  {
  }

  lemma InsertPast<T>(x: T, s: seq<T>, key: T -> int, j: nat)
    requires 0 < j <= |s| && key(s[0]) <= key(x)
    requires Insert(x, s[1..], key) == s[1..][..j - 1] + [x] + s[1..][j - 1..]
    ensures Insert(x, s, key) == s[..j] + [x] + s[j..]
  {
    var tail := s[1..];
    assert Insert(x, s, key) == [s[0]] + Insert(x, tail, key);
    ConsSplit(s, x, j);
  }

  /** Putting the head back in front of a split of the tail. */
  lemma ConsSplit<T>(s: seq<T>, x: T, j: nat)
    requires 0 < j <= |s|
    ensures [s[0]] + (s[1..][..j - 1] + [x] + s[1..][j - 1..]) == s[..j] + [x] + s[j..]
  {
    assert s[..j] == [s[0]] + s[1..][..j - 1];
    assert s[j..] == s[1..][j - 1..];
  }

  /** Exchanges two adjacent elements of an array. */
  method SwapAdjacent<T>(a: array<T>, j: int)
    requires 0 < j < a.Length
    modifies a
    ensures a[j - 1] == old(a[j]) && a[j] == old(a[j - 1])
    ensures forall k :: 0 <= k < a.Length && k != j - 1 && k != j ==> a[k] == old(a[k])
    ensures multiset(a[..]) == multiset(old(a[..]))
  {
    a[j - 1], a[j] := a[j], a[j - 1];
  }

  /** In-place insertion sort of an array, as `result.sort(cmp)` does:
      each element moves left past the greater keys only, so the array
      ends as the stable `SortBy` of its old contents. */
  method SortInPlace<T(==)>(a: array<T>, key: T -> int)
    modifies a
    ensures a[..] == SortBy(old(a[..]), key)
    ensures SortedBy(a[..], key)
    ensures multiset(a[..]) == multiset(old(a[..]))
  {
    ghost var orig := a[..];
    var i := 0;
    while i < a.Length
      invariant 0 <= i <= a.Length
      invariant a[..i] == SortBy(orig[..i], key)
      invariant a[i..] == orig[i..]
    {
      ghost var before := a[..];
      SinkLast(a, i, key);
      SortStep(orig, before, a[..], i, key);
      i := i + 1;
    }
    assert a[..] == a[..a.Length] && orig == orig[..a.Length];
  }

  /** One more element sunk into place extends the sorted prefix by it. */
  lemma SortStep<T>(orig: seq<T>, before: seq<T>, after: seq<T>, i: nat, key: T -> int)
    requires i < |orig| == |before| == |after|
    requires before[..i] == SortBy(orig[..i], key) && before[i..] == orig[i..]
    requires after[..i + 1] == Insert(before[i], before[..i], key) && after[i + 1..] == before[i + 1..]
    ensures after[..i + 1] == SortBy(orig[..i + 1], key)
    ensures after[i + 1..] == orig[i + 1..]
  {
    assert before[i] == before[i..][0] == orig[i];
    assert before[i + 1..] == before[i..][1..];
    assert orig[i + 1..] == orig[i..][1..];
    SortByStep(orig, i, key);
  }

  /** Sorting one more element is inserting it into the sorted rest. */
  lemma SortByStep<T>(s: seq<T>, i: nat, key: T -> int)
    requires i < |s|
    ensures SortBy(s[..i + 1], key) == Insert(s[i], SortBy(s[..i], key), key)
  {
    assert s[..i + 1][..i] == s[..i];
  }

  /** Moves `a[i]` left past every greater key in the sorted `a[..i]`. */
  method SinkLast<T>(a: array<T>, i: nat, key: T -> int)
    requires i < a.Length && SortedBy(a[..i], key)
    modifies a
    ensures a[..i + 1] == Insert(old(a[i]), old(a[..i]), key)
    ensures a[i + 1..] == old(a[i + 1..])
  {
    ghost var sorted := a[..i];
    var x := a[i];
    var j := i;
    assert a[..j] + a[j + 1..i + 1] == sorted;
    while j > 0 && key(a[j - 1]) > key(a[j])
      invariant 0 <= j <= i
      invariant a[j] == x
      invariant a[..j] + a[j + 1..i + 1] == sorted
      invariant forall q :: j < q <= i ==> key(x) < key(a[q])
      invariant a[i + 1..] == old(a[i + 1..])
    {
      ghost var before := a[..];
      SwapAdjacent(a, j);
      SwapKeepsRest(before, a[..], j, i);
      j := j - 1;
    }
    InsertPlace(a[..i + 1], sorted, x, key, j);
  }

  /** After exchanging positions `j - 1` and `j`, the elements other than
      the one at the new `j - 1` are in the same order as before. */
  lemma SwapKeepsRest<T>(u: seq<T>, v: seq<T>, j: nat, i: nat)
    requires 0 < j <= i < |u| == |v|
    requires v[j - 1] == u[j] && v[j] == u[j - 1]
    requires forall k :: 0 <= k < |u| && k != j - 1 && k != j ==> v[k] == u[k]
    ensures v[..j - 1] + v[j..i + 1] == u[..j] + u[j + 1..i + 1]
    ensures v[i + 1..] == u[i + 1..]
  {
    assert v[..j - 1] == u[..j - 1];
    assert v[j..i + 1] == [u[j - 1]] + u[j + 1..i + 1];
    assert u[..j] == u[..j - 1] + [u[j - 1]];
  }

  /** Once `x` stops moving left, the prefix is `x` inserted into the
      sorted prefix it passed through. */
  lemma InsertPlace<T>(t: seq<T>, sorted: seq<T>, x: T, key: T -> int, j: nat)
    requires j < |t| && t[j] == x && t[..j] + t[j + 1..] == sorted && SortedBy(sorted, key)
    requires j > 0 ==> key(t[j - 1]) <= key(x)
    requires forall q :: j < q < |t| ==> key(x) < key(t[q])
    ensures t == Insert(x, sorted, key)
  {
    RemoveSplit(t, sorted, j);
    forall q | 0 <= q < j ensures key(sorted[q]) <= key(x) {
      assert key(sorted[q]) <= key(sorted[j - 1]);
    }
    forall q | j <= q < |sorted| ensures key(x) < key(sorted[q]) {
      assert sorted[q] == t[q + 1];
    }
    InsertAt(x, sorted, key, j);
  }

  /** Taking out the element at `j` and putting it back. */
  lemma RemoveSplit<T>(t: seq<T>, sorted: seq<T>, j: nat)
    requires j < |t| && t[..j] + t[j + 1..] == sorted
    ensures |sorted| == |t| - 1
    ensures sorted[..j] == t[..j] && sorted[j..] == t[j + 1..]
    ensures j > 0 ==> sorted[j - 1] == t[j - 1]
    ensures forall q :: j <= q < |sorted| ==> sorted[q] == t[q + 1]
    ensures t == sorted[..j] + [t[j]] + sorted[j..]
  {
    assert t == t[..j] + [t[j]] + t[j + 1..];
  }
}
