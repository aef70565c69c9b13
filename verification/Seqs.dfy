/** Sums, filters and first-occurrence order over sequences. Every recursion peels the last
    element, because tables and logs here grow at the end. */
module Seqs {

  function Sum<T>(s: seq<T>, weigh: T -> int): int
  {
    if s == [] then 0 else Sum(s[..|s| - 1], weigh) + weigh(s[|s| - 1])
  }

  lemma SumPush<T>(s: seq<T>, x: T, weigh: T -> int)
    ensures Sum(s + [x], weigh) == Sum(s, weigh) + weigh(x)
  {
    assert (s + [x])[..|s|] == s;
  }

  lemma {:induction false} SumConcat<T>(s: seq<T>, t: seq<T>, weigh: T -> int)
    ensures Sum(s + t, weigh) == Sum(s, weigh) + Sum(t, weigh)
  {
    if t == [] {
      assert s + t == s;
    } else {
      var front := t[..|t| - 1];
      assert (s + t)[..|s + t| - 1] == s + front;
      SumConcat(s, front, weigh);
    }
  }

  lemma {:induction false} SumSplit<T>(s: seq<T>, whole: T -> int, left: T -> int, right: T -> int)
    requires forall x | x in s :: whole(x) == left(x) + right(x)
    ensures Sum(s, whole) == Sum(s, left) + Sum(s, right)
  {
    if s != [] {
      SumSplit(s[..|s| - 1], whole, left, right);
    }
  }

  lemma {:induction false} SumMapped<T, U>(s: seq<T>, t: seq<U>, f: T -> int, g: U -> int, factor: int)
    requires |s| == |t|
    requires forall i | 0 <= i < |s| :: g(t[i]) == factor * f(s[i])
    ensures Sum(t, g) == factor * Sum(s, f)
  {
    if s != [] {
      SumMapped(s[..|s| - 1], t[..|t| - 1], f, g, factor);
    }
  }

  lemma {:induction false} SumSame<T>(s: seq<T>, f: T -> int, g: T -> int)
    requires forall x | x in s :: f(x) == g(x)
    ensures Sum(s, f) == Sum(s, g)
  {
    if s != [] {
      SumSame(s[..|s| - 1], f, g);
    }
  }

  lemma {:induction false} SumZero<T>(s: seq<T>, weigh: T -> int)
    requires forall x | x in s :: weigh(x) == 0
    ensures Sum(s, weigh) == 0
  {
    if s != [] {
      SumZero(s[..|s| - 1], weigh);
    }
  }

  lemma {:induction false} SumNonNegative<T>(s: seq<T>, weigh: T -> int)
    requires forall x | x in s :: weigh(x) >= 0
    ensures Sum(s, weigh) >= 0
    ensures Sum(s, weigh) == 0 <==> forall x | x in s :: weigh(x) == 0
  {
    if s != [] {
      SumNonNegative(s[..|s| - 1], weigh);
      assert s == s[..|s| - 1] + [s[|s| - 1]];
    }
  }

  /** A weight concentrated on one value of a duplicate-free sequence. */
  lemma {:induction false} SumOne<T>(s: seq<T>, weigh: T -> int, x: T)
    requires Distinct(s)
    requires forall y | y in s && y != x :: weigh(y) == 0
    ensures Sum(s, weigh) == if x in s then weigh(x) else 0
  {
    if s != [] {
      var front, last := s[..|s| - 1], s[|s| - 1];
      assert s == front + [last];
      SumOne(front, weigh, x);
      if x == last {
        assert x !in front;
      }
    }
  }

  /** A sequence whose weights flip sign at every step sums to its first weight or to zero. */
  lemma {:induction false} SumAlternating<T>(s: seq<T>, weigh: T -> int)
    requires s != []
    requires forall k | 0 < k < |s| :: weigh(s[k]) == -weigh(s[k - 1])
    ensures weigh(s[|s| - 1]) == if |s| % 2 == 1 then weigh(s[0]) else -weigh(s[0])
    ensures Sum(s, weigh) == if |s| % 2 == 1 then weigh(s[0]) else 0
  {
    if |s| > 1 {
      SumAlternating(s[..|s| - 1], weigh);
    } else {
      assert Sum(s[..0], weigh) == 0;
    }
  }

  function Filter<T(!new)>(s: seq<T>, keep: T -> bool): (r: seq<T>)
    ensures forall x :: x in r <==> x in s && keep(x)
  {
    if s == [] then []
    else
      assert s == s[..|s| - 1] + [s[|s| - 1]];
      Filter(s[..|s| - 1], keep) + if keep(s[|s| - 1]) then [s[|s| - 1]] else []
  }

  lemma FilterPush<T(!new)>(s: seq<T>, x: T, keep: T -> bool)
    ensures Filter(s + [x], keep) == Filter(s, keep) + if keep(x) then [x] else []
  {
    assert (s + [x])[..|s|] == s;
  }

  lemma {:induction false} FilterConcat<T(!new)>(s: seq<T>, t: seq<T>, keep: T -> bool)
    ensures Filter(s + t, keep) == Filter(s, keep) + Filter(t, keep)
  {
    if t == [] {
      assert s + t == s;
    } else {
      var front := t[..|t| - 1];
      assert (s + t)[..|s + t| - 1] == s + front;
      FilterConcat(s, front, keep);
    }
  }

  lemma {:induction false} FilterAll<T(!new)>(s: seq<T>, keep: T -> bool)
    requires forall x | x in s :: keep(x)
    ensures Filter(s, keep) == s
  {
    if s != [] {
      FilterAll(s[..|s| - 1], keep);
      assert s == s[..|s| - 1] + [s[|s| - 1]];
    }
  }

  lemma {:induction false} FilterNone<T(!new)>(s: seq<T>, keep: T -> bool)
    requires forall x | x in s :: !keep(x)
    ensures Filter(s, keep) == []
  {
    if s != [] {
      FilterNone(s[..|s| - 1], keep);
    }
  }

  /** Each value once, in order of first occurrence. */
  function Dedup<T(==,!new)>(s: seq<T>): (r: seq<T>)
    ensures forall x :: x in r <==> x in s
    ensures Distinct(r)
  {
    if s == [] then []
    else
      assert s == s[..|s| - 1] + [s[|s| - 1]];
      var front := Dedup(s[..|s| - 1]);
      if s[|s| - 1] in front then front else front + [s[|s| - 1]]
  }

  lemma DedupPush<T(!new)>(s: seq<T>, x: T)
    ensures Dedup(s + [x]) == if x in s then Dedup(s) else Dedup(s) + [x]
  {
    assert (s + [x])[..|s|] == s;
  }

  ghost predicate Distinct<T>(s: seq<T>)
  {
    forall i, j | 0 <= i < j < |s| :: s[i] != s[j]
  }

  // ---- stable sort ----

  /** Insert after everything whose key is not greater. */
  function InsertBy<T(!new)>(s: seq<T>, x: T, key: T -> int): (r: seq<T>)
    ensures |r| == |s| + 1
    ensures forall y :: y in r <==> y in s || y == x
  {
    if s == [] then [x]
    else
      assert s == s[..|s| - 1] + [s[|s| - 1]];
      if key(s[|s| - 1]) <= key(x) then s + [x] else InsertBy(s[..|s| - 1], x, key) + [s[|s| - 1]]
  }

  /** `sorted(s, key=...)` and `ORDER BY`. */
  function SortBy<T(!new)>(s: seq<T>, key: T -> int): (r: seq<T>)
    ensures |r| == |s|
    ensures forall y :: y in r <==> y in s
  {
    if s == [] then []
    else
      assert s == s[..|s| - 1] + [s[|s| - 1]];
      InsertBy(SortBy(s[..|s| - 1], key), s[|s| - 1], key)
  }

  ghost predicate SortedBy<T>(s: seq<T>, key: T -> int)
  {
    forall i, j | 0 <= i < j < |s| :: key(s[i]) <= key(s[j])
  }

  lemma {:induction false} SortOfSorted<T(!new)>(s: seq<T>, key: T -> int)
    requires SortedBy(s, key)
    ensures SortBy(s, key) == s
  {
    if s != [] {
      var front, last := s[..|s| - 1], s[|s| - 1];
      SortOfSorted(front, key);
      assert s == front + [last];
      assert front == [] || key(front[|front| - 1]) <= key(last);
    }
  }

  lemma {:induction false} InsertKeepsSorted<T(!new)>(s: seq<T>, x: T, key: T -> int)
    requires SortedBy(s, key)
    ensures SortedBy(InsertBy(s, x, key), key)
  {
    if s != [] && key(s[|s| - 1]) > key(x) {
      var front, last := s[..|s| - 1], s[|s| - 1];
      InsertKeepsSorted(front, x, key);
      var r := InsertBy(front, x, key);
      forall i | 0 <= i < |r| ensures key(r[i]) <= key(last) {
        assert r[i] in r;
        assert r[i] in front || r[i] == x;
      }
    }
  }

  lemma {:induction false} SortIsSorted<T(!new)>(s: seq<T>, key: T -> int)
    ensures SortedBy(SortBy(s, key), key)
  {
    if s != [] {
      SortIsSorted(s[..|s| - 1], key);
      InsertKeepsSorted(SortBy(s[..|s| - 1], key), s[|s| - 1], key);
    }
  }

  function Keyed<T>(key: T -> int, k: int): T -> bool { (x: T) => key(x) == k }

  lemma {:induction false} InsertIsStable<T(!new)>(s: seq<T>, x: T, key: T -> int, k: int)
    ensures Filter(InsertBy(s, x, key), Keyed(key, k)) == Filter(s + [x], Keyed(key, k))
  {
    hide Filter;
    FilterPush(s, x, Keyed(key, k));
    if s == [] || key(s[|s| - 1]) <= key(x) {
      assert InsertBy(s, x, key) == s + [x];
    } else {
      var front, last := s[..|s| - 1], s[|s| - 1];
      assert s == front + [last];
      InsertIsStable(front, x, key, k);
      FilterPush(InsertBy(front, x, key), last, Keyed(key, k));
      FilterPush(front, x, Keyed(key, k));
      FilterPush(front, last, Keyed(key, k));
    }
  }

  /** Elements with the same key keep their order. */
  lemma {:induction false} SortIsStable<T(!new)>(s: seq<T>, key: T -> int, k: int)
    ensures Filter(SortBy(s, key), Keyed(key, k)) == Filter(s, Keyed(key, k))
  {
    if s != [] {
      hide Filter, InsertBy;
      var front, last := s[..|s| - 1], s[|s| - 1];
      assert s == front + [last];
      SortIsStable(front, key, k);
      InsertIsStable(SortBy(front, key), last, key, k);
      FilterPush(SortBy(front, key), last, Keyed(key, k));
      FilterPush(front, last, Keyed(key, k));
    }
  }

  function Take<T>(s: seq<T>, n: nat): seq<T> { if n < |s| then s[..n] else s }

  /** `ORDER BY key LIMIT n`: nothing left out is below anything taken. */
  lemma FirstOfSorted<T(!new)>(s: seq<T>, key: T -> int, n: nat)
    ensures var r := Take(SortBy(s, key), n);
            && SortedBy(r, key) && |r| == (if n < |s| then n else |s|)
            && (forall x | x in r :: x in s)
            && (forall x | x in s && x !in r :: |r| == n)
            && (forall x, y | x in s && x !in r && y in r :: key(y) <= key(x))
  {
    var sorted, r := SortBy(s, key), Take(SortBy(s, key), n);
    SortIsSorted(s, key);
    forall x, y | x in s && x !in r && y in r ensures key(y) <= key(x) {
      assert x in sorted;
      var i :| 0 <= i < |sorted| && sorted[i] == x;
      var j :| 0 <= j < |r| && r[j] == y;
      assert n <= i;
      assert sorted[j] == y;
    }
  }
}
