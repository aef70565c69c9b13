/** Cursor pages over a table that grows between requests
    (src/ledgerflow/api/routers/resources.py:147-167, src/ledgerflow/adapters/repositories.py:377-447).
    A table is the ids matching the filters, in insertion order. */
module Pagination {
  import opened Wrappers
  import opened Seqs

  datatype Page = Page(rows: seq<int>, hasMore: bool)

  function Newest(): int -> int { (id: int) => -id }

  function Below(after: Option<int>): int -> bool
  {
    (id: int) => after.None? || id < after.value
  }

  /** `WHERE id < after ORDER BY id DESC LIMIT n`. */
  function Query(table: seq<int>, after: Option<int>, limit: nat): seq<int>
  {
    Take(SortBy(Filter(table, Below(after)), Newest()), limit)
  }

  /** `list_transactions`: one row more than asked for answers `has_more`. */
  function List(table: seq<int>, after: Option<int>, limit: nat): Page
  {
    var rows := Query(table, after, limit + 1);
    Page(Take(rows, limit), |rows| > limit)
  }

  ghost predicate Descending(s: seq<int>)
  {
    forall i, j | 0 <= i < j < |s| :: s[i] > s[j]
  }

  // ---- one page ----

  lemma {:induction false} InsertDistinct(s: seq<int>, x: int)
    requires SortedBy(s, Newest()) && Descending(s) && x !in s
    ensures Descending(InsertBy(s, x, Newest()))
  {
    if s != [] && s[|s| - 1] < x {
      var front, last := s[..|s| - 1], s[|s| - 1];
      InsertDistinct(front, x);
      var r := InsertBy(front, x, Newest());
      forall i | 0 <= i < |r| ensures r[i] > last {
        assert r[i] in r;
      }
    } else if s != [] {
      assert s[|s| - 1] in s;
    }
  }

  lemma {:induction false} SortDistinct(s: seq<int>)
    requires Distinct(s)
    ensures Descending(SortBy(s, Newest()))
  {
    if s != [] {
      var front := s[..|s| - 1];
      SortDistinct(front);
      SortIsSorted(front, Newest());
      assert s == front + [s[|s| - 1]] && s[|s| - 1] !in front;
      InsertDistinct(SortBy(front, Newest()), s[|s| - 1]);
    }
  }

  lemma {:induction false} FilterDistinct(s: seq<int>, keep: int -> bool)
    requires Distinct(s)
    ensures Distinct(Filter(s, keep))
  {
    if s != [] {
      FilterDistinct(s[..|s| - 1], keep);
      assert s[|s| - 1] !in s[..|s| - 1];
    }
  }

  /** All rows below the cursor, newest first. */
  lemma Rest(table: seq<int>, after: Option<int>) returns (all: seq<int>)
    requires Distinct(table)
    ensures Descending(all) && forall x :: x in all <==> x in table && Below(after)(x)
    ensures forall limit: nat :: Query(table, after, limit) == Take(all, limit)
  {
    FilterDistinct(table, Below(after));
    SortDistinct(Filter(table, Below(after)));
    all := SortBy(Filter(table, Below(after)), Newest());
  }

  /** A page is the next rows below the cursor, newest first, none left out down to its last row;
      `has_more` is exact. */
  lemma PageIsNext(table: seq<int>, after: Option<int>, limit: nat)
    requires Distinct(table) && limit > 0
    ensures var page := List(table, after, limit);
            && Descending(page.rows)
            && (forall x | x in page.rows :: x in table && Below(after)(x))
            && (forall x | x in table && Below(after)(x) && (page.rows != [] && x >= page.rows[|page.rows| - 1]) ::
                  x in page.rows)
            && (page.hasMore ==> |page.rows| == limit && exists x :: x in table && x < page.rows[limit - 1])
            && (!page.hasMore ==> forall x | x in table && Below(after)(x) :: x in page.rows)
  {
    var all := Rest(table, after);
    var page := List(table, after, limit);
    assert page.rows == Take(all, limit);
    if page.hasMore {
      assert all[limit] in table && all[limit] < page.rows[limit - 1];
      forall x | x in table && Below(after)(x) && x >= page.rows[limit - 1] ensures x in page.rows {
        var i :| 0 <= i < |all| && all[i] == x;
        assert i < limit;
        assert page.rows[i] == x;
      }
    } else {
      assert page.rows == all;
    }
  }

  // ---- following the cursor ----

  datatype Walk = Walk(rows: seq<int>, cursor: Option<int>, done: bool)

  /** One more request, on this table. */
  function NextPage(w: Walk, table: seq<int>, limit: nat): Walk
  {
    var page := List(table, w.cursor, limit);
    Walk(w.rows + page.rows, if page.rows == [] then w.cursor else Some(page.rows[|page.rows| - 1]), !page.hasMore)
  }

  /** A client's first `n` requests; request `i` sees `tables[i]`. */
  function Follow(tables: seq<seq<int>>, limit: nat, n: nat): Walk
    requires n <= |tables|
  {
    if n == 0 then Walk([], None, false)
    else
      var w := Follow(tables, limit, n - 1);
      if w.done then w else NextPage(w, tables[n - 1], limit)
  }

  /** Rows are inserted between requests, never deleted; ids are a primary key. */
  ghost predicate Growing(tables: seq<seq<int>>)
  {
    forall i | 0 <= i < |tables| :: Holds(tables[i], tables[0])
  }

  ghost predicate Holds(table: seq<int>, first: seq<int>)
  {
    Distinct(table) && forall x | x in first :: x in table
  }

  /** Newest first, the cursor at the last row. */
  ghost predicate Shaped(w: Walk)
  {
    && Descending(w.rows)
    && (if w.rows == [] then w.cursor.None? else w.cursor == Some(w.rows[|w.rows| - 1]))
  }

  ghost predicate WalkOk(first: seq<int>, w: Walk)
  {
    && Shaped(w)
    && (forall x | x in first && !Below(w.cursor)(x) :: x in w.rows)
    && (w.done ==> forall x | x in first :: x in w.rows)
  }

  lemma NextShaped(w: Walk, table: seq<int>, limit: nat)
    requires Shaped(w) && Distinct(table) && limit > 0
    ensures Shaped(NextPage(w, table, limit))
  {
    hide List, Distinct;
    PageIsNext(table, w.cursor, limit);
    AppendDescends(w, List(table, w.cursor, limit).rows);
  }

  lemma AppendDescends(w: Walk, more: seq<int>)
    requires Shaped(w) && Descending(more) && forall x | x in more :: Below(w.cursor)(x)
    ensures Descending(w.rows + more)
  {
    var rows := w.rows + more;
    forall i, j | 0 <= i < j < |rows| ensures rows[i] > rows[j] {
      if i < |w.rows| <= j {
        assert more[j - |w.rows|] in more;
        assert w.rows[i] >= w.rows[|w.rows| - 1];
      }
    }
  }

  lemma StepWalk(first: seq<int>, table: seq<int>, w: Walk, limit: nat)
    requires WalkOk(first, w) && !w.done && limit > 0
    requires Distinct(table) && forall x | x in first :: x in table
    ensures WalkOk(first, NextPage(w, table, limit))
  {
    NextShaped(w, table, limit);
    PageIsNext(table, w.cursor, limit);
    hide List, Shaped, Distinct, Descending;
  }

  lemma {:induction false} FollowOk(tables: seq<seq<int>>, limit: nat, n: nat)
    requires Growing(tables) && limit > 0 && 0 < |tables| && n <= |tables|
    ensures WalkOk(tables[0], Follow(tables, limit, n))
  {
    if n > 0 {
      FollowOk(tables, limit, n - 1);
      if !Follow(tables, limit, n - 1).done {
        StepWalk(tables[0], tables[n - 1], Follow(tables, limit, n - 1), limit);
      }
    }
  }

  /** Whatever is inserted between requests: ids come strictly descending, so none twice; and once
      `has_more` is false, every row of the first table has come. */
  lemma NoSkipNoRepeat(tables: seq<seq<int>>, limit: nat, n: nat)
    requires Growing(tables) && limit > 0 && 0 < |tables| && n <= |tables|
    ensures var w := Follow(tables, limit, n);
            && Descending(w.rows) && Distinct(w.rows)
            && (w.done ==> forall x | x in tables[0] :: multiset(w.rows)[x] == 1)
  {
    FollowOk(tables, limit, n);
    var w := Follow(tables, limit, n);
    forall x | x in w.rows ensures multiset(w.rows)[x] == 1 {
      CountOnce(w.rows, x);
    }
  }

  lemma {:induction false} CountOnce(s: seq<int>, x: int)
    requires Distinct(s)
    ensures multiset(s)[x] == if x in s then 1 else 0
  {
    if s != [] {
      var front, last := s[..|s| - 1], s[|s| - 1];
      assert s == front + [last];
      CountOnce(front, x);
      assert last !in front;
    }
  }

  /** Insertions stay above the cursor: below it only rows of the first table show up. */
  ghost predicate AboveCursor(tables: seq<seq<int>>, limit: nat)
  {
    forall i | 0 <= i < |tables| :: AboveAt(tables, limit, i)
  }

  ghost predicate AboveAt(tables: seq<seq<int>>, limit: nat, i: int)
    requires 0 <= i < |tables|
  {
    OnlyFirstBelow(tables[0], tables[i], Follow(tables, limit, i).cursor)
  }

  ghost predicate OnlyFirstBelow(first: seq<int>, table: seq<int>, cursor: Option<int>)
  {
    forall x | x in table && Below(cursor)(x) :: x in first
  }

  lemma StepCounts(first: seq<int>, table: seq<int>, w: Walk, limit: nat)
    requires WalkOk(first, w) && limit > 0 && Distinct(table) && (forall x | x in first :: x in table)
    requires (forall x | x in w.rows :: x in first) && OnlyFirstBelow(first, table, w.cursor)
    ensures var page := List(table, w.cursor, limit);
            && (forall x | x in w.rows + page.rows :: x in first)
            && (page.hasMore ==> |page.rows| == limit && exists x :: x in first && x !in w.rows + page.rows)
  {
    hide List, WalkOk, Descending;
    PageIsNext(table, w.cursor, limit);
    var page := List(table, w.cursor, limit);
    if page.hasMore {
      var x :| x in table && x < page.rows[limit - 1];
      assert page.rows[limit - 1] in page.rows;
      assert Below(w.cursor)(page.rows[limit - 1]);
      StepBelow(first, w, x);
      BelowLast(page.rows, x);
      assert x in first && x !in w.rows + page.rows;
    }
  }

  lemma StepBelow(first: seq<int>, w: Walk, x: int)
    requires WalkOk(first, w) && Below(w.cursor)(x)
    ensures x !in w.rows
  {
    if w.rows != [] {
      BelowLast(w.rows, x);
    }
  }

  /** Unfinished after `n` requests: full pages, all of the first table, and at least one row to go. */
  ghost predicate CountsOk(first: seq<int>, w: Walk, limit: nat, n: nat)
  {
    && (forall x | x in w.rows :: x in first)
    && (!w.done ==> |w.rows| == n * limit && (n > 0 ==> exists x :: x in first && x !in w.rows))
  }

  lemma PageCounts(first: seq<int>, table: seq<int>, w: Walk, limit: nat, n: nat)
    requires WalkOk(first, w) && limit > 0 && Distinct(table) && (forall x | x in first :: x in table)
    requires CountsOk(first, w, limit, n) && !w.done && OnlyFirstBelow(first, table, w.cursor)
    ensures CountsOk(first, NextPage(w, table, limit), limit, n + 1)
  {
    hide List, WalkOk, OnlyFirstBelow, Below;
    StepCounts(first, table, w, limit);
    assert (n + 1) * limit == n * limit + limit;
  }

  lemma {:induction false} FollowCounts(tables: seq<seq<int>>, limit: nat, n: nat)
    requires Growing(tables) && limit > 0 && 0 < |tables| && n <= |tables| && AboveCursor(tables, limit)
    ensures CountsOk(tables[0], Follow(tables, limit, n), limit, n)
  {
    if n > 0 {
      hide NextPage, WalkOk, OnlyFirstBelow, CountsOk, Below;
      FollowCounts(tables, limit, n - 1);
      FollowOk(tables, limit, n - 1);
      var w := Follow(tables, limit, n - 1);
      if w.done {
        DoneCounts(tables[0], w, limit, n);
      } else {
        assert AboveAt(tables, limit, n - 1);
        PageCounts(tables[0], tables[n - 1], w, limit, n - 1);
      }
    }
  }

  lemma DoneCounts(first: seq<int>, w: Walk, limit: nat, n: nat)
    requires n > 0 && CountsOk(first, w, limit, n - 1) && w.done
    ensures CountsOk(first, w, limit, n)
  {
  }

  lemma BelowLast(s: seq<int>, x: int)
    requires Descending(s) && s != [] && x < s[|s| - 1]
    ensures x !in s
  {
  }

  lemma SubsetLength(s: seq<int>, t: seq<int>, x: int)
    requires Distinct(s) && (forall y | y in s :: y in t) && x in t && x !in s
    ensures |s| < |t|
  {
    var ss, ts := set y | y in s, set y | y in t;
    DistinctSize(s);
    SetSize(t);
    assert ss + {x} <= ts;
    Larger(ss + {x}, ts);
  }

  lemma {:induction false} DistinctSize(s: seq<int>)
    requires Distinct(s)
    ensures |set y | y in s| == |s|
  {
    if s != [] {
      var front, last := s[..|s| - 1], s[|s| - 1];
      assert s == front + [last];
      DistinctSize(front);
      assert (set y | y in s) == (set y | y in front) + {last};
    }
  }

  lemma {:induction false} SetSize(s: seq<int>)
    ensures |set y | y in s| <= |s|
  {
    if s != [] {
      var front, last := s[..|s| - 1], s[|s| - 1];
      assert s == front + [last];
      SetSize(front);
      assert (set y | y in s) == (set y | y in front) + {last};
    }
  }

  lemma Larger(a: set<int>, b: set<int>)
    requires a <= b
    ensures |a| <= |b|
  {
    assert b == a + (b - a);
  }

  /** Then the walk ends: it is over once the requests made could have carried the first table. */
  lemma WalkEnds(tables: seq<seq<int>>, limit: nat, n: nat)
    requires Growing(tables) && limit > 0 && 0 < n <= |tables| && AboveCursor(tables, limit)
    requires n * limit >= |tables[0]|
    ensures Follow(tables, limit, n).done
  {
    FollowCounts(tables, limit, n);
    NoSkipNoRepeat(tables, limit, n);
    var w := Follow(tables, limit, n);
    if !w.done {
      var x :| x in tables[0] && x !in w.rows;
      SubsetLength(w.rows, tables[0], x);
    }
  }

  // ---- exactly when the walk has ended ----

  /** Rows are never deleted. */
  ghost predicate OnlyInserted(tables: seq<seq<int>>)
  {
    && (forall i | 0 <= i < |tables| :: Distinct(tables[i]))
    && (forall i | 0 < i < |tables| :: Holds(tables[i], tables[i - 1]))
  }

  /** The rows that stood below the cursor at one of the first `n` requests: the first table, and
      whatever was inserted below the cursor since. */
  ghost function Seen(tables: seq<seq<int>>, limit: nat, n: nat): set<int>
    requires n <= |tables|
  {
    if n == 0 then {}
    else
      var w := Follow(tables, limit, n - 1);
      Seen(tables, limit, n - 1) + if w.done then {} else Ahead(tables[n - 1], w.cursor)
  }

  ghost function Ahead(table: seq<int>, cursor: Option<int>): set<int>
  {
    set x | x in table && Below(cursor)(x)
  }

  /** Every row seen has come, or still stands below the cursor; once the walk is over, all have come. */
  ghost predicate SeenOk(w: Walk, seen: set<int>, table: seq<int>, limit: nat, n: nat)
  {
    && Shaped(w)
    && |w.rows| <= n * limit && (!w.done ==> |w.rows| == n * limit)
    && (forall x | x in w.rows :: x in seen)
    && (forall x | x in seen :: x in w.rows || (!w.done && x in table && Below(w.cursor)(x)))
    && (!w.done ==> exists x :: x in seen && x !in w.rows)
  }

  /** What one more request leaves unseen is still below its cursor. */
  lemma StepKeepsSeen(w: Walk, table: seq<int>, limit: nat, x: int)
    requires limit > 0 && Distinct(table) && x in table && Below(w.cursor)(x)
    ensures var v := NextPage(w, table, limit); x in v.rows || (!v.done && Below(v.cursor)(x))
  {
    hide List, Distinct;
    PageIsNext(table, w.cursor, limit);
  }

  /** One more request that is not the last returns a full page and leaves a row behind. */
  lemma StepLeaves(w: Walk, table: seq<int>, limit: nat) returns (x: int)
    requires Shaped(w) && limit > 0 && Distinct(table) && !NextPage(w, table, limit).done
    ensures |NextPage(w, table, limit).rows| == |w.rows| + limit
    ensures x in Ahead(table, w.cursor) && x !in NextPage(w, table, limit).rows
  {
    hide List, Distinct;
    PageIsNext(table, w.cursor, limit);
    var page := List(table, w.cursor, limit);
    x :| x in table && x < page.rows[limit - 1];
    assert page.rows[limit - 1] in page.rows;
    BelowLast(page.rows, x);
    if w.rows != [] {
      BelowLast(w.rows, x);
    }
  }

  lemma StepAdds(w: Walk, table: seq<int>, limit: nat)
    requires limit > 0 && Distinct(table)
    ensures var v := NextPage(w, table, limit);
            |v.rows| <= |w.rows| + limit && forall x | x in v.rows :: x in w.rows || x in Ahead(table, w.cursor)
  {
    PageIsNext(table, w.cursor, limit);
    PageLength(table, w.cursor, limit);
    hide List, Distinct, Descending;
  }

  lemma StepSeen(w: Walk, seen: set<int>, before: seq<int>, table: seq<int>, limit: nat, n: nat)
    requires limit > 0 && Distinct(table) && !w.done && (forall x | x in before :: x in table)
    requires SeenOk(w, seen, before, limit, n) || (n == 0 && w == Walk([], None, false) && seen == {})
    ensures SeenOk(NextPage(w, table, limit), seen + Ahead(table, w.cursor), table, limit, n + 1)
  {
    hide List, Distinct, Below;
    assert Shaped(w);
    var v := NextPage(w, table, limit);
    assert w.rows <= v.rows;
    hide Shaped, NextPage;
    NextShaped(w, table, limit);
    StepAdds(w, table, limit);
    assert (n + 1) * limit == n * limit + limit;
    forall x | x in seen + Ahead(table, w.cursor) && x !in v.rows ensures !v.done && x in table && Below(v.cursor)(x) {
      assert x !in w.rows;
      StepKeepsSeen(w, table, limit, x);
    }
    hide Ahead;
    if !v.done {
      var x := StepLeaves(w, table, limit);
    }
  }

  lemma PageLength(table: seq<int>, after: Option<int>, limit: nat)
    ensures |List(table, after, limit).rows| <= limit
  {
  }

  lemma DoneStays(w: Walk, seen: set<int>, before: seq<int>, table: seq<int>, limit: nat, n: nat)
    requires SeenOk(w, seen, before, limit, n) && w.done
    ensures SeenOk(w, seen, table, limit, n + 1)
  {
    assert (n + 1) * limit == n * limit + limit;
  }

  lemma {:induction false} FollowSeen(tables: seq<seq<int>>, limit: nat, n: nat)
    requires OnlyInserted(tables) && limit > 0 && 0 < n <= |tables|
    ensures SeenOk(Follow(tables, limit, n), Seen(tables, limit, n), tables[n - 1], limit, n)
  {
    hide SeenOk, NextPage, Ahead;
    var w := Follow(tables, limit, n - 1);
    if n == 1 {
      StepSeen(w, {}, [], tables[0], limit, 0);
      assert {} + Ahead(tables[0], w.cursor) == Ahead(tables[0], w.cursor);
    } else {
      FollowSeen(tables, limit, n - 1);
      assert Holds(tables[n - 1], tables[n - 2]);
      if w.done {
        DoneStays(w, Seen(tables, limit, n - 1), tables[n - 2], tables[n - 1], limit, n - 1);
        assert Seen(tables, limit, n) == Seen(tables, limit, n - 1);
      } else {
        StepSeen(w, Seen(tables, limit, n - 1), tables[n - 2], tables[n - 1], limit, n - 1);
      }
    }
  }

  lemma SizeOfRows(s: seq<int>, all: set<int>)
    requires Descending(s)
    ensures (forall x :: x in all <==> x in s) ==> |all| == |s|
    ensures (forall x | x in s :: x in all) && (exists x :: x in all && x !in s) ==> |all| > |s|
  {
    DistinctSize(s);
    var rows := set y | y in s;
    if forall x :: x in all <==> x in s {
      assert all == rows;
    }
    if (forall x | x in s :: x in all) && exists x :: x in all && x !in s {
      var x :| x in all && x !in s;
      assert rows + {x} <= all;
      Larger(rows + {x}, all);
    }
  }

  /** After `n` requests the walk is over if and only if the rows seen, which are those of the first
      table and those inserted below the cursor, fit on `n` pages; and then it has returned exactly
      those rows. */
  lemma WalkEndsIff(tables: seq<seq<int>>, limit: nat, n: nat)
    requires OnlyInserted(tables) && limit > 0 && 0 < n <= |tables|
    ensures Follow(tables, limit, n).done <==> |Seen(tables, limit, n)| <= n * limit
    ensures Follow(tables, limit, n).done ==>
              forall x :: x in Seen(tables, limit, n) <==> x in Follow(tables, limit, n).rows
  {
    FollowSeen(tables, limit, n);
    SizeOfRows(Follow(tables, limit, n).rows, Seen(tables, limit, n));
  }

  // ---- insertions that keep it going ----

  /** Rows 0, -1, -2 and so on. */
  function Downward(rows: nat): seq<int> { seq(rows, k requires 0 <= k < rows => -k) }

  lemma DownwardAt(rows: nat)
    ensures |Downward(rows)| == rows && forall k | 0 <= k < rows :: Downward(rows)[k] == -k
  {
  }

  /** `pages` full pages. */
  function Full(limit: nat, pages: nat): nat { pages * limit }

  lemma FullNext(limit: nat, pages: nat)
    ensures Full(limit, pages + 1) == Full(limit, pages) + limit && Full(limit, 0) == 0
  {
  }

  predicate OnePageMore(tables: seq<seq<int>>, limit: nat, i: nat)
    requires i < |tables|
  {
    tables[i] == Downward(Full(limit, i + 1) + 1)
  }

  /** Before request `i` the table holds one row more than `i + 1` pages. */
  function DownwardTables(limit: nat, n: nat): (r: seq<seq<int>>)
    ensures |r| == n && forall i | 0 <= i < n :: OnePageMore(r, limit, i)
  {
    seq(n, i requires 0 <= i < n => Downward(Full(limit, i + 1) + 1))
  }

  lemma DownwardSplit(rows: nat, after: Option<int>, from: nat)
    requires from <= rows && (if from == 0 then after.None? else after == Some(1 - from))
    ensures |Downward(rows)| == rows
    ensures forall x | x in Downward(rows)[..from] :: !Below(after)(x)
    ensures forall x | x in Downward(rows)[from..] :: Below(after)(x)
    ensures SortedBy(Downward(rows)[from..], Newest())
  {
    var table := Downward(rows);
    assert forall k | 0 <= k < from :: table[..from][k] == -k;
    assert forall k | 0 <= k < rows - from :: table[from..][k] == -(from + k);
  }

  lemma QueryDownward(rows: nat, after: Option<int>, from: nat, limit: nat)
    requires from <= rows && (if from == 0 then after.None? else after == Some(1 - from))
    ensures |Downward(rows)| == rows && Query(Downward(rows), after, limit) == Take(Downward(rows)[from..], limit)
  {
    hide Downward, Below, SortedBy, SortBy, Newest;
    DownwardSplit(rows, after, from);
    QuerySplit(Downward(rows)[..from], Downward(rows)[from..], after, limit);
    assert Downward(rows) == Downward(rows)[..from] + Downward(rows)[from..];
  }

  lemma QuerySplit(early: seq<int>, late: seq<int>, after: Option<int>, limit: nat)
    requires (forall x | x in early :: !Below(after)(x)) && (forall x | x in late :: Below(after)(x))
    requires SortedBy(late, Newest())
    ensures Query(early + late, after, limit) == Take(late, limit)
  {
    FilterConcat(early, late, Below(after));
    FilterNone(early, Below(after));
    FilterAll(late, Below(after));
    assert [] + late == late;
    SortOfSorted(late, Newest());
  }

  /** A page off the top leaves more. */
  lemma PageDownward(rows: nat, after: Option<int>, from: nat, limit: nat)
    requires limit > 0 && rows == from + limit + 1 && (if from == 0 then after.None? else after == Some(1 - from))
    ensures var page := List(Downward(rows), after, limit);
            page.hasMore && |page.rows| == limit && page.rows[limit - 1] == 1 - (from + limit)
  {
    QueryDownward(rows, after, from, limit + 1);
    var r := Take(Downward(rows)[from..], limit + 1);
    DownwardAt(rows);
    assert |r| == limit + 1 && r[limit - 1] == Downward(rows)[from + limit - 1];
  }

  ghost predicate Going(w: Walk, limit: nat, i: nat)
  {
    !w.done && w.cursor == if i == 0 then None else Some(1 - Full(limit, i))
  }

  lemma GoingNext(w: Walk, limit: nat, i: nat)
    requires limit > 0 && Going(w, limit, i)
    ensures Going(NextPage(w, Downward(Full(limit, i + 1) + 1), limit), limit, i + 1)
  {
    hide List, Downward, Full;
    FullNext(limit, i);
    if i > 0 {
      FullNext(limit, i - 1);
    }
    PageDownward(Full(limit, i + 1) + 1, w.cursor, Full(limit, i), limit);
  }

  lemma {:induction false} StillGoing(tables: seq<seq<int>>, limit: nat, i: nat)
    requires limit > 0 && i <= |tables| && forall k | 0 <= k < |tables| :: OnePageMore(tables, limit, k)
    ensures Going(Follow(tables, limit, i), limit, i)
  {
    if i > 0 {
      hide NextPage, Downward, Going, Full;
      StillGoing(tables, limit, i - 1);
      assert OnePageMore(tables, limit, i - 1);
      GoingNext(Follow(tables, limit, i - 1), limit, i - 1);
      NotDone(Follow(tables, limit, i - 1), limit, i - 1);
    }
  }

  lemma NotDone(w: Walk, limit: nat, i: nat)
    requires Going(w, limit, i)
    ensures !w.done
  {
  }

  /** The condition is needed: with one page of rows inserted below the cursor before each request the
      walk goes on for as many requests as one likes, at any page size. */
  lemma InsertionsBelowKeepGoing(limit: nat, n: nat)
    requires limit > 0
    ensures var tables := DownwardTables(limit, n);
            |tables| == n && OnlyInserted(tables) && !Follow(tables, limit, n).done
  {
    var tables := DownwardTables(limit, n);
    StillGoing(tables, limit, n);
    hide Follow, Downward, Full, Holds, Distinct;
    forall i | 0 <= i < n ensures Distinct(tables[i]) {
      assert OnePageMore(tables, limit, i);
      DownwardGrows(Full(limit, i + 1) + 1, Full(limit, i + 1) + 1);
    }
    forall i | 0 < i < n ensures Holds(tables[i], tables[i - 1]) {
      assert OnePageMore(tables, limit, i) && OnePageMore(tables, limit, i - 1);
      FullNext(limit, i);
      DownwardGrows(Full(limit, i) + 1, Full(limit, i + 1) + 1);
    }
  }

  lemma DownwardGrows(rows: nat, more: nat)
    requires rows <= more
    ensures Distinct(Downward(more)) && Holds(Downward(more), Downward(rows))
  {
    DownwardAt(rows);
    DownwardAt(more);
    forall x | x in Downward(rows) ensures x in Downward(more) {
      var k :| 0 <= k < rows && x == Downward(rows)[k];
      assert Downward(more)[k] == x;
    }
  }
}
