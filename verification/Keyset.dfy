/** Keyset pagination over an arbitrary table.

    A query is "ORDER BY some strict order, keep the rows strictly after the
    cursor, LIMIT limit+1".  The cursor of the next page is encoded from the last
    row shown.  This module says when following those cursors reads the whole
    ordered table, each row once, and what one bad cursor costs. */
module Keyset {
  import opened Wrappers

  /** How one sort mode orders rows, encodes a cursor and tests "strictly after". */
  datatype Scheme<!T, !C> = Scheme(lt: (T, T) -> bool, enc: T -> C, after: (C, T) -> bool)

  datatype Page<+T, +C> = Page(items: seq<T>, hasMore: bool, next: Option<C>)

  // ---------------------------------------------------------------- tables

  function Filter<T>(keep: T -> bool, rows: seq<T>): seq<T> {
    if rows == [] then []
    else if keep(rows[0]) then [rows[0]] + Filter(keep, rows[1..])
    else Filter(keep, rows[1..])
  }

  function Insert<T>(lt: (T, T) -> bool, row: T, rows: seq<T>): seq<T> {
    if rows == [] then [row]
    else if lt(row, rows[0]) then [row] + rows
    else [rows[0]] + Insert(lt, row, rows[1..])
  }

  /** What ORDER BY returns. */
  function OrderBy<T>(lt: (T, T) -> bool, rows: seq<T>): seq<T> {
    if rows == [] then [] else Insert(lt, rows[0], OrderBy(lt, rows[1..]))
  }

  /** A strict order, as every ORDER BY list here is. */
  ghost predicate StrictOrder<T(!new)>(lt: (T, T) -> bool) {
    && (forall x :: !lt(x, x))
    && (forall x, y, z :: lt(x, y) && lt(y, z) ==> lt(x, z))
  }

  /** The primary key makes the order total on the rows of one table. */
  ghost predicate Keyed<T>(lt: (T, T) -> bool, rows: seq<T>) {
    forall i, j :: 0 <= i < j < |rows| ==> lt(rows[i], rows[j]) || lt(rows[j], rows[i])
  }

  ghost predicate Ascending<T>(lt: (T, T) -> bool, rows: seq<T>) {
    forall i, j :: 0 <= i < j < |rows| ==> lt(rows[i], rows[j])
  }

  // ---------------------------------------------------------------- facts about ORDER BY

  lemma {:induction false} InsertMultiset<T>(lt: (T, T) -> bool, row: T, rows: seq<T>)
    ensures multiset(Insert(lt, row, rows)) == multiset{row} + multiset(rows)
  {
    if rows != [] {
      assert rows == [rows[0]] + rows[1..];
      if !lt(row, rows[0]) {
        InsertMultiset(lt, row, rows[1..]);
      }
    }
  }

  /** ORDER BY returns exactly the rows of the table. */
  lemma {:induction false} OrderByMultiset<T>(lt: (T, T) -> bool, rows: seq<T>)
    ensures multiset(OrderBy(lt, rows)) == multiset(rows)
    ensures |OrderBy(lt, rows)| == |rows|
  {
    if rows != [] {
      OrderByMultiset(lt, rows[1..]);
      InsertMultiset(lt, rows[0], OrderBy(lt, rows[1..]));
      assert rows == [rows[0]] + rows[1..];
      assert |multiset(OrderBy(lt, rows))| == |multiset(rows)|;
    }
  }

  lemma OrderByMembers<T>(lt: (T, T) -> bool, rows: seq<T>)
    ensures forall x :: x in OrderBy(lt, rows) <==> x in rows
  {
    OrderByMultiset(lt, rows);
    forall x ensures x in OrderBy(lt, rows) <==> x in rows {
      assert x in multiset(OrderBy(lt, rows)) <==> x in multiset(rows);
    }
  }

  lemma {:induction false} InsertAscending<T(!new)>(lt: (T, T) -> bool, row: T, rows: seq<T>)
    requires StrictOrder(lt) && Ascending(lt, rows)
    requires forall x :: x in rows ==> lt(x, row) || lt(row, x)
    ensures Ascending(lt, Insert(lt, row, rows))
  {
    if rows != [] {
      if lt(row, rows[0]) {
        forall j | 0 <= j < |rows| ensures lt(row, rows[j]) {
          assert j > 0 ==> lt(rows[0], rows[j]);
        }
      } else {
        var rest := Insert(lt, row, rows[1..]);
        InsertAscending(lt, row, rows[1..]);
        InsertMultiset(lt, row, rows[1..]);
        forall j | 0 <= j < |rest| ensures lt(rows[0], rest[j]) {
          assert rest[j] in multiset(rest);
        }
      }
    }
  }

  /** ORDER BY returns them in order. */
  lemma {:induction false} OrderByAscending<T(!new)>(lt: (T, T) -> bool, rows: seq<T>)
    requires StrictOrder(lt) && Keyed(lt, rows)
    ensures Ascending(lt, OrderBy(lt, rows))
  {
    if rows != [] {
      OrderByAscending(lt, rows[1..]);
      OrderByMembers(lt, rows[1..]);
      InsertAscending(lt, rows[0], OrderBy(lt, rows[1..]));
    }
  }

  /** The first row of an ordered table is before every other row. */
  lemma FirstIsLeast<T>(lt: (T, T) -> bool, a: seq<T>, x: T)
    requires Ascending(lt, a) && x in a
    ensures x == a[0] || lt(a[0], x)
  {
    var i :| 0 <= i < |a| && a[i] == x;
  }

  /** Only one arrangement of a table is in order, so the database has no choice. */
  lemma {:induction false} OrderIsUnique<T(!new)>(lt: (T, T) -> bool, a: seq<T>, b: seq<T>)
    requires StrictOrder(lt) && Ascending(lt, a) && Ascending(lt, b)
    requires multiset(a) == multiset(b)
    ensures a == b
  {
    assert |multiset(a)| == |multiset(b)|;
    if a != [] {
      assert a[0] == b[0] by {
        assert a[0] in multiset(b) && b[0] in multiset(a);
        FirstIsLeast(lt, a, b[0]);
        FirstIsLeast(lt, b, a[0]);
      }
      var s, t := a[1..], b[1..];
      assert a == [a[0]] + s && b == [a[0]] + t;
      assert multiset(s) == multiset(a) - multiset{a[0]};
      assert multiset(t) == multiset(b) - multiset{a[0]};
      assert Ascending(lt, s) && Ascending(lt, t);
      OrderIsUnique(lt, s, t);
    }
  }

  lemma {:induction false} FilterTwice<T>(p: T -> bool, q: T -> bool, both: T -> bool, rows: seq<T>)
    requires forall x :: x in rows ==> (both(x) <==> p(x) && q(x))
    ensures Filter(q, Filter(p, rows)) == Filter(both, rows)
  {
    if rows != [] {
      FilterTwice(p, q, both, rows[1..]);
      assert ([rows[0]] + Filter(p, rows[1..]))[1..] == Filter(p, rows[1..]);
    }
  }

  lemma {:induction false} FilterMembers<T>(keep: T -> bool, rows: seq<T>)
    ensures forall x :: x in Filter(keep, rows) <==> x in rows && keep(x)
    ensures |Filter(keep, rows)| <= |rows|
  {
    if rows != [] {
      FilterMembers(keep, rows[1..]);
    }
  }

  lemma {:induction false} FilterCong<T>(p: T -> bool, q: T -> bool, rows: seq<T>)
    requires forall x :: x in rows ==> p(x) == q(x)
    ensures Filter(p, rows) == Filter(q, rows)
  {
    if rows != [] {
      FilterCong(p, q, rows[1..]);
    }
  }

  lemma {:induction false} FilterInsert<T(!new)>(lt: (T, T) -> bool, keep: T -> bool, row: T, rows: seq<T>)
    requires StrictOrder(lt) && Ascending(lt, rows)
    ensures Filter(keep, Insert(lt, row, rows))
         == if keep(row) then Insert(lt, row, Filter(keep, rows)) else Filter(keep, rows)
  {
    if rows != [] {
      if lt(row, rows[0]) {
        assert ([row] + rows)[1..] == rows;
        var kept := Filter(keep, rows);
        if kept != [] {
          FilterMembers(keep, rows);
          assert kept[0] in rows;
          assert lt(row, kept[0]);
        }
      } else {
        FilterInsert(lt, keep, row, rows[1..]);
        assert ([rows[0]] + Insert(lt, row, rows[1..]))[1..] == Insert(lt, row, rows[1..]);
        if keep(rows[0]) {
          assert Filter(keep, rows)[1..] == Filter(keep, rows[1..]);
        }
      }
    }
  }

  /** Filtering before or after ORDER BY is the same query. */
  lemma {:induction false} FilterOrderBy<T(!new)>(lt: (T, T) -> bool, keep: T -> bool, rows: seq<T>)
    requires StrictOrder(lt) && Keyed(lt, rows)
    ensures OrderBy(lt, Filter(keep, rows)) == Filter(keep, OrderBy(lt, rows))
  {
    if rows != [] {
      FilterOrderBy(lt, keep, rows[1..]);
      OrderByAscending(lt, rows[1..]);
      FilterInsert(lt, keep, rows[0], OrderBy(lt, rows[1..]));
      if keep(rows[0]) {
        assert Filter(keep, rows) == [rows[0]] + Filter(keep, rows[1..]);
        assert ([rows[0]] + Filter(keep, rows[1..]))[1..] == Filter(keep, rows[1..]);
      }
    }
  }

  lemma {:induction false} FilterAll<T>(keep: T -> bool, rows: seq<T>)
    requires forall x :: x in rows ==> keep(x)
    ensures Filter(keep, rows) == rows
  {
    if rows != [] {
      FilterAll(keep, rows[1..]);
    }
  }

  /** In an ordered table the rows after the k-th are the rest of the table. */
  lemma {:induction false} RowsAfter<T(!new)>(lt: (T, T) -> bool, keep: T -> bool, rows: seq<T>, k: nat)
    requires StrictOrder(lt) && Ascending(lt, rows) && k < |rows|
    requires forall x :: keep(x) <==> lt(rows[k], x)
    ensures Filter(keep, rows) == rows[k + 1..]
  {
    if k == 0 {
      FilterAll(keep, rows[1..]);
    } else {
      assert lt(rows[0], rows[k]) && !lt(rows[0], rows[0]);
      RowsAfter(lt, keep, rows[1..], k - 1);
    }
  }

  // ---------------------------------------------------------------- pages

  /** The cursor condition of the page query. */
  function Admits<T, C>(s: Scheme<T, C>, cur: Option<C>): T -> bool {
    match cur
    case None => x => true
    case Some(c) => x => s.after(c, x)
  }

  /** The rows the page query may still return. */
  function Remaining<T, C>(s: Scheme<T, C>, rows: seq<T>, cur: Option<C>): seq<T> {
    Filter(Admits(s, cur), rows)
  }

  /** One page: limit+1 rows are read, the extra one only says that there is more. */
  function CutPage<T, C>(enc: T -> C, ordered: seq<T>, limit: nat): Page<T, C>
    requires limit > 0
  {
    if |ordered| > limit
    then Page(ordered[..limit], true, Some(enc(ordered[limit - 1])))
    else Page(ordered, false, None)
  }

  function FetchPage<T, C>(s: Scheme<T, C>, rows: seq<T>, cur: Option<C>, limit: nat): Page<T, C>
    requires limit > 0
  {
    CutPage(s.enc, OrderBy(s.lt, Remaining(s, rows, cur)), limit)
  }

  /** The row loop of a page: LIMIT limit+1, the probe row, the cut and the cursor. */
  method ReadPage<T, C>(enc: T -> C, ordered: seq<T>, limit: nat) returns (page: Page<T, C>)
    requires limit > 0
    ensures page == CutPage(enc, ordered, limit)
  {
    var raws: seq<T> := [];
    while |raws| < |ordered| && |raws| < limit + 1
      invariant |raws| <= limit + 1 && |raws| <= |ordered| && raws == ordered[..|raws|]
      decreases |ordered| - |raws|
    {
      raws := raws + [ordered[|raws|]];
    }
    var hasMore := |raws| > limit;
    if hasMore {
      raws := raws[..limit];
    }
    var next: Option<C> := None;
    if hasMore && |raws| > 0 {
      next := Some(enc(raws[|raws| - 1]));
    }
    page := Page(raws, hasMore, next);
  }

  /** The n-th page of a client that starts without a cursor and follows `next`. */
  function NthPage<T, C>(fetch: Option<C> -> Page<T, C>, n: nat): Page<T, C> {
    if n == 0 then fetch(None)
    else
      var prev := NthPage(fetch, n - 1);
      if prev.next.None? then Page([], false, None) else fetch(prev.next)
  }

  /** Everything such a client has seen after n pages. */
  function Walk<T, C>(fetch: Option<C> -> Page<T, C>, n: nat): seq<T> {
    if n == 0 then [] else Walk(fetch, n - 1) + NthPage(fetch, n - 1).items
  }

  /** The page query of one table, as a function of the cursor. */
  function Fetcher<T, C>(s: Scheme<T, C>, rows: seq<T>, limit: nat): Option<C> -> Page<T, C>
    requires limit > 0
  {
    cur => FetchPage(s, rows, cur, limit)
  }

  /** The cursor made from row r selects exactly the rows ordered after r. */
  ghost predicate Resumes<T(!new), C>(s: Scheme<T, C>, r: T) {
    forall x :: s.after(s.enc(r), x) <==> s.lt(r, x)
  }

  function Min(a: int, b: int): int { if a < b then a else b }

  /** Where the client stands when it has seen the first `seen` rows. */
  function CursorAt<T, C>(enc: T -> C, all: seq<T>, seen: nat): Option<C>
    requires seen <= |all|
  {
    if seen == 0 then None else Some(enc(all[seen - 1]))
  }

  /** Resuming after row `seen` of the ordered table reads on from there. */
  lemma RemainingIsSuffix<T(!new), C>(s: Scheme<T, C>, rows: seq<T>, seen: nat)
    requires StrictOrder(s.lt) && Keyed(s.lt, rows)
    requires forall r :: r in rows ==> Resumes(s, r)
    requires seen <= |rows|
    ensures |OrderBy(s.lt, rows)| == |rows|
    ensures var all := OrderBy(s.lt, rows);
            OrderBy(s.lt, Remaining(s, rows, CursorAt(s.enc, all, seen))) == all[seen..]
  {
    var all := OrderBy(s.lt, rows);
    OrderByMultiset(s.lt, rows);
    var keep := Admits(s, CursorAt(s.enc, all, seen));
    if seen == 0 {
      FilterAll(keep, rows);
    } else {
      OrderByMembers(s.lt, rows);
      var r := all[seen - 1];
      assert r in rows && Resumes(s, r);
      FilterOrderBy(s.lt, keep, rows);
      OrderByAscending(s.lt, rows);
      RowsAfter(s.lt, keep, all, seen - 1);
    }
  }

  /** The page that shows the rows of `all` from position `seen` on. */
  function SlicePage<T, C>(enc: T -> C, all: seq<T>, limit: nat, seen: nat): Page<T, C>
    requires seen <= |all|
  {
    if seen + limit < |all|
    then Page(all[seen..seen + limit], true, CursorAt(enc, all, seen + limit))
    else Page(all[seen..], false, None)
  }

  /** From every position the fetched page is the next slice of `all`. */
  ghost predicate ServesSlices<T, C>(fetch: Option<C> -> Page<T, C>, enc: T -> C, all: seq<T>, limit: nat) {
    forall seen: nat :: seen <= |all| ==>
      fetch(CursorAt(enc, all, seen)) == SlicePage(enc, all, limit, seen)
  }

  /** The conditions under which a walk reads its table. */
  ghost predicate Walkable<T(!new), C>(s: Scheme<T, C>, rows: seq<T>) {
    && StrictOrder(s.lt)
    && Keyed(s.lt, rows)
    && forall r :: r in rows ==> Resumes(s, r)
  }

  lemma PagesAreSlices<T(!new), C>(s: Scheme<T, C>, rows: seq<T>, limit: nat)
    requires limit > 0 && Walkable(s, rows)
    ensures ServesSlices(Fetcher(s, rows, limit), s.enc, OrderBy(s.lt, rows), limit)
  {
    var all := OrderBy(s.lt, rows);
    OrderByMultiset(s.lt, rows);
    forall seen: nat | seen <= |all|
      ensures FetchPage(s, rows, CursorAt(s.enc, all, seen), limit) == SlicePage(s.enc, all, limit, seen)
    {
      RemainingIsSuffix(s, rows, seen);
      var rest := all[seen..];
      assert OrderBy(s.lt, Remaining(s, rows, CursorAt(s.enc, all, seen))) == rest;
      if seen + limit < |all| {
        assert rest[..limit] == all[seen..seen + limit];
        assert rest[limit - 1] == all[seen + limit - 1];
      }
    }
  }

  /** How many rows a client has seen after n pages of a table of `total` rows. */
  function Seen(n: nat, limit: nat, total: nat): (seen: nat)
    ensures seen <= total
  {
    if n == 0 then 0 else Min(Seen(n - 1, limit, total) + limit, total)
  }

  lemma {:induction false} SeenGrows(n: nat, m: nat, limit: nat, total: nat)
    requires n <= m
    ensures Seen(n, limit, total) <= Seen(m, limit, total)
    decreases m
  {
    if n < m {
      SeenGrows(n, m - 1, limit, total);
    }
  }

  /** That is n full pages, or the whole table; so ceil(total/limit) pages suffice. */
  lemma {:induction false} SeenIsProduct(n: nat, limit: nat, total: nat)
    ensures Seen(n, limit, total) == Min(n * limit, total)
  {
    if n > 0 {
      SeenIsProduct(n - 1, limit, total);
      assert n * limit == (n - 1) * limit + limit;
    }
  }

  lemma {:induction false} NthSlice<T, C>(fetch: Option<C> -> Page<T, C>, enc: T -> C, all: seq<T>, limit: nat, n: nat)
    requires limit > 0 && ServesSlices(fetch, enc, all, limit)
    ensures var from := Seen(n, limit, |all|);
            NthPage(fetch, n)
            == if n == 0 || from < |all| then SlicePage(enc, all, limit, from) else Page([], false, None)
  {
    var from := Seen(n, limit, |all|);
    assert fetch(CursorAt(enc, all, from)) == SlicePage(enc, all, limit, from);
    if n > 0 {
      NthSlice(fetch, enc, all, limit, n - 1);
    }
  }

  lemma {:induction false} WalkedPrefix<T, C>(fetch: Option<C> -> Page<T, C>, enc: T -> C, all: seq<T>, limit: nat, n: nat)
    requires limit > 0 && ServesSlices(fetch, enc, all, limit)
    ensures Walk(fetch, n) == all[..Seen(n, limit, |all|)]
  {
    if n > 0 {
      WalkedPrefix(fetch, enc, all, limit, n - 1);
      var before, upto := Seen(n - 1, limit, |all|), Seen(n, limit, |all|);
      assert NthPage(fetch, n - 1).items == all[before..upto] by {
        NthSlice(fetch, enc, all, limit, n - 1);
      }
      assert all[..before] + all[before..upto] == all[..upto];
    }
  }

  /** Main result: if every cursor resumes, the n-th page is the n-th slice of the
      ordered table and its flags are right; after n pages the client has seen the
      first Seen(n) rows, so the walk terminates having shown every row once. */
  lemma WalkReadsTable<T(!new), C>(s: Scheme<T, C>, rows: seq<T>, limit: nat, n: nat)
    requires limit > 0 && Walkable(s, rows)
    ensures |OrderBy(s.lt, rows)| == |rows|
    ensures Walk(Fetcher(s, rows, limit), n) == OrderBy(s.lt, rows)[..Seen(n, limit, |rows|)]
    ensures var page := NthPage(Fetcher(s, rows, limit), n);
            var to := Seen(n + 1, limit, |rows|);
            && page.items == OrderBy(s.lt, rows)[Seen(n, limit, |rows|)..to]
            && (page.hasMore <==> to < |rows|)
            && (page.next.Some? <==> page.hasMore)
  {
    var all := OrderBy(s.lt, rows);
    OrderByMultiset(s.lt, rows);
    PagesAreSlices(s, rows, limit);
    var fetch := Fetcher(s, rows, limit);
    NthSlice(fetch, s.enc, all, limit, n);
    WalkedPrefix(fetch, s.enc, all, limit, n);
  }

  /** The converse: one row r whose cursor misses a row x ordered after it spoils a two-row
      table, because the page after r does not show x. */
  lemma BadCursorSpoilsWalk<T(!new), C>(s: Scheme<T, C>, r: T, x: T)
    requires StrictOrder(s.lt) && s.lt(r, x) && !s.after(s.enc(r), x)
    ensures Keyed(s.lt, [r, x])
    ensures OrderBy(s.lt, [r, x]) == [r, x]
    ensures NthPage(Fetcher(s, [r, x], 1), 0) == Page([r], true, Some(s.enc(r)))
    ensures x !in NthPage(Fetcher(s, [r, x], 1), 1).items
    ensures NthPage(Fetcher(s, [r, x], 1), 1).items != OrderBy(s.lt, [r, x])[1..2]
  {
    var rows := [r, x];
    FilterAll(Admits(s, None), rows);
    assert rows[1..] == [x] && [x][1..] == [];
    assert OrderBy(s.lt, [x]) == [x];
    assert OrderBy(s.lt, rows) == Insert(s.lt, r, [x]) == [r, x];
    var cur := Some(s.enc(r));
    var left := Remaining(s, rows, cur);
    FilterMembers(Admits(s, cur), rows);
    assert x !in left;
    OrderByMembers(s.lt, left);
    assert x !in OrderBy(s.lt, left);
  }

  /** A cursor the query ignores is worse: the client gets the first page for ever. */
  lemma {:induction false} IgnoredCursorRepeats<T(!new), C>(s: Scheme<T, C>, r: T, x: T, n: nat)
    requires StrictOrder(s.lt) && s.lt(r, x)
    requires forall y :: s.after(s.enc(r), y)
    ensures Keyed(s.lt, [r, x])
    ensures NthPage(Fetcher(s, [r, x], 1), n) == Page([r], true, Some(s.enc(r)))
  {
    var rows := [r, x];
    if n > 0 {
      IgnoredCursorRepeats(s, r, x, n - 1);
    }
    var cur := if n == 0 then None else Some(s.enc(r));
    FilterAll(Admits(s, cur), rows);
    assert rows[1..] == [x] && [x][1..] == [];
    assert OrderBy(s.lt, [x]) == [x];
    assert OrderBy(s.lt, rows) == Insert(s.lt, r, [x]) == [r, x];
    assert FetchPage(s, rows, cur, 1) == Page([r], true, Some(s.enc(r)));
  }
}
