/** The lead list: eight sort modes over the filtered leads, each with its own ORDER BY,
    cursor and "strictly after" condition. */
module LeadListing {
  import opened Wrappers
  import opened Model
  import opened Text
  import opened Sql
  import opened LeadQuery
  import opened LeadWhere
  import opened WhereBuilding
  import opened Keyset

  datatype SortMode = ByName | Newest | Oldest | Recent | ByStatus | ByStage | ByValue | ByAnalyst

  /** A decoded cursor.  `sort` is None when the client sent none, `t` and `v` when the
      text is empty or does not parse. */
  datatype Cursor = Cursor(sort: Option<SortMode>, t: Option<Time>, id: Id, n: string, v: Option<real>, k: string)

  const NO_CURSOR := Cursor(None, None, "", "", None, "")

  /** A lead joined with the name of its creator. */
  datatype ListRow = ListRow(lead: Lead, creator: Option<string>)

  datatype ListPage = ListPage(items: seq<ListRow>, next: Option<Cursor>, hasMore: bool, total: nat)

  const DEFAULT_LIMIT := 40
  const MAX_LIMIT := 100

  function ClampLimit(limit: int): (n: nat)
    ensures 1 <= n <= MAX_LIMIT
  {
    if limit <= 0 then DEFAULT_LIMIT else if limit > MAX_LIMIT then MAX_LIMIT else limit
  }

  // ---------------------------------------------------------------- ORDER BY

  function LowerName(loc: Locale, x: ListRow): string { Fold(loc, x.lead.leadName) }

  function KeyOf(mode: SortMode, x: ListRow): string {
    match mode
    case ByStatus => x.lead.qualificationStatus
    case ByStage => x.lead.salesStage
    case _ => Opt(x.creator)   // COALESCE(cb.name, '')
  }

  /** DESC NULLS LAST. */
  predicate Richer(v: Option<real>, w: Option<real>) { v.Some? && (w.None? || v.value > w.value) }

  /** "createdAt" DESC, id DESC */
  predicate Newer(loc: Locale, x: ListRow, y: ListRow) {
    PairBelow(loc, y.lead.createdAt, y.lead.id, x.lead.createdAt, x.lead.id)
  }

  predicate Precedes(loc: Locale, mode: SortMode, x: ListRow, y: ListRow) {
    match mode
    case ByName =>
      || loc.lt(LowerName(loc, x), LowerName(loc, y))
      || (LowerName(loc, x) == LowerName(loc, y) && loc.lt(x.lead.id, y.lead.id))
    case Newest => Newer(loc, x, y)
    case Oldest => PairBelow(loc, x.lead.createdAt, x.lead.id, y.lead.createdAt, y.lead.id)
    case Recent => PairBelow(loc, y.lead.updatedAt, y.lead.id, x.lead.updatedAt, x.lead.id)
    case ByValue =>
      || Richer(x.lead.estimatedDealValue, y.lead.estimatedDealValue)
      || (x.lead.estimatedDealValue == y.lead.estimatedDealValue && Newer(loc, x, y))
    case _ =>
      || loc.lt(KeyOf(mode, x), KeyOf(mode, y))
      || (KeyOf(mode, x) == KeyOf(mode, y) && Newer(loc, x, y))
  }

  // ---------------------------------------------------------------- cursors

  const DASH := "—"

  /** The cursor the page ends with. */
  function CursorOf(mode: SortMode, x: ListRow): Cursor {
    Cursor(
      Some(mode),
      Some(if mode == Recent then x.lead.updatedAt else x.lead.createdAt),
      x.lead.id,
      if mode == ByName then x.lead.leadName
      else if mode == ByAnalyst then (if x.creator.Some? then x.creator.value else DASH)
      else "",
      if mode == ByValue then x.lead.estimatedDealValue else None,
      if mode == ByStatus || mode == ByStage then KeyOf(mode, x) else "")
  }

  /** The guards around the cursor clauses: when one fails the cursor has no effect. */
  predicate Ignored(mode: SortMode, c: Cursor) {
    match mode
    case ByName => c.id == ""
    case ByStatus => c.id == "" || c.k == "" || c.t.None?
    case ByStage => c.id == "" || c.k == "" || c.t.None?
    case _ => c.id == "" || c.t.None?
  }

  /** What a cursor in force asks of a row. */
  predicate After(loc: Locale, mode: SortMode, c: Cursor, x: ListRow)
    requires !Ignored(mode, c)
  {
    var l := x.lead;
    match mode
    case ByName => loc.lt(Fold(loc, c.n), LowerName(loc, x)) || (LowerName(loc, x) == Fold(loc, c.n) && loc.lt(c.id, l.id))
    case Newest => PairBelow(loc, l.createdAt, l.id, c.t.value, c.id)
    case Oldest => PairBelow(loc, c.t.value, c.id, l.createdAt, l.id)
    case Recent => PairBelow(loc, l.updatedAt, l.id, c.t.value, c.id)
    case ByValue => Richer(c.v, l.estimatedDealValue) || (l.estimatedDealValue == c.v && PairBelow(loc, l.createdAt, l.id, c.t.value, c.id))
    case _ =>
      var key := if mode == ByAnalyst then c.n else c.k;
      loc.lt(key, KeyOf(mode, x)) || (KeyOf(mode, x) == key && PairBelow(loc, l.createdAt, l.id, c.t.value, c.id))
  }

  function SortScheme(loc: Locale, mode: SortMode): Scheme<ListRow, Cursor> {
    Scheme((x, y) => Precedes(loc, mode, x, y), x => CursorOf(mode, x), (c, x) => Ignored(mode, c) || After(loc, mode, c, x))
  }

  // ---------------------------------------------------------------- the cursor clause in SQL

  /** The five shapes of cursor clause, with the numbers of their placeholders. */
  datatype CursorClause =
    | Unrestricted
    | NameAfter(a: nat, b: nat)
    | CreatedAbove(a: nat, b: nat)
    | CreatedBelow(a: nat, b: nat)
    | UpdatedBelow(a: nat, b: nat)
    | KeyAfter(a: nat, b: nat, c: nat)
    | ValueAfter(a: nat, b: nat, c: nat)

  function ParamTime(args: seq<Value>, n: nat): Option<Time> {
    if 1 <= n <= |args| && args[n - 1].TimeValue? then Some(args[n - 1].time) else None
  }

  function ParamNumber(args: seq<Value>, n: nat): Option<real> {
    if 1 <= n <= |args| && args[n - 1].NumberValue? then Some(args[n - 1].number) else None
  }

  function TextAbove(loc: Locale, v: Option<string>, w: Option<string>): Truth {
    if v.None? || w.None? then Unknown else Known(loc.lt(w.value, v.value))
  }

  function NumberBelow(v: Option<real>, w: Option<real>): Truth {
    if v.None? || w.None? then Unknown else Known(v.value < w.value)
  }

  function NumberEqual(v: Option<real>, w: Option<real>): Truth {
    if v.None? || w.None? then Unknown else Known(v.value == w.value)
  }

  /** (t, id) < ($b, $c) */
  function PairBelowParam(loc: Locale, t: Time, id: Id, args: seq<Value>, b: nat, c: nat): Truth {
    var u, jd := ParamTime(args, b), ParamText(args, c);
    if u.None? || jd.None? then Unknown else Known(PairBelow(loc, t, id, u.value, jd.value))
  }

  /** (t, id) > ($b, $c) */
  function PairAboveParam(loc: Locale, t: Time, id: Id, args: seq<Value>, b: nat, c: nat): Truth {
    var u, jd := ParamTime(args, b), ParamText(args, c);
    if u.None? || jd.None? then Unknown else Known(PairBelow(loc, u.value, jd.value, t, id))
  }

  function EvalCursor(loc: Locale, mode: SortMode, args: seq<Value>, x: ListRow, clause: CursorClause): Truth {
    var l := x.lead;
    match clause
    case Unrestricted => Yes
    case NameAfter(a, b) =>
      var key, id := ParamText(args, a), ParamText(args, b);
      Either(TextAbove(loc, Some(LowerName(loc, x)), key),
             Both(Equals(Some(LowerName(loc, x)), key), TextAbove(loc, Some(l.id), id)))
    case CreatedAbove(a, b) => PairAboveParam(loc, l.createdAt, l.id, args, a, b)
    case CreatedBelow(a, b) => PairBelowParam(loc, l.createdAt, l.id, args, a, b)
    case UpdatedBelow(a, b) => PairBelowParam(loc, l.updatedAt, l.id, args, a, b)
    case KeyAfter(a, b, c) =>
      var key := ParamText(args, a);
      Either(TextAbove(loc, Some(KeyOf(mode, x)), key),
             Both(Equals(Some(KeyOf(mode, x)), key), PairBelowParam(loc, l.createdAt, l.id, args, b, c)))
    case ValueAfter(a, b, c) =>
      var deal, v := l.estimatedDealValue, ParamNumber(args, a);
      var older := PairBelowParam(loc, l.createdAt, l.id, args, b, c);
      Either(
        Both(Known(v.Some?),
             Either(Either(Known(deal.None?), NumberBelow(deal, v)), Both(NumberEqual(deal, v), older))),
        Both(Both(Known(v.None?), Known(deal.None?)), older))
  }

  /** Arguments appended last are found at their numbers, whatever is appended later. */
  lemma LastParams(args0: seq<Value>, tail: seq<Value>, more: seq<Value>)
    ensures forall i :: 0 <= i < |tail| ==> (args0 + tail + more)[|args0| + i] == tail[i]
  {
  }

  lemma NameClause(loc: Locale, cur: Cursor, args0: seq<Value>, more: seq<Value>, x: ListRow)
    requires !Ignored(ByName, cur)
    ensures var args := args0 + [TextValue(Fold(loc, cur.n)), TextValue(cur.id)] + more;
            EvalCursor(loc, ByName, args, x, NameAfter(|args0| + 1, |args0| + 2)) == Yes <==> After(loc, ByName, cur, x)
  {
    var tail := [TextValue(Fold(loc, cur.n)), TextValue(cur.id)];
    LastParams(args0, tail, more);
    assert ParamText(args0 + tail + more, |args0| + 1) == Some(Fold(loc, cur.n));
    assert ParamText(args0 + tail + more, |args0| + 2) == Some(cur.id);
  }

  predicate SortsByKey(mode: SortMode) { mode == ByStatus || mode == ByStage || mode == ByAnalyst }

  function CursorKey(mode: SortMode, cur: Cursor): string { if mode == ByAnalyst then cur.n else cur.k }

  lemma KeyClause(loc: Locale, mode: SortMode, cur: Cursor, args0: seq<Value>, more: seq<Value>, x: ListRow)
    requires SortsByKey(mode) && !Ignored(mode, cur)
    ensures var args := args0 + [TextValue(CursorKey(mode, cur)), TimeValue(cur.t.value), TextValue(cur.id)] + more;
            EvalCursor(loc, mode, args, x, KeyAfter(|args0| + 1, |args0| + 2, |args0| + 3)) == Yes
            <==> After(loc, mode, cur, x)
  {
    var tail := [TextValue(CursorKey(mode, cur)), TimeValue(cur.t.value), TextValue(cur.id)];
    LastParams(args0, tail, more);
    assert ParamText(args0 + tail + more, |args0| + 1) == Some(CursorKey(mode, cur));
    assert ParamTime(args0 + tail + more, |args0| + 2) == Some(cur.t.value);
    assert ParamText(args0 + tail + more, |args0| + 3) == Some(cur.id);
  }

  function DealParam(v: Option<real>): Value { if v.Some? then NumberValue(v.value) else NullValue }

  /** The three-valued clause of the value sort is NULLS LAST. */
  lemma ValueClause(loc: Locale, cur: Cursor, args0: seq<Value>, more: seq<Value>, x: ListRow)
    requires !Ignored(ByValue, cur)
    ensures var args := args0 + [DealParam(cur.v), TimeValue(cur.t.value), TextValue(cur.id)] + more;
            EvalCursor(loc, ByValue, args, x, ValueAfter(|args0| + 1, |args0| + 2, |args0| + 3)) == Yes
            <==> After(loc, ByValue, cur, x)
  {
    var tail := [DealParam(cur.v), TimeValue(cur.t.value), TextValue(cur.id)];
    LastParams(args0, tail, more);
    assert ParamNumber(args0 + tail + more, |args0| + 1) == cur.v;
    assert ParamTime(args0 + tail + more, |args0| + 2) == Some(cur.t.value);
    assert ParamText(args0 + tail + more, |args0| + 3) == Some(cur.id);
  }

  predicate SortsByTime(mode: SortMode) { mode == Newest || mode == Oldest || mode == Recent }

  function TimeClauseOf(mode: SortMode, a: nat): CursorClause
    requires SortsByTime(mode)
  {
    match mode
    case Newest => CreatedBelow(a, a + 1)
    case Oldest => CreatedAbove(a, a + 1)
    case Recent => UpdatedBelow(a, a + 1)
  }

  lemma TimeClause(loc: Locale, mode: SortMode, cur: Cursor, args0: seq<Value>, more: seq<Value>, x: ListRow)
    requires SortsByTime(mode) && !Ignored(mode, cur)
    ensures var args := args0 + [TimeValue(cur.t.value), TextValue(cur.id)] + more;
            EvalCursor(loc, mode, args, x, TimeClauseOf(mode, |args0| + 1)) == Yes <==> After(loc, mode, cur, x)
  {
    var tail := [TimeValue(cur.t.value), TextValue(cur.id)];
    LastParams(args0, tail, more);
    assert ParamTime(args0 + tail + more, |args0| + 1) == Some(cur.t.value);
    assert ParamText(args0 + tail + more, |args0| + 2) == Some(cur.id);
  }

  /** The clause admits the rows the cursor asks for, whatever arguments follow. */
  ghost predicate Restricts(loc: Locale, mode: SortMode, cur: Cursor, clause: CursorClause, args: seq<Value>) {
    forall more: seq<Value>, x: ListRow {:trigger EvalCursor(loc, mode, args + more, x, clause)} ::
      EvalCursor(loc, mode, args + more, x, clause) == Yes <==> Ignored(mode, cur) || After(loc, mode, cur, x)
  }

  lemma EachRestricts(loc: Locale, mode: SortMode, cur: Cursor, args0: seq<Value>)
    requires !Ignored(mode, cur)
    ensures SortsByTime(mode) ==>
              Restricts(loc, mode, cur, TimeClauseOf(mode, |args0| + 1), args0 + [TimeValue(cur.t.value), TextValue(cur.id)])
    ensures SortsByKey(mode) ==>
              Restricts(loc, mode, cur, KeyAfter(|args0| + 1, |args0| + 2, |args0| + 3),
                        args0 + [TextValue(CursorKey(mode, cur)), TimeValue(cur.t.value), TextValue(cur.id)])
    ensures mode == ByName ==>
              Restricts(loc, mode, cur, NameAfter(|args0| + 1, |args0| + 2), args0 + [TextValue(Fold(loc, cur.n)), TextValue(cur.id)])
    ensures mode == ByValue ==>
              Restricts(loc, mode, cur, ValueAfter(|args0| + 1, |args0| + 2, |args0| + 3),
                        args0 + [DealParam(cur.v), TimeValue(cur.t.value), TextValue(cur.id)])
  {
    hide EvalCursor, After, Fold, CursorKey, DealParam;
    if SortsByTime(mode) {
      forall more: seq<Value>, x: ListRow { TimeClause(loc, mode, cur, args0, more, x); }
    } else if mode == ByName {
      forall more: seq<Value>, x: ListRow { NameClause(loc, cur, args0, more, x); }
    } else if mode == ByValue {
      forall more: seq<Value>, x: ListRow { ValueClause(loc, cur, args0, more, x); }
    } else {
      forall more: seq<Value>, x: ListRow { KeyClause(loc, mode, cur, args0, more, x); }
    }
  }

  lemma NoClauseRestricts(loc: Locale, mode: SortMode, cur: Cursor, args: seq<Value>)
    requires Ignored(mode, cur)
    ensures Restricts(loc, mode, cur, Unrestricted, args)
  {
    hide Ignored;
  }

  /** The switch of List: append the cursor's arguments and number their placeholders. */
  method AppendCursor(loc: Locale, mode: SortMode, cur: Cursor, args0: seq<Value>)
    returns (clause: CursorClause, args: seq<Value>)
    ensures args0 <= args && Restricts(loc, mode, cur, clause, args)
  {
    if Ignored(mode, cur) {
      NoClauseRestricts(loc, mode, cur, args0);
      return Unrestricted, args0;
    }
    EachRestricts(loc, mode, cur, args0);
    hide Restricts, Fold, CursorKey, DealParam;
    if SortsByTime(mode) {
      args := args0 + [TimeValue(cur.t.value), TextValue(cur.id)];
      clause := TimeClauseOf(mode, |args| - 1);
    } else if mode == ByName {
      args := args0 + [TextValue(Fold(loc, cur.n)), TextValue(cur.id)];
      clause := NameAfter(|args| - 1, |args|);
    } else if mode == ByValue {
      args := args0 + [DealParam(cur.v), TimeValue(cur.t.value), TextValue(cur.id)];
      clause := ValueAfter(|args| - 2, |args| - 1, |args|);
    } else {
      args := args0 + [TextValue(CursorKey(mode, cur)), TimeValue(cur.t.value), TextValue(cur.id)];
      clause := KeyAfter(|args| - 2, |args| - 1, |args|);
    }
  }

  // ---------------------------------------------------------------- the orders

  /** Text columns compare in a strict total order with the empty text first. */
  ghost predicate CollationOk(loc: Locale) {
    && StrictOrder(loc.lt)
    && (forall a, b :: a == b || loc.lt(a, b) || loc.lt(b, a))
    && (forall a :: a != "" ==> loc.lt("", a))
  }

  lemma PairBelowTrans(loc: Locale, a: ListRow, b: ListRow, c: ListRow)
    requires CollationOk(loc) && Newer(loc, a, b) && Newer(loc, b, c)
    ensures Newer(loc, a, c)
  {
  }

  lemma PrecedesTrans(loc: Locale, mode: SortMode, a: ListRow, b: ListRow, c: ListRow)
    requires CollationOk(loc) && Precedes(loc, mode, a, b) && Precedes(loc, mode, b, c)
    ensures Precedes(loc, mode, a, c)
  {
    if Newer(loc, a, b) && Newer(loc, b, c) {
      PairBelowTrans(loc, a, b, c);
    }
  }

  lemma SortIsStrict(loc: Locale, mode: SortMode)
    requires CollationOk(loc)
    ensures StrictOrder(SortScheme(loc, mode).lt)
  {
    forall a, b, c | Precedes(loc, mode, a, b) && Precedes(loc, mode, b, c) ensures Precedes(loc, mode, a, c) {
      PrecedesTrans(loc, mode, a, b, c);
    }
  }

  /** The primary key. */
  ghost predicate DistinctIds(rows: seq<ListRow>) {
    forall i, j :: 0 <= i < j < |rows| ==> rows[i].lead.id != rows[j].lead.id
  }

  lemma SortIsKeyed(loc: Locale, mode: SortMode, rows: seq<ListRow>)
    requires CollationOk(loc) && DistinctIds(rows)
    ensures Keyed(SortScheme(loc, mode).lt, rows)
  {
  }

  // ---------------------------------------------------------------- which cursors resume

  /** What the cursor of a row must not lose: a status or stage key that is not empty,
      and a creator, whose absence is ordered as '' but encoded as the dash. */
  predicate CursorSafe(mode: SortMode, x: ListRow) {
    && x.lead.id != ""
    && (mode == ByStatus || mode == ByStage ==> KeyOf(mode, x) != "")
    && (mode == ByAnalyst ==> x.creator.Some?)
  }

  lemma SafeCursorResumes(loc: Locale, mode: SortMode, r: ListRow)
    requires CollationOk(loc) && CursorSafe(mode, r)
    ensures Resumes(SortScheme(loc, mode), r)
  {
    var c := CursorOf(mode, r);
    assert !Ignored(mode, c);
    forall x ensures After(loc, mode, c, x) <==> Precedes(loc, mode, r, x) {
    }
  }

  /** A row that follows r in every sort mode, and differs from it only in id and dates. */
  function NextRow(mode: SortMode, r: ListRow): ListRow {
    var created := if mode == Oldest then r.lead.createdAt + 1 else r.lead.createdAt - 1;
    ListRow(r.lead.(id := r.lead.id + "x", createdAt := created, updatedAt := r.lead.updatedAt - 1), r.creator)
  }

  /** The converse, for every unsafe row: behind r a two-row table is not walked right.
      Its second page shows r again, or skips the row that follows. */
  lemma UnsafeCursorSpoils(loc: Locale, mode: SortMode, r: ListRow)
    requires CollationOk(loc) && !CursorSafe(mode, r)
    ensures !Resumes(SortScheme(loc, mode), r)
    ensures var rows := [r, NextRow(mode, r)];
            && DistinctIds(rows)
            && OrderBy(SortScheme(loc, mode).lt, rows) == rows
            && NthPage(Fetcher(SortScheme(loc, mode), rows, 1), 0).items == [r]
            && NthPage(Fetcher(SortScheme(loc, mode), rows, 1), 1).items != [NextRow(mode, r)]
  {
    var s, x, c := SortScheme(loc, mode), NextRow(mode, r), CursorOf(mode, r);
    SortIsStrict(loc, mode);
    assert x.lead.id != r.lead.id;
    assert s.enc(r) == c;
    if Ignored(mode, c) {
      UnsafeIgnored(loc, mode, r);
      assert !s.lt(r, r) && s.after(s.enc(r), r);
      IgnoredCursorRepeats(s, r, x, 0);
      IgnoredCursorRepeats(s, r, x, 1);
      FirstPageIsOrdered(s, r, x);
    } else {
      assert Precedes(loc, mode, r, x) && !After(loc, mode, c, x);
      BadCursorSpoilsWalk(s, r, x);
    }
  }

  lemma UnsafeIgnored(loc: Locale, mode: SortMode, r: ListRow)
    requires CollationOk(loc) && Ignored(mode, CursorOf(mode, r))
    ensures Precedes(loc, mode, r, NextRow(mode, r))
  {
    if mode == ByName {
      assert loc.lt("", "" + "x");
    }
  }

  lemma FirstPageIsOrdered<T(!new), C>(s: Scheme<T, C>, r: T, x: T)
    requires s.lt(r, x)
    ensures OrderBy(s.lt, [r, x]) == [r, x]
  {
    assert [r, x][1..] == [x] && [x][1..] == [];
    assert OrderBy(s.lt, [x]) == [x];
  }

  // ---------------------------------------------------------------- the list

  function JoinCreator(db: Db, l: Lead): ListRow {
    var u := FindUser(db, l.createdById);
    ListRow(l, if u.Some? then Some(u.value.name) else None)
  }

  /** "Lead" l LEFT JOIN "User" cb */
  function JoinedRows(db: Db): seq<ListRow> {
    seq(|db.leads|, i requires 0 <= i < |db.leads| => JoinCreator(db, db.leads[i]))
  }

  function Listed(loc: Locale, db: Db, p: LeadListParams): ListRow -> bool {
    (x: ListRow) => Matches(loc, db, x.lead, ListTest(loc, p))
  }

  /** The rows of the direct predicate, in no particular order. */
  function ListedRows(loc: Locale, db: Db, p: LeadListParams): seq<ListRow> {
    Filter(Listed(loc, db, p), JoinedRows(db))
  }

  /** A cursor of another sort mode is dropped. */
  function InForce(mode: SortMode, cur: Cursor): Cursor {
    if cur.id != "" && cur.sort.Some? && cur.sort.value != mode then NO_CURSOR else cur
  }

  /** What one request answers when these are the rows of its filter. */
  function PageOf(loc: Locale, rows: seq<ListRow>, mode: SortMode, cur: Cursor, limit: nat): ListPage
    requires limit > 0
  {
    var page := FetchPage(SortScheme(loc, mode), rows, Some(InForce(mode, cur)), limit);
    ListPage(page.items, page.next, page.hasMore, |rows|)
  }

  function ListAnswer(loc: Locale, db: Db, p: LeadListParams, mode: SortMode, cur: Cursor, limit: nat): ListPage
    requires limit > 0
  {
    PageOf(loc, ListedRows(loc, db, p), mode, cur, limit)
  }

  lemma {:induction false} FilterSnoc<T>(keep: T -> bool, rows: seq<T>, x: T)
    ensures Filter(keep, rows + [x]) == Filter(keep, rows) + if keep(x) then [x] else []
  {
    if rows == [] {
      assert [x][1..] == [];
    } else {
      FilterSnoc(keep, rows[1..], x);
      assert (rows + [x])[1..] == rows[1..] + [x];
    }
  }

  /** A scan of the table for the rows of a WHERE condition. */
  method Scan(table: seq<ListRow>, wanted: ListRow -> bool) returns (selected: seq<ListRow>)
    ensures selected == Filter(wanted, table)
  {
    selected := [];
    for i := 0 to |table|
      invariant selected == Filter(wanted, table[..i])
    {
      FilterSnoc(wanted, table[..i], table[i]);
      assert table[..i + 1] == table[..i] + [table[i]];
      if wanted(table[i]) {
        selected := selected + [table[i]];
      }
    }
    assert table[..|table|] == table;
  }

  function WhereCondition(loc: Locale, db: Db, where: seq<Clause>, args: seq<Value>): ListRow -> bool {
    (x: ListRow) => Holds(loc, db, args, x.lead, where)
  }

  function CursorCondition(loc: Locale, mode: SortMode, clause: CursorClause, args: seq<Value>): ListRow -> bool {
    (x: ListRow) => EvalCursor(loc, mode, args, x, clause) == Yes
  }

  function AndAlso(p: ListRow -> bool, q: ListRow -> bool): ListRow -> bool { x => p(x) && q(x) }

  /** The filter clauses mean the direct predicate also in front of further arguments. */
  lemma WhereSelects(loc: Locale, db: Db, p: LeadListParams, where: seq<Clause>, filterArgs: seq<Value>, args: seq<Value>)
    requires Denotes(loc, 0, where, filterArgs, ListTest(loc, p)) && filterArgs <= args
    ensures forall x :: WhereCondition(loc, db, where, args)(x) == Listed(loc, db, p)(x)
  {
    var more := args[|filterArgs|..];
    assert args == filterArgs + more;
    forall x ensures WhereCondition(loc, db, where, args)(x) == Listed(loc, db, p)(x) {
      MoreArgumentsKeepMeaning(loc, where, filterArgs, ListTest(loc, p), more, db, x.lead);
    }
  }

  lemma CursorSelects(loc: Locale, mode: SortMode, cur: Cursor, clause: CursorClause, args: seq<Value>, more: seq<Value>)
    requires Restricts(loc, mode, cur, clause, args)
    ensures forall x :: CursorCondition(loc, mode, clause, args + more)(x) == Admits(SortScheme(loc, mode), Some(cur))(x)
  {
  }

  /** Main result: the compiled queries with their placeholders, the limit+1 probe and
      the truncation answer the page and the total of the direct predicate. */
  method List(loc: Locale, db: Db, p: LeadListParams, mode: SortMode, cursor: Cursor, requested: int)
    returns (page: ListPage)
    requires FoldOk(loc.fold)
    ensures page == ListAnswer(loc, db, p, mode, cursor, if requested <= 0 then 40 else if requested > 100 then 100 else requested)
  {
    var limit := ClampLimit(requested);
    var cur := InForce(mode, cursor);
    var where, filterArgs := BuildLeadListWhere(loc, p, 0);
    var counted := Scan(JoinedRows(db), WhereCondition(loc, db, where, filterArgs));
    WhereSelects(loc, db, p, where, filterArgs, filterArgs);
    FilterCong(WhereCondition(loc, db, where, filterArgs), Listed(loc, db, p), JoinedRows(db));

    var clause, cursorArgs := AppendCursor(loc, mode, cur, filterArgs);
    var args := cursorArgs + [NumberValue((limit + 1) as real)];
    var filter, after := WhereCondition(loc, db, where, args), CursorCondition(loc, mode, clause, args);
    WhereSelects(loc, db, p, where, filterArgs, args);
    CursorSelects(loc, mode, cur, clause, cursorArgs, [NumberValue((limit + 1) as real)]);
    var selected := Scan(JoinedRows(db), AndAlso(filter, after));
    FilterTwice(Listed(loc, db, p), Admits(SortScheme(loc, mode), Some(cur)), AndAlso(filter, after), JoinedRows(db));

    var cut := ReadPage(x => CursorOf(mode, x), OrderBy((x, y) => Precedes(loc, mode, x, y), selected), limit);
    page := ListPage(cut.items, cut.next, cut.hasMore, |counted|);
  }

  // ---------------------------------------------------------------- the walk

  ghost predicate PrimaryKey(db: Db) {
    forall i, j :: 0 <= i < j < |db.leads| ==> db.leads[i].id != db.leads[j].id
  }

  lemma {:induction false} FilterKeepsIds(keep: ListRow -> bool, rows: seq<ListRow>)
    requires DistinctIds(rows)
    ensures DistinctIds(Filter(keep, rows))
  {
    if rows != [] {
      FilterKeepsIds(keep, rows[1..]);
      FilterMembers(keep, rows[1..]);
      forall x | x in rows[1..] ensures x.lead.id != rows[0].lead.id {
        var i :| 0 <= i < |rows[1..]| && rows[1..][i] == x;
        assert x == rows[i + 1];
      }
    }
  }

  function Replies(loc: Locale, rows: seq<ListRow>, mode: SortMode, limit: nat): Cursor -> ListPage
    requires limit > 0
  {
    cur => PageOf(loc, rows, mode, cur, limit)
  }

  /** The n-th page of a client that starts without a cursor and sends `next` back. */
  function NthReply(reply: Cursor -> ListPage, n: nat): ListPage {
    if n == 0 then reply(NO_CURSOR)
    else
      var prev := NthReply(reply, n - 1);
      if prev.next.None? then ListPage([], None, false, prev.total) else reply(prev.next.value)
  }

  lemma NoCursorAdmitsAll(loc: Locale, mode: SortMode, rows: seq<ListRow>)
    ensures Remaining(SortScheme(loc, mode), rows, Some(NO_CURSOR)) == Remaining(SortScheme(loc, mode), rows, None)
  {
    assert Ignored(mode, NO_CURSOR);
    FilterAll(Admits(SortScheme(loc, mode), Some(NO_CURSOR)), rows);
    FilterAll(Admits(SortScheme(loc, mode), None), rows);
  }

  /** The cursor of a page is in force in the same sort mode. */
  lemma NextIsInForce(loc: Locale, rows: seq<ListRow>, mode: SortMode, cur: Option<Cursor>, limit: nat)
    requires limit > 0
    ensures var next := FetchPage(SortScheme(loc, mode), rows, cur, limit).next;
            next.Some? ==> InForce(mode, next.value) == next.value
  {
  }

  function WithTotal(page: Page<ListRow, Cursor>, total: nat): ListPage {
    ListPage(page.items, page.next, page.hasMore, total)
  }

  /** The replies are the pages of `fetch`, and its cursors stay in force. */
  ghost predicate Agree(reply: Cursor -> ListPage, fetch: Option<Cursor> -> Page<ListRow, Cursor>, mode: SortMode, total: nat) {
    && reply(NO_CURSOR) == WithTotal(fetch(None), total)
    && (forall c :: InForce(mode, c) == c ==> reply(c) == WithTotal(fetch(Some(c)), total))
    && (forall cur :: fetch(cur).next.Some? ==> InForce(mode, fetch(cur).next.value) == fetch(cur).next.value)
  }

  lemma RepliesAgree(loc: Locale, rows: seq<ListRow>, mode: SortMode, limit: nat)
    requires limit > 0
    ensures Agree(Replies(loc, rows, mode, limit), Fetcher(SortScheme(loc, mode), rows, limit), mode, |rows|)
  {
    NoCursorAdmitsAll(loc, mode, rows);
    forall cur {
      NextIsInForce(loc, rows, mode, cur, limit);
    }
  }

  lemma {:induction false} RepliesAreKeysetPages(reply: Cursor -> ListPage, fetch: Option<Cursor> -> Page<ListRow, Cursor>,
                                                 mode: SortMode, total: nat, n: nat)
    requires Agree(reply, fetch, mode, total)
    ensures var page := NthPage(fetch, n);
            && NthReply(reply, n) == WithTotal(page, total)
            && (page.next.Some? ==> InForce(mode, page.next.value) == page.next.value)
  {
    if n > 0 {
      RepliesAreKeysetPages(reply, fetch, mode, total, n - 1);
    }
  }

  /** Main result: for every table, parameters, sort mode and limit, the n-th page is the
      n-th slice of the filtered rows in ORDER BY order, hasMore is false exactly on the
      last one, and every page carries the exact total. */
  lemma ListWalk(loc: Locale, db: Db, p: LeadListParams, mode: SortMode, limit: nat, n: nat)
    requires limit > 0 && CollationOk(loc) && PrimaryKey(db)
    requires forall r :: r in ListedRows(loc, db, p) ==> CursorSafe(mode, r)
    ensures var rows := ListedRows(loc, db, p);
            var all := OrderBy(SortScheme(loc, mode).lt, rows);
            var page := NthReply(Replies(loc, rows, mode, limit), n);
            var upto := Seen(n + 1, limit, |rows|);
            && |all| == |rows| == page.total
            && Ascending(SortScheme(loc, mode).lt, all)
            && multiset(all) == multiset(rows)
            && page.items == all[Seen(n, limit, |rows|)..upto]
            && (page.hasMore <==> upto < |rows|)
            && (page.next.Some? <==> page.hasMore)
  {
    var s, rows := SortScheme(loc, mode), ListedRows(loc, db, p);
    assert DistinctIds(JoinedRows(db));
    FilterKeepsIds(Listed(loc, db, p), JoinedRows(db));
    SortIsStrict(loc, mode);
    SortIsKeyed(loc, mode, rows);
    forall r | r in rows ensures Resumes(s, r) {
      SafeCursorResumes(loc, mode, r);
    }
    OrderByMultiset(s.lt, rows);
    OrderByAscending(s.lt, rows);
    WalkReadsTable(s, rows, limit, n);
    RepliesAgree(loc, rows, mode, limit);
    RepliesAreKeysetPages(Replies(loc, rows, mode, limit), Fetcher(s, rows, limit), mode, |rows|, n);
  }

  // ---------------------------------------------------------------- the orders on the leads' columns

  /** x is newer than y; on the same instant the larger id comes first. */
  predicate NewerFirst(loc: Locale, x: Lead, y: Lead) {
    x.createdAt > y.createdAt || (x.createdAt == y.createdAt && loc.lt(y.id, x.id))
  }

  /** Text a stands before text b, and equal texts are in the order of `tie`. */
  predicate TextOrder(loc: Locale, a: string, b: string, tie: bool) { if a == b then tie else loc.lt(a, b) && !loc.lt(b, a) }

  /** What each sort mode promises of a row x and any row y further down. */
  predicate Standing(loc: Locale, mode: SortMode, x: ListRow, y: ListRow) {
    var a, b := x.lead, y.lead;
    match mode
    case ByName => TextOrder(loc, Fold(loc, a.leadName), Fold(loc, b.leadName), loc.lt(a.id, b.id))
    case Newest => NewerFirst(loc, a, b)
    case Oldest => NewerFirst(loc, b, a)
    case Recent => a.updatedAt > b.updatedAt || (a.updatedAt == b.updatedAt && loc.lt(b.id, a.id))
    case ByStatus => TextOrder(loc, a.qualificationStatus, b.qualificationStatus, NewerFirst(loc, a, b))
    case ByStage => TextOrder(loc, a.salesStage, b.salesStage, NewerFirst(loc, a, b))
    case ByAnalyst => TextOrder(loc, Opt(x.creator), Opt(y.creator), NewerFirst(loc, a, b))
    case ByValue =>
      match (a.estimatedDealValue, b.estimatedDealValue)
      case (Some(v), Some(w)) => v > w || (v == w && NewerFirst(loc, a, b))
      case (Some(_), None) => true
      case (None, Some(_)) => false
      case (None, None) => NewerFirst(loc, a, b)
  }

  /** A row is a stored lead the direct predicate selects, with the name of its creator. */
  predicate ShowsLead(loc: Locale, db: Db, p: LeadListParams, x: ListRow) {
    var l := x.lead;
    && l in db.leads && Matches(loc, db, l, ListTest(loc, p))
    && x.creator == if l.createdById.Some? && l.createdById.value in db.users then Some(db.users[l.createdById.value].name) else None
  }

  predicate AllStand(loc: Locale, mode: SortMode, rows: seq<ListRow>) {
    forall i, j :: 0 <= i < j < |rows| ==> Standing(loc, mode, rows[i], rows[j])
  }

  lemma SlicesStand(loc: Locale, mode: SortMode, all: seq<ListRow>, a: nat, b: nat, c: nat, d: nat, i: nat, j: nat)
    requires AllStand(loc, mode, all) && a <= b <= c <= d <= |all|
    ensures i < |all[a..b]| && j < |all[c..d]| ==> Standing(loc, mode, all[a..b][i], all[c..d][j])
  {
    hide Standing;
  }

  lemma PrecedesStands(loc: Locale, mode: SortMode, x: ListRow, y: ListRow)
    requires CollationOk(loc) && Precedes(loc, mode, x, y)
    ensures Standing(loc, mode, x, y)
  {
  }

  lemma OrderedRowsStand(loc: Locale, mode: SortMode, rows: seq<ListRow>)
    requires CollationOk(loc) && DistinctIds(rows)
    ensures var all := OrderBy(SortScheme(loc, mode).lt, rows);
      AllStand(loc, mode, all)
  {
    var lt := SortScheme(loc, mode).lt;
    SortIsStrict(loc, mode);
    SortIsKeyed(loc, mode, rows);
    OrderByAscending(lt, rows);
    var all := OrderBy(lt, rows);
    hide Standing, Precedes;
    forall i, j | 0 <= i < j < |all| ensures Standing(loc, mode, all[i], all[j]) {
      assert lt(all[i], all[j]);
      PrecedesStands(loc, mode, all[i], all[j]);
    }
  }

  lemma ListedRowsShow(loc: Locale, db: Db, p: LeadListParams)
    ensures forall x :: x in ListedRows(loc, db, p) ==> ShowsLead(loc, db, p, x)
  {
    hide Matches, ListTest;
    FilterMembers(Listed(loc, db, p), JoinedRows(db));
    forall x | x in ListedRows(loc, db, p) ensures ShowsLead(loc, db, p, x) {
      var i :| 0 <= i < |JoinedRows(db)| && JoinedRows(db)[i] == x;
      assert db.leads[i] == x.lead;
    }
  }

  lemma ListedIdsDiffer(loc: Locale, db: Db, p: LeadListParams)
    requires PrimaryKey(db)
    ensures DistinctIds(ListedRows(loc, db, p))
  {
    assert DistinctIds(JoinedRows(db));
    FilterKeepsIds(Listed(loc, db, p), JoinedRows(db));
  }

  /** Selected leads in the order of the mode. */
  ghost predicate SortedLeads(loc: Locale, db: Db, p: LeadListParams, mode: SortMode, items: seq<ListRow>) {
    && (forall i :: 0 <= i < |items| ==> ShowsLead(loc, db, p, items[i]))
    && AllStand(loc, mode, items)
  }

  lemma OrderedSelection(loc: Locale, db: Db, p: LeadListParams, mode: SortMode, keep: ListRow -> bool)
    requires CollationOk(loc) && PrimaryKey(db)
    ensures SortedLeads(loc, db, p, mode, OrderBy(SortScheme(loc, mode).lt, Filter(keep, ListedRows(loc, db, p))))
  {
    hide Standing, ShowsLead, Matches, Precedes;
    var rows := ListedRows(loc, db, p);
    ListedIdsDiffer(loc, db, p);
    ListedRowsShow(loc, db, p);
    hide ListedRows, PrimaryKey, DistinctIds, CollationOk;
    FilterKeepsIds(keep, rows);
    OrderedRowsStand(loc, mode, Filter(keep, rows));
    FilterMembers(keep, rows);
    OrderByMembers(SortScheme(loc, mode).lt, Filter(keep, rows));
    hide OrderBy, Filter;
  }

  lemma PageIsFront(loc: Locale, rows: seq<ListRow>, mode: SortMode, cur: Cursor, limit: nat)
    requires limit > 0
    ensures var s := SortScheme(loc, mode);
            var ordered := OrderBy(s.lt, Filter(Admits(s, Some(InForce(mode, cur))), rows));
            PageOf(loc, rows, mode, cur, limit).items == ordered[..Min(limit, |ordered|)]
  {
    hide OrderBy, Filter, InForce;
  }

  /** Main result: whatever the cursor, the rows of one answer are selected leads in the order
      of the sort mode, stated on the leads' columns. */
  lemma AnswerIsSorted(loc: Locale, db: Db, p: LeadListParams, mode: SortMode, cur: Cursor, limit: nat)
    requires limit > 0 && CollationOk(loc) && PrimaryKey(db)
    ensures var items := ListAnswer(loc, db, p, mode, cur, limit).items;
      |items| <= limit && SortedLeads(loc, db, p, mode, items)
  {
    hide PageOf, ListedRows, OrderBy, Filter, Admits, InForce, SortScheme, PrimaryKey, CollationOk, SortedLeads;
    var keep := Admits(SortScheme(loc, mode), Some(InForce(mode, cur)));
    OrderedSelection(loc, db, p, mode, keep);
    PageIsFront(loc, ListedRows(loc, db, p), mode, cur, limit);
    var ordered := OrderBy(SortScheme(loc, mode).lt, Filter(keep, ListedRows(loc, db, p)));
    FrontIsSorted(loc, db, p, mode, ordered, Min(limit, |ordered|));
  }

  lemma FrontIsSorted(loc: Locale, db: Db, p: LeadListParams, mode: SortMode, rows: seq<ListRow>, k: nat)
    requires SortedLeads(loc, db, p, mode, rows) && k <= |rows|
    ensures SortedLeads(loc, db, p, mode, rows[..k])
  {
    hide Standing, ShowsLead;
  }

  /** Main result: along the walk of a client the rows of any page stand before the rows of
      every later page. */
  lemma WalkIsSorted(loc: Locale, db: Db, p: LeadListParams, mode: SortMode, limit: nat, n: nat, m: nat, i: nat, j: nat)
    requires limit > 0 && CollationOk(loc) && PrimaryKey(db) && n < m
    requires forall r :: r in ListedRows(loc, db, p) ==> CursorSafe(mode, r)
    ensures var reply := Replies(loc, ListedRows(loc, db, p), mode, limit);
      i < |NthReply(reply, n).items| && j < |NthReply(reply, m).items| ==>
        Standing(loc, mode, NthReply(reply, n).items[i], NthReply(reply, m).items[j])
  {
    hide Standing, ListedRows, OrderBy, Filter, SortScheme, PrimaryKey, CollationOk, DistinctIds, NthReply, CursorSafe, Seen, AllStand, Replies;
    var rows := ListedRows(loc, db, p);
    var all := OrderBy(SortScheme(loc, mode).lt, rows);
    ReplyIsSlice(loc, db, p, mode, limit, n);
    ReplyIsSlice(loc, db, p, mode, limit, m);
    ListedIdsDiffer(loc, db, p);
    OrderedRowsStand(loc, mode, rows);
    SeenGrows(n, n + 1, limit, |rows|);
    SeenGrows(n + 1, m, limit, |rows|);
    SeenGrows(m, m + 1, limit, |rows|);
    SlicesStand(loc, mode, all, Seen(n, limit, |rows|), Seen(n + 1, limit, |rows|), Seen(m, limit, |rows|), Seen(m + 1, limit, |rows|), i, j);
  }

  lemma ReplyIsSlice(loc: Locale, db: Db, p: LeadListParams, mode: SortMode, limit: nat, n: nat)
    requires limit > 0 && CollationOk(loc) && PrimaryKey(db)
    requires forall r :: r in ListedRows(loc, db, p) ==> CursorSafe(mode, r)
    ensures var rows := ListedRows(loc, db, p);
            var all := OrderBy(SortScheme(loc, mode).lt, rows);
            && |all| == |rows| && Seen(n, limit, |rows|) <= Seen(n + 1, limit, |rows|)
            && NthReply(Replies(loc, rows, mode, limit), n).items == all[Seen(n, limit, |rows|)..Seen(n + 1, limit, |rows|)]
  {
    ListWalk(loc, db, p, mode, limit, n);
    SeenGrows(n, n + 1, limit, |ListedRows(loc, db, p)|);
  }

  /** A cursor of another sort mode starts the list again. */
  lemma ForeignCursorStartsAgain(loc: Locale, db: Db, p: LeadListParams, mode: SortMode, other: SortMode, cur: Cursor, limit: nat)
    requires limit > 0 && other != mode && cur.id != "" && cur.sort == Some(other)
    ensures ListAnswer(loc, db, p, mode, cur, limit) == ListAnswer(loc, db, p, mode, NO_CURSOR, limit)
  {
  }
}
