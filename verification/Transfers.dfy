/** The two transfer logs: newest first, paged by (createdAt, id), counted with the same
    conditions, and searched with a LIKE pattern that is not escaped. */
module TransferLogs {
  import opened Wrappers
  import opened Model
  import opened Text
  import opened LeadQuery
  import opened Keyset

  /** One log row with what its joins contribute: the teams a team filter looks at, the
      creator of the lead, and the four texts of the search. */
  datatype LogRow = LogRow(id: Id, createdAt: Time, teams: seq<Option<Id>>, creator: Option<Id>, action: string, texts: seq<string>)

  datatype CursorTime = NoTime | BadTime | At(t: Time)

  datatype LogCursor = LogCursor(t: CursorTime, id: Id)

  const NO_LOG_CURSOR := LogCursor(NoTime, "")

  datatype LogError = InvalidAction | InvalidCursor

  datatype LogPage = LogPage(items: seq<LogRow>, next: Option<LogCursor>, hasMore: bool, total: nat)

  const TRANSFER_ACTIONS := ["DIRECT_ASSIGNED_TO_EXECUTIVE_BY_ATL", "ASSIGNED_TO_EXECUTIVE", "UNASSIGNED_BY_ATL", "ROUTED_TO_MAIN_TEAM"]

  // ---------------------------------------------------------------- conditions and arguments

  datatype Arg = TextArg(text: string) | ListArg(texts: seq<string>) | TimeArg(t: Time) | LimitArg(n: nat)

  datatype Condition =
    | NoCondition
    | ActionAny(n: nat)       // action = ANY($n)
    | TeamIs(n: nat)          // one of the team columns = $n
    | CreatorIs(n: nat)
    | ActionIs(n: nat)
    | LikeAny(n: nat)         // one of the lowered texts LIKE $n
    | Before(a: nat, b: nat)  // ("createdAt", id) < ($a, $b)

  function TextAt(args: seq<Arg>, n: nat): Option<string> {
    if 1 <= n <= |args| && args[n - 1].TextArg? then Some(args[n - 1].text) else None
  }

  predicate Satisfied(loc: Locale, args: seq<Arg>, r: LogRow, c: Condition) {
    match c
    case NoCondition => true
    case ActionAny(n) => 1 <= n <= |args| && args[n - 1].ListArg? && r.action in args[n - 1].texts
    case TeamIs(n) => TextAt(args, n).Some? && TextAt(args, n) in r.teams
    case CreatorIs(n) => TextAt(args, n).Some? && r.creator == TextAt(args, n)
    case ActionIs(n) => TextAt(args, n) == Some(r.action)
    case LikeAny(n) => TextAt(args, n).Some? && exists x :: x in r.texts && Like(Fold(loc, x), TextAt(args, n).value)
    case Before(a, b) =>
      && 1 <= a <= |args| && args[a - 1].TimeArg? && TextAt(args, b).Some?
      && PairBelow(loc, r.createdAt, r.id, args[a - 1].t, TextAt(args, b).value)
  }

  predicate AllSatisfied(loc: Locale, args: seq<Arg>, r: LogRow, where: seq<Condition>) {
    forall i :: 0 <= i < |where| ==> Satisfied(loc, args, r, where[i])
  }

  /** The conditions select the rows of the test, whatever arguments follow. */
  ghost predicate Means(loc: Locale, where: seq<Condition>, args: seq<Arg>, test: LogRow -> bool) {
    forall more: seq<Arg>, r: LogRow {:trigger AllSatisfied(loc, args + more, r, where)} ::
      AllSatisfied(loc, args + more, r, where) <==> test(r)
  }

  function Also(p: LogRow -> bool, q: LogRow -> bool): LogRow -> bool { (r: LogRow) => p(r) && q(r) }

  /** One more condition with its arguments behind the ones already there. */
  lemma AppendMeans(loc: Locale, where: seq<Condition>, args: seq<Arg>, test: LogRow -> bool,
                    c: Condition, values: seq<Arg>, extra: LogRow -> bool)
    requires Means(loc, where, args, test)
    requires forall more: seq<Arg>, r: LogRow {:trigger Satisfied(loc, args + values + more, r, c)} ::
               Satisfied(loc, args + values + more, r, c) <==> extra(r)
    ensures Means(loc, where + [c], args + values, Also(test, extra))
  {
    forall more: seq<Arg>, r: LogRow
      ensures AllSatisfied(loc, args + values + more, r, where + [c]) <==> test(r) && extra(r)
    {
      assert args + values + more == args + (values + more);
      assert AllSatisfied(loc, args + (values + more), r, where) <==> test(r);
      assert AllSatisfied(loc, args + values + more, r, where + [c])
        <==> AllSatisfied(loc, args + values + more, r, where) && Satisfied(loc, args + values + more, r, c) by {
        assert (where + [c])[|where|] == c;
        assert forall i :: 0 <= i < |where| ==> (where + [c])[i] == where[i];
      }
    }
  }

  // ---------------------------------------------------------------- what the logs show

  function OnTeam(team: Id): LogRow -> bool { (r: LogRow) => Some(team) in r.teams }

  function OfCreator(owner: Id): LogRow -> bool { (r: LogRow) => r.creator == Some(owner) }

  function WithAction(action: string): LogRow -> bool { (r: LogRow) => r.action == action }

  function AnyTransfer(): LogRow -> bool { (r: LogRow) => r.action in TRANSFER_ACTIONS }

  function Everything(): LogRow -> bool { (r: LogRow) => true }

  /** One of the four texts matches the pattern made from the query as it is. */
  function Found(loc: Locale, q: string): LogRow -> bool {
    (r: LogRow) => exists x :: x in r.texts && Like(Fold(loc, x), "%" + Fold(loc, q) + "%")
  }

  function TeamLogTest(loc: Locale, team: string, q: string): LogRow -> bool {
    Also(Also(Everything(), if team == "" then Everything() else OnTeam(team)),
         if q == "" then Everything() else Found(loc, q))
  }

  /** The team filter wins over the creator filter. */
  function LeadLogTest(loc: Locale, team: string, owner: string, action: string, q: string): LogRow -> bool {
    Also(Also(Also(AnyTransfer(), if team != "" then OnTeam(team) else if owner != "" then OfCreator(owner) else Everything()),
              if action == "" then Everything() else WithAction(action)),
         if q == "" then Everything() else Found(loc, q))
  }

  /** Lower-casing keeps the pattern characters apart and does nothing the second time. */
  ghost predicate LowerOk(loc: Locale) {
    FoldOk(loc.fold) && forall c :: loc.fold(loc.fold(c)) == loc.fold(c)
  }

  predicate Plain(q: string) { forall c :: c in q ==> !IsMeta(c) }

  /** The row has a text that contains the query, ignoring case. */
  predicate TextContains(loc: Locale, q: string, r: LogRow) { exists x :: x in r.texts && HasText(loc, x, q) }

  lemma PlainFolds(loc: Locale, q: string)
    requires FoldOk(loc.fold)
    ensures Plain(Fold(loc, q)) <==> Plain(q)
  {
    forall i | 0 <= i < |q| ensures Fold(loc, q)[i] in Fold(loc, q) && (IsMeta(Fold(loc, q)[i]) <==> IsMeta(q[i])) {
    }
    if Plain(Fold(loc, q)) {
      forall c | c in q ensures !IsMeta(c) {
        var i :| 0 <= i < |q| && q[i] == c;
        assert Fold(loc, q)[i] == loc.fold(c);
      }
    }
  }

  /** With no metacharacter in the query, the search is "some text contains it". */
  lemma FoundIsSubstring(loc: Locale, q: string, r: LogRow)
    requires FoldOk(loc.fold) && Plain(q)
    ensures Found(loc, q)(r) <==> TextContains(loc, q, r)
  {
    PlainFolds(loc, q);
    RawLikeIsContainsIff(Fold(loc, q));
    forall x | x in r.texts ensures Like(Fold(loc, x), "%" + Fold(loc, q) + "%") <==> HasText(loc, x, q) {
      assert SearchesPlainly(Fold(loc, x), Fold(loc, q));
    }
  }

  /** With one, some row is found although none of its texts contains the query. */
  lemma MetaFindsTooMuch(loc: Locale, q: string) returns (r: LogRow)
    requires LowerOk(loc) && !Plain(q)
    ensures Found(loc, q)(r) && !TextContains(loc, q, r)
  {
    PlainFolds(loc, q);
    var lower, any := Fold(loc, q), loc.fold('a');
    var w := RawWitness(lower, any);
    RawWitnessMatches(lower, any);
    RawWitnessChars(lower, any);
    LowerIsFixed(loc, q, w);
    assert ("%" + lower + "%")[1..] == lower + "%";
    assert Like(w, "%" + lower + "%");
    if Contains(w, lower) {
      ContainedIsShorter(w, lower);
    }
    r := LogRow("", 0, [], None, "", [w]);
    assert w in r.texts;
  }

  /** Text made of folded characters folds to itself. */
  lemma LowerIsFixed(loc: Locale, q: string, w: string)
    requires LowerOk(loc) && forall c :: c in w ==> c in Fold(loc, q) || c == loc.fold('a') || c == '%'
    ensures Fold(loc, w) == w
  {
    forall i | 0 <= i < |w| ensures loc.fold(w[i]) == w[i] {
      if w[i] in Fold(loc, q) {
        var j :| 0 <= j < |q| && Fold(loc, q)[j] == w[i];
        assert w[i] == loc.fold(q[j]);
      }
    }
  }

  /** Main result: the log search is "some text contains the query", on every row, exactly when
      the query has no LIKE metacharacter. */
  lemma LogSearchIsSubstringIff(loc: Locale, q: string)
    requires LowerOk(loc)
    ensures (forall r :: Found(loc, q)(r) <==> TextContains(loc, q, r)) <==> Plain(q)
  {
    if Plain(q) {
      forall r { FoundIsSubstring(loc, q, r); }
    } else {
      var r := MetaFindsTooMuch(loc, q);
    }
  }

  // ---------------------------------------------------------------- building the conditions

  method AppendTeam(loc: Locale, where0: seq<Condition>, args0: seq<Arg>, team: string, ghost test: LogRow -> bool)
    returns (where: seq<Condition>, args: seq<Arg>)
    requires team != "" && Means(loc, where0, args0, test)
    ensures Means(loc, where, args, Also(test, OnTeam(team)))
  {
    AppendMeans(loc, where0, args0, test, TeamIs(|args0| + 1), [TextArg(team)], OnTeam(team));
    args := args0 + [TextArg(team)];
    where := where0 + [TeamIs(|args|)];
  }

  method AppendSearch(loc: Locale, where0: seq<Condition>, args0: seq<Arg>, q: string, ghost test: LogRow -> bool)
    returns (where: seq<Condition>, args: seq<Arg>)
    requires q != "" && Means(loc, where0, args0, test)
    ensures Means(loc, where, args, Also(test, Found(loc, q)))
  {
    var pattern := "%" + Fold(loc, q) + "%";
    AppendMeans(loc, where0, args0, test, LikeAny(|args0| + 1), [TextArg(pattern)], Found(loc, q));
    args := args0 + [TextArg(pattern)];
    where := where0 + [LikeAny(|args|)];
  }

  /** A test that is not asked for adds no condition. */
  lemma NothingMore(loc: Locale, where: seq<Condition>, args: seq<Arg>, test: LogRow -> bool)
    requires Means(loc, where, args, test)
    ensures Means(loc, where, args, Also(test, Everything()))
  {
  }

  method TeamLogConditions(loc: Locale, team: string, q: string) returns (where: seq<Condition>, args: seq<Arg>)
    ensures Means(loc, where, args, TeamLogTest(loc, team, q))
  {
    where, args := [NoCondition], [];
    ghost var test := Everything();
    if team != "" {
      where, args := AppendTeam(loc, where, args, team, test);
    } else {
      NothingMore(loc, where, args, test);
    }
    test := Also(test, if team == "" then Everything() else OnTeam(team));
    if q != "" {
      where, args := AppendSearch(loc, where, args, q, test);
    } else {
      NothingMore(loc, where, args, test);
    }
  }

  lemma FirstArgument(loc: Locale)
    ensures Means(loc, [ActionAny(1)], [ListArg(TRANSFER_ACTIONS)], AnyTransfer())
  {
    var where, args := [ActionAny(1)], [ListArg(TRANSFER_ACTIONS)];
    forall more: seq<Arg>, r: LogRow ensures AllSatisfied(loc, args + more, r, where) <==> AnyTransfer()(r) {
      assert (args + more)[0] == args[0];
      assert AllSatisfied(loc, args + more, r, where) <==> Satisfied(loc, args + more, r, where[0]);
    }
  }

  method LeadLogConditions(loc: Locale, team: string, owner: string, action: string, q: string)
    returns (where: seq<Condition>, args: seq<Arg>)
    ensures Means(loc, where, args, LeadLogTest(loc, team, owner, action, q))
  {
    where, args := [ActionAny(1)], [ListArg(TRANSFER_ACTIONS)];
    ghost var test := AnyTransfer();
    FirstArgument(loc);
    if team != "" {
      where, args := AppendTeam(loc, where, args, team, test);
    } else if owner != "" {
      AppendMeans(loc, where, args, test, CreatorIs(|args| + 1), [TextArg(owner)], OfCreator(owner));
      args := args + [TextArg(owner)];
      where := where + [CreatorIs(|args|)];
    } else {
      NothingMore(loc, where, args, test);
    }
    test := Also(test, if team != "" then OnTeam(team) else if owner != "" then OfCreator(owner) else Everything());
    if action != "" {
      AppendMeans(loc, where, args, test, ActionIs(|args| + 1), [TextArg(action)], WithAction(action));
      args := args + [TextArg(action)];
      where := where + [ActionIs(|args|)];
    } else {
      NothingMore(loc, where, args, test);
    }
    test := Also(test, if action == "" then Everything() else WithAction(action));
    if q != "" {
      where, args := AppendSearch(loc, where, args, q, test);
    } else {
      NothingMore(loc, where, args, test);
    }
  }

  // ---------------------------------------------------------------- pages

  /** ORDER BY "createdAt" DESC, id DESC, after the cursor when it has both parts. */
  function LogScheme(loc: Locale): Scheme<LogRow, LogCursor> {
    Scheme((x: LogRow, y: LogRow) => PairBelow(loc, y.createdAt, y.id, x.createdAt, x.id),
           (x: LogRow) => LogCursor(At(x.createdAt), x.id),
           (c: LogCursor, x: LogRow) => AfterLog(loc, c, x))
  }

  predicate AfterLog(loc: Locale, c: LogCursor, r: LogRow) {
    c.t.At? && c.id != "" ==> PairBelow(loc, r.createdAt, r.id, c.t.t, c.id)
  }

  function AfterCursor(loc: Locale, c: LogCursor): LogRow -> bool { (r: LogRow) => AfterLog(loc, c, r) }

  /** A cursor with an id and a time that does not parse is an error. */
  predicate Malformed(c: LogCursor) { c.t.BadTime? && c.id != "" }

  method AppendCursor(loc: Locale, where0: seq<Condition>, args0: seq<Arg>, c: LogCursor, ghost test: LogRow -> bool)
    returns (where: seq<Condition>, args: seq<Arg>)
    requires !Malformed(c) && Means(loc, where0, args0, test)
    ensures Means(loc, where, args, Also(test, AfterCursor(loc, c)))
  {
    where, args := where0, args0;
    if c.t != NoTime && c.id != "" {
      AppendMeans(loc, where, args, test, Before(|args0| + 1, |args0| + 2), [TimeArg(c.t.t), TextArg(c.id)], AfterCursor(loc, c));
      args := args + [TimeArg(c.t.t), TextArg(c.id)];
      where := where + [Before(|args| - 1, |args|)];
    }
  }

  function LogAnswer(loc: Locale, table: seq<LogRow>, test: LogRow -> bool, c: LogCursor, limit: nat): LogPage
    requires limit > 0
  {
    var rows := Filter(test, table);
    var page := FetchPage(LogScheme(loc), rows, Some(c), limit);
    LogPage(page.items, page.next, page.hasMore, |rows|)
  }

  /** The condition a query puts on each row of the table. */
  function RowCondition(loc: Locale, where: seq<Condition>, args: seq<Arg>): LogRow -> bool {
    (r: LogRow) => AllSatisfied(loc, args, r, where)
  }

  lemma ConditionSelects(loc: Locale, where: seq<Condition>, args: seq<Arg>, more: seq<Arg>, test: LogRow -> bool, table: seq<LogRow>)
    requires Means(loc, where, args, test)
    ensures Filter(RowCondition(loc, where, args + more), table) == Filter(test, table)
  {
    FilterCong(RowCondition(loc, where, args + more), test, table);
  }

  /** Both logs: the count with the conditions alone, the page with the cursor's condition
      and the limit behind them. */
  method AnswerPage(loc: Locale, table: seq<LogRow>, where: seq<Condition>, args: seq<Arg>, c: LogCursor, limit: nat,
                    ghost test: LogRow -> bool)
    returns (page: LogPage)
    requires limit > 0 && !Malformed(c) && Means(loc, where, args, test)
    ensures page == LogAnswer(loc, table, test, c, limit)
  {
    assert args + [] == args;
    ConditionSelects(loc, where, args, [], test, table);
    var total := |Filter(RowCondition(loc, where, args), table)|;
    var where1, args1 := AppendCursor(loc, where, args, c, test);
    ConditionSelects(loc, where1, args1, [LimitArg(limit + 1)], Also(test, AfterCursor(loc, c)), table);
    var selected := Filter(RowCondition(loc, where1, args1 + [LimitArg(limit + 1)]), table);
    FilterTwice(test, AfterCursor(loc, c), Also(test, AfterCursor(loc, c)), table);
    FilterCong(AfterCursor(loc, c), Admits(LogScheme(loc), Some(c)), Filter(test, table));
    var cut := ReadPage(LogScheme(loc).enc, OrderBy(LogScheme(loc).lt, selected), limit);
    page := LogPage(cut.items, cut.next, cut.hasMore, total);
  }

  const DEFAULT_LIMIT := 40
  const MAX_LIMIT := 100

  function ClampLimit(limit: int): (n: nat)
    ensures 1 <= n <= MAX_LIMIT
  {
    if limit <= 0 then DEFAULT_LIMIT else if limit > MAX_LIMIT then MAX_LIMIT else limit
  }

  /** Main result: the team-transfer log answers the page and the exact total of its
      test, or the cursor error. */
  method ListSalesExecTeamTransfers(loc: Locale, table: seq<LogRow>, query: string, c: LogCursor, requested: int, teamID: string)
    returns (result: Result<LogPage, LogError>)
    ensures result == if Malformed(c) then Err(InvalidCursor)
                      else Ok(LogAnswer(loc, table, TeamLogTest(loc, TrimSpace(teamID), TrimSpace(query)), c, ClampLimit(requested)))
  {
    var q, team := TrimSpace(query), TrimSpace(teamID);
    var where, args := TeamLogConditions(loc, team, q);
    if Malformed(c) {
      return Err(InvalidCursor);
    }
    var page := AnswerPage(loc, table, where, args, c, ClampLimit(requested), TeamLogTest(loc, team, q));
    result := Ok(page);
  }

  /** "all" and the blank action ask for every transfer; others must be known. */
  function ParseAction(raw: string): Result<string, LogError> {
    var action := TrimSpace(raw);
    if action == "" || action == "all" then Ok("")
    else if action in TRANSFER_ACTIONS then Ok(action)
    else Err(InvalidAction)
  }

  function LeadLogResult(loc: Locale, table: seq<LogRow>, query: string, action: string, c: LogCursor, requested: int,
                         owner: string, teamID: string): Result<LogPage, LogError>
  {
    match ParseAction(action)
    case Err(e) => Err(e)
    case Ok(a) =>
      if Malformed(c) then Err(InvalidCursor)
      else Ok(LogAnswer(loc, table, LeadLogTest(loc, TrimSpace(teamID), TrimSpace(owner), a, TrimSpace(query)), c, ClampLimit(requested)))
  }

  method ListLeadTransfers(loc: Locale, table: seq<LogRow>, query: string, action: string, c: LogCursor, requested: int,
                           owner: string, teamID: string)
    returns (result: Result<LogPage, LogError>)
    ensures result == LeadLogResult(loc, table, query, action, c, requested, owner, teamID)
  {
    var parsed := ParseAction(action);
    if parsed.Err? {
      return Err(parsed.error);
    }
    var q, team := TrimSpace(query), TrimSpace(teamID);
    var where, args := LeadLogConditions(loc, team, TrimSpace(owner), parsed.value, q);
    if Malformed(c) {
      return Err(InvalidCursor);
    }
    var page := AnswerPage(loc, table, where, args, c, ClampLimit(requested),
                           LeadLogTest(loc, team, TrimSpace(owner), parsed.value, q));
    result := Ok(page);
  }

  // ---------------------------------------------------------------- the walk

  ghost predicate TotalOrder(loc: Locale) {
    StrictOrder(loc.lt) && forall a, b :: a == b || loc.lt(a, b) || loc.lt(b, a)
  }

  /** A log cursor resumes after its row exactly when the row's id is not empty. */
  lemma LogCursorResumes(loc: Locale, r: LogRow)
    requires TotalOrder(loc)
    ensures Resumes(LogScheme(loc), r) <==> r.id != ""
  {
    var s := LogScheme(loc);
    if r.id == "" {
      assert s.after(s.enc(r), r) && !s.lt(r, r);
    } else {
      forall x ensures s.after(s.enc(r), x) <==> s.lt(r, x) {
      }
    }
  }

  /** The answers of one log to every cursor, and the n-th of them when the client follows
      `next` from the empty cursor. */
  function LogReplies(loc: Locale, table: seq<LogRow>, test: LogRow -> bool, limit: nat): LogCursor -> LogPage
    requires limit > 0
  {
    c => LogAnswer(loc, table, test, c, limit)
  }

  function NthReply(reply: LogCursor -> LogPage, n: nat): LogPage {
    if n == 0 then reply(NO_LOG_CURSOR)
    else
      var prev := NthReply(reply, n - 1);
      if prev.next.None? then LogPage([], None, false, prev.total) else reply(prev.next.value)
  }

  function WithTotal(page: Page<LogRow, LogCursor>, total: nat): LogPage {
    LogPage(page.items, page.next, page.hasMore, total)
  }

  lemma NoCursorIsFirstPage(loc: Locale, rows: seq<LogRow>, limit: nat)
    requires limit > 0
    ensures FetchPage(LogScheme(loc), rows, Some(NO_LOG_CURSOR), limit) == FetchPage(LogScheme(loc), rows, None, limit)
  {
    FilterAll(Admits(LogScheme(loc), Some(NO_LOG_CURSOR)), rows);
    FilterAll(Admits(LogScheme(loc), None), rows);
  }

  /** The answers are the keyset pages, and no `next` is refused as a cursor. */
  lemma {:induction false} RepliesAreKeysetPages(loc: Locale, table: seq<LogRow>, test: LogRow -> bool, limit: nat, n: nat)
    requires limit > 0
    ensures var rows := Filter(test, table);
            var reply := NthReply(LogReplies(loc, table, test, limit), n);
            && reply == WithTotal(NthPage(Fetcher(LogScheme(loc), rows, limit), n), |rows|)
            && (reply.next.Some? ==> !Malformed(reply.next.value))
  {
    NoCursorIsFirstPage(loc, Filter(test, table), limit);
    if n > 0 {
      RepliesAreKeysetPages(loc, table, test, limit, n - 1);
    }
  }

  /** Main result: following `next` from the empty cursor, with non-empty, distinct ids, the
      n-th answer is the n-th slice of the selected rows, newest first, hasMore is false
      exactly on the last one, and every answer carries their number. */
  lemma LogWalk(loc: Locale, table: seq<LogRow>, test: LogRow -> bool, limit: nat, n: nat)
    requires limit > 0 && TotalOrder(loc)
    requires forall i, j :: 0 <= i < j < |table| ==> table[i].id != table[j].id
    requires forall r :: r in table ==> r.id != ""
    ensures var rows := Filter(test, table);
            var all := OrderBy(LogScheme(loc).lt, rows);
            var page := NthReply(LogReplies(loc, table, test, limit), n);
            var upto := Seen(n + 1, limit, |rows|);
            && |all| == |rows| == page.total
            && Ascending(LogScheme(loc).lt, all)
            && multiset(all) == multiset(rows)
            && page.items == all[Seen(n, limit, |rows|)..upto]
            && (page.hasMore <==> upto < |rows|)
            && (page.next.Some? <==> page.hasMore)
  {
    var s, rows := LogScheme(loc), Filter(test, table);
    FilterMembers(test, table);
    FilterKeepsIds(test, table);
    assert Keyed(s.lt, rows);
    forall r | r in rows ensures Resumes(s, r) {
      LogCursorResumes(loc, r);
    }
    assert Walkable(s, rows);
    OrderByMultiset(s.lt, rows);
    OrderByAscending(s.lt, rows);
    WalkReadsTable(s, rows, limit, n);
    RepliesAreKeysetPages(loc, table, test, limit, n);
  }

  lemma {:induction false} FilterKeepsIds(keep: LogRow -> bool, rows: seq<LogRow>)
    requires forall i, j :: 0 <= i < j < |rows| ==> rows[i].id != rows[j].id
    ensures forall i, j :: 0 <= i < j < |Filter(keep, rows)| ==> Filter(keep, rows)[i].id != Filter(keep, rows)[j].id
  {
    if rows != [] {
      FilterKeepsIds(keep, rows[1..]);
      FilterMembers(keep, rows[1..]);
      forall x | x in rows[1..] ensures x.id != rows[0].id {
        var i :| 0 <= i < |rows[1..]| && rows[1..][i] == x;
        assert x == rows[i + 1];
      }
    }
  }

  // ---------------------------------------------------------------- the logs on their columns

  /** x stands before y: newer, or on the same instant with the larger id. */
  predicate NewerFirst(loc: Locale, x: LogRow, y: LogRow) {
    x.createdAt > y.createdAt || (x.createdAt == y.createdAt && loc.lt(y.id, x.id))
  }

  ghost predicate NewestFirst(loc: Locale, rows: seq<LogRow>) {
    forall i, j :: 0 <= i < j < |rows| ==> NewerFirst(loc, rows[i], rows[j])
  }

  /** Main result: whatever the cursor, one answer shows rows of the log that pass its test,
      newest first, and no more than the limit. */
  lemma LogAnswerIsSorted(loc: Locale, table: seq<LogRow>, test: LogRow -> bool, c: LogCursor, limit: nat)
    requires limit > 0 && TotalOrder(loc)
    requires forall i, j :: 0 <= i < j < |table| ==> table[i].id != table[j].id
    ensures var items := LogAnswer(loc, table, test, c, limit).items;
      |items| <= limit && NewestFirst(loc, items) && forall r :: r in items ==> r in table && test(r)
  {
    var s, rows := LogScheme(loc), Filter(test, table);
    var keep := Admits(s, Some(c));
    FilterKeepsIds(test, table);
    FilterKeepsIds(keep, rows);
    FilterMembers(test, table);
    FilterMembers(keep, rows);
    OrderByAscending(s.lt, Filter(keep, rows));
    OrderByMembers(s.lt, Filter(keep, rows));
  }

  /** The rows of the team-transfer log, column by column. */
  lemma TeamLogRows(loc: Locale, team: string, q: string, r: LogRow)
    requires FoldOk(loc.fold) && Plain(q)
    ensures TeamLogTest(loc, team, q)(r)
       <==> (team == "" || Some(team) in r.teams) && (q == "" || exists x :: x in r.texts && HasText(loc, x, q))
  {
    FoundIsSubstring(loc, q, r);
    hide Found;
  }

  /** The rows of the lead-transfer log, column by column. */
  lemma LeadLogRows(loc: Locale, team: string, owner: string, action: string, q: string, r: LogRow)
    requires FoldOk(loc.fold) && Plain(q)
    ensures LeadLogTest(loc, team, owner, action, q)(r)
       <==> && r.action in ["DIRECT_ASSIGNED_TO_EXECUTIVE_BY_ATL", "ASSIGNED_TO_EXECUTIVE", "UNASSIGNED_BY_ATL", "ROUTED_TO_MAIN_TEAM"]
            && (team != "" ==> Some(team) in r.teams)
            && (team == "" && owner != "" ==> r.creator == Some(owner))
            && (action != "" ==> r.action == action)
            && (q == "" || exists x :: x in r.texts && HasText(loc, x, q))
  {
    FoundIsSubstring(loc, q, r);
    hide Found;
  }

  /** Which actions a request may name, and that "all" and nothing ask for every transfer. */
  lemma ActionsAsked(loc: Locale, table: seq<LogRow>, query: string, action: string, c: LogCursor, requested: int,
                     owner: string, teamID: string)
    ensures var a, r := TrimSpace(action), LeadLogResult(loc, table, query, action, c, requested, owner, teamID);
            var known := a in ["DIRECT_ASSIGNED_TO_EXECUTIVE_BY_ATL", "ASSIGNED_TO_EXECUTIVE", "UNASSIGNED_BY_ATL", "ROUTED_TO_MAIN_TEAM"];
      && (r == Err(InvalidAction) <==> a != "" && a != "all" && !known)
      && (r == Err(InvalidCursor) <==> (a == "" || a == "all" || known) && c.t.BadTime? && c.id != "")
      && var test := LeadLogTest(loc, TrimSpace(teamID), TrimSpace(owner), if a == "all" then "" else a, TrimSpace(query));
         var limit := if requested <= 0 then 40 else if requested > 100 then 100 else requested;
         (r.Ok? ==> r.value == LogAnswer(loc, table, test, c, limit))
  {
    hide TrimSpace, LogAnswer, LeadLogTest;
  }
}
