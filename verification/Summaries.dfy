/** The dashboard counts against the list totals they link to. */
module Summaries {
  import opened Wrappers
  import opened Model
  import opened Text
  import opened Sql
  import opened LeadQuery
  import opened LeadWhere
  import opened WhereBuilding
  import opened Keyset
  import opened LeadListing
  import opened LeadSelection

  function Count(keep: Lead -> bool, leads: seq<Lead>): nat { |Filter(keep, leads)| }

  function Selecting(loc: Locale, db: Db, t: Test): Lead -> bool { (l: Lead) => Matches(loc, db, l, t) }

  function Within(keep: Lead -> bool, part: Lead -> bool): Lead -> bool { (l: Lead) => keep(l) && part(l) }

  function AtStage(stages: seq<string>): Lead -> bool { (l: Lead) => l.salesStage in stages }

  lemma CountSnoc(keep: Lead -> bool, leads: seq<Lead>, i: nat)
    requires i < |leads|
    ensures Count(keep, leads[..i + 1]) == Count(keep, leads[..i]) + if keep(leads[i]) then 1 else 0
  {
    FilterSnoc(keep, leads[..i], leads[i]);
    assert leads[..i + 1] == leads[..i] + [leads[i]];
  }

  // ---------------------------------------------------------------- list totals are counts

  lemma {:induction false} TotalIsCount(loc: Locale, db: Db, t: Test, n: nat)
    requires n <= |db.leads|
    ensures |Filter((x: ListRow) => Matches(loc, db, x.lead, t), JoinedRows(db)[..n])| == Count(Selecting(loc, db, t), db.leads[..n])
  {
    if n > 0 {
      hide Matches;
      TotalIsCount(loc, db, t, n - 1);
      var keep := (x: ListRow) => Matches(loc, db, x.lead, t);
      FilterSnoc(keep, JoinedRows(db)[..n - 1], JoinedRows(db)[n - 1]);
      assert JoinedRows(db)[..n] == JoinedRows(db)[..n - 1] + [JoinedRows(db)[n - 1]];
      CountSnoc(Selecting(loc, db, t), db.leads, n - 1);
    }
  }

  /** The total a list with these parameters shows. */
  function ListTotal(loc: Locale, db: Db, p: LeadListParams): nat { |ListedRows(loc, db, p)| }

  lemma ListTotalIsCount(loc: Locale, db: Db, p: LeadListParams)
    ensures ListTotal(loc, db, p) == Count(Selecting(loc, db, ListTest(loc, p)), db.leads)
  {
    hide Matches, ListTest;
    TotalIsCount(loc, db, ListTest(loc, p), |db.leads|);
    assert JoinedRows(db)[..|db.leads|] == JoinedRows(db) && db.leads[..|db.leads|] == db.leads;
    FilterCong((x: ListRow) => Matches(loc, db, x.lead, ListTest(loc, p)), Listed(loc, db, p), JoinedRows(db));
  }

  lemma CountCong(p: Lead -> bool, q: Lead -> bool, leads: seq<Lead>)
    requires forall l :: p(l) == q(l)
    ensures Count(p, leads) == Count(q, leads)
  {
    FilterCong(p, q, leads);
  }

  // ---------------------------------------------------------------- the pipeline board

  datatype Board = Board(handed: nat, inProgress: nat, won: nat, lost: nat, total: nat)

  /** The parameters of the list behind a board card: same facets, one pipeline preset. */
  function Card(p: LeadListParams, preset: Preset): LeadListParams {
    p.(filter := preset, query := "", status := "", stage := "")
  }

  /** One scan of the leads of the WHERE clause, one counter per FILTER. */
  method CountStages(loc: Locale, db: Db, where: seq<Clause>, args: seq<Value>, ghost keep: Lead -> bool)
    returns (out: Board)
    requires forall l :: Holds(loc, db, args, l, where) <==> keep(l)
    ensures out == Board(
      Count(Within(keep, AtStage(WITH_LEAD_OR_EXEC)), db.leads),
      Count(Within(keep, AtStage(WORKING)), db.leads),
      Count(Within(keep, AtStage(["CLOSED_WON"])), db.leads),
      Count(Within(keep, AtStage(["CLOSED_LOST"])), db.leads),
      Count(keep, db.leads))
  {
    out := Board(0, 0, 0, 0, 0);
    ghost var handed, working := Within(keep, AtStage(WITH_LEAD_OR_EXEC)), Within(keep, AtStage(WORKING));
    ghost var won, lost := Within(keep, AtStage(["CLOSED_WON"])), Within(keep, AtStage(["CLOSED_LOST"]));
    for i := 0 to |db.leads|
      invariant out.handed == Count(handed, db.leads[..i]) && out.inProgress == Count(working, db.leads[..i])
      invariant out.won == Count(won, db.leads[..i]) && out.lost == Count(lost, db.leads[..i])
      invariant out.total == Count(keep, db.leads[..i])
    {
      hide Count;
      CountSnoc(handed, db.leads, i);
      CountSnoc(working, db.leads, i);
      CountSnoc(won, db.leads, i);
      CountSnoc(lost, db.leads, i);
      CountSnoc(keep, db.leads, i);
      if Holds(loc, db, args, db.leads[i], where) {
        var stage := db.leads[i].salesStage;
        out := out.(total := out.total + 1);
        if stage in WITH_LEAD_OR_EXEC { out := out.(handed := out.handed + 1); }
        if stage in WORKING { out := out.(inProgress := out.inProgress + 1); }
        if stage == "CLOSED_WON" { out := out.(won := out.won + 1); }
        if stage == "CLOSED_LOST" { out := out.(lost := out.lost + 1); }
      }
    }
    assert db.leads[..|db.leads|] == db.leads;
  }

  lemma SameFacets(loc: Locale, p: LeadListParams, a: Preset, b: Preset)
    ensures FacetsTest(loc, Card(p, a)) == FacetsTest(loc, Card(p, b))
  {
  }

  function BoardTest(loc: Locale, p: LeadListParams): Test {
    Conj(BaseTest(Card(p, Preset.Pipeline)), FacetsTest(loc, Card(p, Preset.Pipeline)))
  }

  /** A card's list has no search box and no exact status. */
  lemma CardParts(loc: Locale, p: LeadListParams, preset: Preset)
    ensures BaseTest(Card(p, preset)) == PresetTest(preset)
    ensures SearchTest(loc, Card(p, preset)) == Always
  {
    hide PresetTest;
    assert TrimSpace("") == "";
  }

  lemma AtStageMatches(loc: Locale, db: Db, l: Lead, stages: seq<string>)
    ensures Matches(loc, db, l, StageIn(stages)) <==> l.salesStage in stages
    ensures Matches(loc, db, l, Always)
  {
  }

  lemma BoardParts(loc: Locale, db: Db, l: Lead, p: LeadListParams, preset: Preset)
    ensures Matches(loc, db, l, BoardTest(loc, p))
       <==> Matches(loc, db, l, StatusIn(ASSIGNABLE)) && Matches(loc, db, l, FacetsTest(loc, Card(p, preset)))
  {
    CardParts(loc, p, Preset.Pipeline);
    SameFacets(loc, p, preset, Preset.Pipeline);
    hide Matches, FacetsTest, BaseTest;
    TwoTests(loc, db, l, StatusIn(ASSIGNABLE), FacetsTest(loc, Card(p, preset)));
  }

  /** The list behind a stage card selects the board's leads at the card's stages. */
  lemma CardMeaning(loc: Locale, db: Db, l: Lead, p: LeadListParams, preset: Preset, stages: seq<string>)
    requires PresetTest(preset) == Conj(StatusIn(ASSIGNABLE), StageIn(stages))
    ensures Matches(loc, db, l, ListTest(loc, Card(p, preset))) <==> Matches(loc, db, l, BoardTest(loc, p)) && l.salesStage in stages
  {
    hide Matches, ListTest, BoardTest, BaseTest, FacetsTest, SearchTest, PresetTest, StageIn;
    CardParts(loc, p, preset);
    BoardParts(loc, db, l, p, preset);
    AtStageMatches(loc, db, l, stages);
    ListParts(loc, db, l, Card(p, preset));
    TwoTests(loc, db, l, StatusIn(ASSIGNABLE), StageIn(stages));
  }

  lemma BoardMeaning(loc: Locale, db: Db, l: Lead, p: LeadListParams)
    ensures Matches(loc, db, l, ListTest(loc, Card(p, Preset.Pipeline))) <==> Matches(loc, db, l, BoardTest(loc, p))
  {
    hide Matches, ListTest, BoardTest, BaseTest, FacetsTest, SearchTest;
    CardParts(loc, p, Preset.Pipeline);
    BoardParts(loc, db, l, p, Preset.Pipeline);
    AtStageMatches(loc, db, l, []);
    ListParts(loc, db, l, Card(p, Preset.Pipeline));
  }

  lemma CardTotal(loc: Locale, db: Db, p: LeadListParams, preset: Preset, stages: seq<string>)
    requires PresetTest(preset) == Conj(StatusIn(ASSIGNABLE), StageIn(stages))
    ensures ListTotal(loc, db, Card(p, preset)) == Count(Within(Selecting(loc, db, BoardTest(loc, p)), AtStage(stages)), db.leads)
  {
    hide Matches, ListTest, BoardTest, ListTotal, PresetTest;
    ListTotalIsCount(loc, db, Card(p, preset));
    var q := Within(Selecting(loc, db, BoardTest(loc, p)), AtStage(stages));
    forall l ensures Selecting(loc, db, ListTest(loc, Card(p, preset)))(l) == q(l) {
      CardMeaning(loc, db, l, p, preset, stages);
    }
    CountCong(Selecting(loc, db, ListTest(loc, Card(p, preset))), q, db.leads);
  }

  lemma BoardTotal(loc: Locale, db: Db, p: LeadListParams)
    ensures ListTotal(loc, db, Card(p, Preset.Pipeline)) == Count(Selecting(loc, db, BoardTest(loc, p)), db.leads)
  {
    hide Matches, ListTest, BoardTest, ListTotal;
    ListTotalIsCount(loc, db, Card(p, Preset.Pipeline));
    var t := ListTest(loc, Card(p, Preset.Pipeline));
    forall l ensures Selecting(loc, db, t)(l) == Selecting(loc, db, BoardTest(loc, p))(l) {
      BoardMeaning(loc, db, l, p);
    }
    CountCong(Selecting(loc, db, t), Selecting(loc, db, BoardTest(loc, p)), db.leads);
  }

  /** Disjoint stage sets: no lead is counted on two cards. */
  lemma {:induction false} CardsAreDisjoint(keep: Lead -> bool, leads: seq<Lead>)
    ensures Count(Within(keep, AtStage(WITH_LEAD_OR_EXEC)), leads) + Count(Within(keep, AtStage(WORKING)), leads)
          + Count(Within(keep, AtStage(["CLOSED_WON"])), leads) + Count(Within(keep, AtStage(["CLOSED_LOST"])), leads)
         <= Count(keep, leads)
  {
    if leads != [] {
      CardsAreDisjoint(keep, leads[1..]);
    }
  }

  /** Main result: every card of the board shows the total of the list it opens. */
  method PipelineSummary(loc: Locale, db: Db, p: LeadListParams) returns (out: Board)
    requires FoldOk(loc.fold)
    ensures out.handed == ListTotal(loc, db, Card(p, PipelineAssigned))
    ensures out.inProgress == ListTotal(loc, db, Card(p, PipelineInProgress))
    ensures out.won == ListTotal(loc, db, Card(p, PipelineWon))
    ensures out.lost == ListTotal(loc, db, Card(p, PipelineLost))
    ensures out.total == ListTotal(loc, db, Card(p, Preset.Pipeline))
    ensures out.handed + out.inProgress + out.won + out.lost <= out.total
  {
    var board := p.(filter := Preset.Pipeline);
    board := board.(stage := "");
    board := board.(status := "");
    var where, args := LeadScopeWhere(loc, board, true, 0);
    ScopeIsBoard(loc, p);
    hide ListTotal, BoardTest, Matches, Holds, Denotes, FacetsTest, BaseTest;
    SelectsBoard(loc, db, where, args, BoardTest(loc, p));
    out := CountStages(loc, db, where, args, Selecting(loc, db, BoardTest(loc, p)));
    CardTotals(loc, db, p);
    CardsAreDisjoint(Selecting(loc, db, BoardTest(loc, p)), db.leads);
  }

  lemma SelectsBoard(loc: Locale, db: Db, where: seq<Clause>, args: seq<Value>, t: Test)
    requires Denotes(loc, 0, where, args, t)
    ensures forall l :: Holds(loc, db, args, l, where) <==> Selecting(loc, db, t)(l)
  {
    hide Denotes, Matches, Holds;
    forall l ensures Holds(loc, db, args, l, where) <==> Selecting(loc, db, t)(l) {
      assert args + [] == args;
      MoreArgumentsKeepMeaning(loc, where, args, t, [], db, l);
    }
  }

  lemma CardTotals(loc: Locale, db: Db, p: LeadListParams)
    ensures var keep := Selecting(loc, db, BoardTest(loc, p));
      && ListTotal(loc, db, Card(p, PipelineAssigned)) == Count(Within(keep, AtStage(WITH_LEAD_OR_EXEC)), db.leads)
      && ListTotal(loc, db, Card(p, PipelineInProgress)) == Count(Within(keep, AtStage(WORKING)), db.leads)
      && ListTotal(loc, db, Card(p, PipelineWon)) == Count(Within(keep, AtStage(["CLOSED_WON"])), db.leads)
      && ListTotal(loc, db, Card(p, PipelineLost)) == Count(Within(keep, AtStage(["CLOSED_LOST"])), db.leads)
      && ListTotal(loc, db, Card(p, Preset.Pipeline)) == Count(keep, db.leads)
  {
    hide ListTotal, BoardTest, Matches, Count;
    CardTotal(loc, db, p, PipelineAssigned, WITH_LEAD_OR_EXEC);
    CardTotal(loc, db, p, PipelineInProgress, WORKING);
    CardTotal(loc, db, p, PipelineWon, ["CLOSED_WON"]);
    CardTotal(loc, db, p, PipelineLost, ["CLOSED_LOST"]);
    BoardTotal(loc, db, p);
  }

  lemma ScopeIsBoard(loc: Locale, p: LeadListParams)
    ensures var board := p.(filter := Preset.Pipeline, stage := "", status := "");
            Conj(BaseTest(board), FacetsTest(loc, board)) == BoardTest(loc, p)
  {
  }

  // ---------------------------------------------------------------- leads passed on

  function IdsOf(keep: Lead -> bool, leads: seq<Lead>): set<Id> {
    if leads == [] then {} else IdsOf(keep, leads[1..]) + if keep(leads[0]) then {leads[0].id} else {}
  }

  lemma {:induction false} IdsOfMembers(keep: Lead -> bool, leads: seq<Lead>)
    ensures forall id :: id in IdsOf(keep, leads) <==> exists l :: l in leads && l.id == id && keep(l)
  {
    if leads != [] {
      IdsOfMembers(keep, leads[1..]);
      assert forall l :: l in leads <==> l == leads[0] || l in leads[1..];
    }
  }

  ghost predicate UniqueIds(leads: seq<Lead>) {
    forall i, j :: 0 <= i < j < |leads| ==> leads[i].id != leads[j].id
  }

  /** Under a primary key, counting distinct ids is counting rows. */
  lemma {:induction false} DistinctIdsCountRows(keep: Lead -> bool, leads: seq<Lead>)
    requires UniqueIds(leads)
    ensures |IdsOf(keep, leads)| == Count(keep, leads)
  {
    if leads != [] {
      var rest := leads[1..];
      DistinctIdsCountRows(keep, rest);
      IdsOfMembers(keep, rest);
      forall l | l in rest ensures l.id != leads[0].id {
        var i :| 0 <= i < |rest| && rest[i] == l;
        assert leads[i + 1] == l;
      }
    }
  }

  /** The handoffs of the inner join with the leads of the WHERE list. */
  function JoinedHandoff(loc: Locale, db: Db, where: seq<Clause>, args: seq<Value>, actions: seq<string>): Handoff -> bool {
    (h: Handoff) => h.action in actions && exists l :: l in db.leads && l.id == h.leadId && Holds(loc, db, args, l, where)
  }

  /** COUNT(DISTINCT h."leadId") */
  method DistinctLeads(handoffs: seq<Handoff>, wanted: Handoff -> bool) returns (ids: set<Id>)
    ensures forall id :: id in ids <==> exists h :: h in handoffs && wanted(h) && h.leadId == id
  {
    ids := {};
    for i := 0 to |handoffs|
      invariant forall id :: id in ids <==> exists j :: 0 <= j < i && wanted(handoffs[j]) && handoffs[j].leadId == id
    {
      if wanted(handoffs[i]) {
        ids := ids + {handoffs[i].leadId};
      }
    }
  }

  function PassedTest(loc: Locale, p: LeadListParams): Test { Conj(ScopeOnlyTest(loc, p), HandedOff(PASSED_ACTIONS)) }

  /** Main result: COUNT(DISTINCT h."leadId") over the join, with the two actions in $1 and
      $2 and the scope numbered behind them, counts the scoped leads that were passed on. */
  method TotalPassed(loc: Locale, db: Db, p: LeadListParams) returns (passed: nat)
    requires FoldOk(loc.fold) && UniqueIds(db.leads)
    ensures passed == Count(Selecting(loc, db, PassedTest(loc, p)), db.leads)
  {
    hide ScopeOnlyTest, Matches, Holds;
    var passArgs := Texts(PASSED_ACTIONS);
    var where, args := LeadScopeWhere(loc, p, true, 2);
    assert ScopeOnlyTest(loc, p) == Conj(BaseTest(p), FacetsTest(loc, p)) by { ScopeOnlyParts(loc, p); }
    ScopedHolds(loc, db, where, args, ScopeOnlyTest(loc, p));
    hide Denotes;
    passArgs := passArgs + args;
    var actions := [passArgs[0].text, passArgs[1].text];
    assert actions == PASSED_ACTIONS;
    var wanted := JoinedHandoff(loc, db, where, passArgs, actions);
    var ids := DistinctLeads(db.handoffs, wanted);
    PassedIds(loc, db, p, ids, wanted);
    DistinctIdsCountRows(Selecting(loc, db, PassedTest(loc, p)), db.leads);
    passed := |ids|;
  }

  lemma ScopeOnlyParts(loc: Locale, p: LeadListParams)
    ensures ScopeOnlyTest(loc, p) == Conj(BaseTest(p), FacetsTest(loc, p))
  {
    hide BaseTest, FacetsTest;
  }

  lemma ScopedHolds(loc: Locale, db: Db, where: seq<Clause>, args: seq<Value>, t: Test)
    requires Denotes(loc, 2, where, args, t)
    ensures forall l :: Holds(loc, db, Texts(PASSED_ACTIONS) + args, l, where) <==> Matches(loc, db, l, t)
  {
    var full := Texts(PASSED_ACTIONS) + args;
    assert full[2..2 + |args|] == args;
    assert Binds(full, 2, args);
    hide Matches, Holds;
  }

  lemma PassedIds(loc: Locale, db: Db, p: LeadListParams, ids: set<Id>, wanted: Handoff -> bool)
    requires forall h :: wanted(h) <==>
      h.action in PASSED_ACTIONS && exists l :: l in db.leads && l.id == h.leadId && Matches(loc, db, l, ScopeOnlyTest(loc, p))
    requires forall id :: id in ids <==> exists h :: h in db.handoffs && wanted(h) && h.leadId == id
    ensures ids == IdsOf(Selecting(loc, db, PassedTest(loc, p)), db.leads)
  {
    hide Matches, ScopeOnlyTest;
    var keep := Selecting(loc, db, PassedTest(loc, p));
    IdsOfMembers(keep, db.leads);
    forall l { WasPassed(loc, db, l, ScopeOnlyTest(loc, p)); }
    forall id ensures id in ids <==> id in IdsOf(keep, db.leads) {
      if id in ids {
        var h :| h in db.handoffs && wanted(h) && h.leadId == id;
        var l :| l in db.leads && l.id == id && Matches(loc, db, l, ScopeOnlyTest(loc, p));
        assert keep(l);
      }
      if l :| l in db.leads && l.id == id && keep(l) {
        var h :| h in db.handoffs && h.leadId == l.id && h.action in PASSED_ACTIONS;
        assert wanted(h);
      }
    }
  }

  lemma WasPassed(loc: Locale, db: Db, l: Lead, scope: Test)
    ensures Matches(loc, db, l, Conj(scope, HandedOff(PASSED_ACTIONS)))
       <==> Matches(loc, db, l, scope) && exists h :: h in db.handoffs && h.leadId == l.id && h.action in PASSED_ACTIONS
  {
    TwoTests(loc, db, l, scope, HandedOff(PASSED_ACTIONS));
  }

  /** A narrower count is smaller, and equal exactly when nothing else is counted. */
  lemma {:induction false} NarrowerCount(keep: Lead -> bool, wide: Lead -> bool, leads: seq<Lead>)
    requires forall l :: keep(l) ==> wide(l)
    ensures Count(keep, leads) <= Count(wide, leads)
    ensures Count(keep, leads) == Count(wide, leads) <==> forall l :: l in leads && wide(l) ==> keep(l)
  {
    if leads != [] {
      NarrowerCount(keep, wide, leads[1..]);
      assert forall l :: l in leads <==> l == leads[0] || l in leads[1..];
    }
  }

  /** The parameters of the "passed" list with the same facets. */
  function PassedList(p: LeadListParams): LeadListParams { p.(filter := PassedLeads, query := "") }

  lemma PassedParts(loc: Locale, db: Db, l: Lead, p: LeadListParams)
    ensures Matches(loc, db, l, ListTest(loc, PassedList(p)))
       <==> && Matches(loc, db, l, FacetsTest(loc, p))
            && (TrimSpace(p.status) == "" ==> Matches(loc, db, l, HandedOff(PASSED_ACTIONS)))
    ensures Matches(loc, db, l, PassedTest(loc, p))
       <==> && Matches(loc, db, l, FacetsTest(loc, p)) && Matches(loc, db, l, HandedOff(PASSED_ACTIONS))
            && (TrimSpace(p.status) == "" ==> Matches(loc, db, l, PresetTest(p.filter)))
  {
    PassedShape(loc, p);
    hide Matches, FacetsTest, ListTest, BaseTest, SearchTest, PresetTest, ScopeOnlyTest, PassedList, TrimSpace;
    ListParts(loc, db, l, PassedList(p));
    AtStageMatches(loc, db, l, []);
    TwoTests(loc, db, l, ScopeOnlyTest(loc, p), HandedOff(PASSED_ACTIONS));
    TwoTests(loc, db, l, BaseTest(p), FacetsTest(loc, p));
  }

  lemma PassedShape(loc: Locale, p: LeadListParams)
    ensures var q := PassedList(p);
      && SearchTest(loc, q) == Always && FacetsTest(loc, q) == FacetsTest(loc, p)
      && BaseTest(q) == (if TrimSpace(p.status) == "" then HandedOff(PASSED_ACTIONS) else Always)
      && BaseTest(p) == (if TrimSpace(p.status) == "" then PresetTest(p.filter) else Always)
      && ScopeOnlyTest(loc, p) == Conj(BaseTest(p), FacetsTest(loc, p))
  {
    hide FacetsTest;
    PassedFacets(loc, p);
    assert TrimSpace("") == "";
    hide TrimSpace;
  }

  /** No facet looks at the preset or the query. */
  lemma PassedFacets(loc: Locale, p: LeadListParams)
    ensures FacetsTest(loc, PassedList(p)) == FacetsTest(loc, p)
  {
    hide TrimSpace, Given, AddedTest, ServiceLineTest, Map;
    var q := PassedList(p);
    assert GeoTest(q) == GeoTest(p);
    assert ScopeTest(q) == ScopeTest(p);
    assert ChannelTest(loc, q) == ChannelTest(loc, p);
    assert ProgressTest(loc, q) == ProgressTest(loc, p);
    hide GeoTest, ScopeTest, ChannelTest, ProgressTest;
  }

  /** What a listed lead must still satisfy to be counted as passed: the preset of the
      summary, or, where an exact status switches the preset "passed" off, the handoff. */
  function StillAsked(p: LeadListParams): Test {
    if TrimSpace(p.status) == "" then PresetTest(p.filter) else HandedOff(PASSED_ACTIONS)
  }

  /** Main result: the count of passed leads never exceeds the total of the "passed" list it
      links to, and is that total if and only if every listed lead satisfies what the list
      no longer asks for. */
  lemma PassedIsListTotalIff(loc: Locale, db: Db, p: LeadListParams)
    ensures Count(Selecting(loc, db, PassedTest(loc, p)), db.leads) <= ListTotal(loc, db, PassedList(p))
    ensures Count(Selecting(loc, db, PassedTest(loc, p)), db.leads) == ListTotal(loc, db, PassedList(p))
       <==> forall l :: l in db.leads && Matches(loc, db, l, ListTest(loc, PassedList(p))) ==> Matches(loc, db, l, StillAsked(p))
  {
    var q := PassedList(p);
    ListTotalIsCount(loc, db, q);
    hide Matches, FacetsTest, ListTest, ListTotal, PresetTest, PassedTest, PassedList;
    forall l { PassedParts(loc, db, l, p); }
    NarrowerCount(Selecting(loc, db, PassedTest(loc, p)), Selecting(loc, db, ListTest(loc, q)), db.leads);
  }

  /** So they agree without an exact status when the summary has no preset or that preset. */
  lemma PassedIsListTotal(loc: Locale, db: Db, p: LeadListParams)
    requires TrimSpace(p.status) == "" && (p.filter == AllLeads || p.filter == PassedLeads)
    ensures Count(Selecting(loc, db, PassedTest(loc, p)), db.leads) == ListTotal(loc, db, PassedList(p))
  {
    PassedIsListTotalIff(loc, db, p);
    hide Matches, FacetsTest, ListTest, ListTotal, PassedTest, PassedList;
    forall l ensures Matches(loc, db, l, ListTest(loc, PassedList(p))) ==> Matches(loc, db, l, StillAsked(p)) {
      PassedParts(loc, db, l, p);
      AtStageMatches(loc, db, l, []);
    }
  }

  /** The list of one exact status and nothing else. */
  function StatusList(status: string): LeadListParams {
    LeadListParams(AllLeads, "", AllFields, "", "", "", "", "", "", "", "", "", "", "", "", status, "", None, None, "")
  }

  /** With an exact status they may differ: one lead of that status that nobody handed over
      is on the list and not in the count. */
  lemma StatusSpoilsPassed(loc: Locale, l: Lead, status: string)
    requires TrimSpace(status) != "" && l.qualificationStatus == Map(loc.upper, TrimSpace(status))
    ensures var p, db := StatusList(status), Db([l], map[], map[], []);
      Count(Selecting(loc, db, PassedTest(loc, p)), db.leads) == 0 && ListTotal(loc, db, PassedList(p)) == 1
  {
    var p, db := StatusList(status), Db([l], map[], map[], []);
    PassedParts(loc, db, l, p);
    ListTotalIsCount(loc, db, PassedList(p));
    StatusFacet(loc, db, l, status);
    assert !Matches(loc, db, l, HandedOff(PASSED_ACTIONS));
    hide FacetsTest, ListTest, ListTotal, PassedTest, PassedList, Matches, TrimSpace, Map;
    CountOne(Selecting(loc, db, PassedTest(loc, p)), l);
    CountOne(Selecting(loc, db, ListTest(loc, PassedList(p))), l);
  }

  lemma CountOne(keep: Lead -> bool, l: Lead)
    ensures Count(keep, [l]) == if keep(l) then 1 else 0
  {
    var none: seq<Lead> := [];
    assert [l][1..] == none && Filter(keep, none) == none;
  }

  lemma BlankGiven(loc: Locale, db: Db, l: Lead, value: string, t: Test)
    requires value == ""
    ensures Matches(loc, db, l, Given(value, t)) && Given(value, t) == Always
  {
    assert TrimSpace("") == "";
  }

  lemma BlankScope(loc: Locale, db: Db, l: Lead, p: LeadListParams)
    requires p.country == p.city == p.teamId == p.analystId == p.salesExecId == p.managerId == p.analystTeamLeadId == ""
    ensures Matches(loc, db, l, Conj(GeoTest(p), ScopeTest(p)))
  {
    hide Given, Matches, TrimSpace;
    BlankGiven(loc, db, l, p.country, GeoFacet(Country, TrimSpace(p.country)));
    BlankGiven(loc, db, l, p.city, GeoFacet(City, TrimSpace(p.city)));
    BlankGiven(loc, db, l, p.teamId, IdFacet(TeamId, TrimSpace(p.teamId)));
    BlankGiven(loc, db, l, p.analystId, IdFacet(CreatedById, TrimSpace(p.analystId)));
    BlankGiven(loc, db, l, p.salesExecId, IdFacet(SalesExecId, TrimSpace(p.salesExecId)));
    BlankGiven(loc, db, l, p.managerId, ManagedBy(TrimSpace(p.managerId)));
    BlankGiven(loc, db, l, p.analystTeamLeadId, CreatedByTeamOf(TrimSpace(p.analystTeamLeadId), TrimSpace(p.analystTeamName)));
    TwoTests(loc, db, l, Always, Always);
    TwoTests(loc, db, l, Conj(Always, Always), Always);
    TwoTests(loc, db, l, Conj(Conj(Always, Always), Always), Always);
    TwoTests(loc, db, l, Conj(Conj(Conj(Always, Always), Always), Always), Always);
    TwoTests(loc, db, l, GeoTest(p), ScopeTest(p));
  }

  lemma BlankChannel(loc: Locale, db: Db, l: Lead, p: LeadListParams)
    requires p.source == p.portal == p.metaProfile == p.serviceLine == ""
    ensures Matches(loc, db, l, ChannelTest(loc, p))
  {
    assert ServiceLineTest(loc, "") == Always && TrimSpace("") == "";
    hide Given, Matches, TrimSpace, ServiceLineTest;
    BlankGiven(loc, db, l, p.source, TextFacet(Source, TrimSpace(p.source)));
    BlankGiven(loc, db, l, p.portal, TextFacet(Portal, TrimSpace(p.portal)));
    BlankGiven(loc, db, l, p.metaProfile, TextFacet(MetaProfile, TrimSpace(p.metaProfile)));
    TwoTests(loc, db, l, Always, Always);
    TwoTests(loc, db, l, Conj(Always, Always), Always);
    TwoTests(loc, db, l, Conj(Conj(Always, Always), Always), Always);
  }

  lemma StatusOnly(loc: Locale, db: Db, l: Lead, p: LeadListParams)
    requires p.stage == p.reason == "" && p.addedFrom.None? && p.addedTo.None?
    requires TrimSpace(p.status) != "" ==> l.qualificationStatus == Map(loc.upper, TrimSpace(p.status))
    ensures Matches(loc, db, l, ProgressTest(loc, p))
  {
    var asked := Given(p.status, StatusIn([Map(loc.upper, TrimSpace(p.status))]));
    assert Matches(loc, db, l, asked);
    var added := AddedTest(p.addedFrom, p.addedTo);
    assert Matches(loc, db, l, added) by { TwoTests(loc, db, l, Always, Always); }
    hide Given, Matches, TrimSpace, Map, AddedTest;
    BlankGiven(loc, db, l, p.stage, StageIn([Map(loc.upper, TrimSpace(p.stage))]));
    BlankGiven(loc, db, l, p.reason, ReasonIs(TrimSpace(p.reason)));
    TwoTests(loc, db, l, asked, Always);
    TwoTests(loc, db, l, Conj(asked, Always), added);
    TwoTests(loc, db, l, Conj(Conj(asked, Always), added), Always);
  }

  lemma StatusFacet(loc: Locale, db: Db, l: Lead, status: string)
    requires l.qualificationStatus == Map(loc.upper, TrimSpace(status))
    ensures Matches(loc, db, l, FacetsTest(loc, StatusList(status)))
  {
    OnlyStatusFacets(loc, db, l, StatusList(status));
  }

  /** No facet but, perhaps, the exact status. */
  predicate OnlyStatus(p: LeadListParams) {
    && p.country == p.city == p.teamId == p.analystId == p.salesExecId == p.managerId == p.analystTeamLeadId == ""
    && p.source == p.portal == p.metaProfile == p.serviceLine == p.stage == p.reason == ""
    && p.addedFrom.None? && p.addedTo.None?
  }

  lemma OnlyStatusFacets(loc: Locale, db: Db, l: Lead, p: LeadListParams)
    requires OnlyStatus(p)
    requires TrimSpace(p.status) != "" ==> l.qualificationStatus == Map(loc.upper, TrimSpace(p.status))
    ensures Matches(loc, db, l, FacetsTest(loc, p))
  {
    hide Matches, TrimSpace, Map, GeoTest, ScopeTest, ChannelTest, ProgressTest;
    BlankScope(loc, db, l, p);
    BlankChannel(loc, db, l, p);
    StatusOnly(loc, db, l, p);
    TwoTests(loc, db, l, Conj(GeoTest(p), ScopeTest(p)), ChannelTest(loc, p));
    TwoTests(loc, db, l, Conj(Conj(GeoTest(p), ScopeTest(p)), ChannelTest(loc, p)), ProgressTest(loc, p));
  }

  const NOBODY := Lead("", "", None, None, None, None, "", None, None, None, None, None, None, "", None, false, None, None,
                       "", None, None, None, None, None, None, None, None, "", Some(0), 0, 0)

  const ONE_HANDED_OVER := Db([NOBODY], map[], map[], [Handoff("", PASSED_ACTIONS[0], None, None, 0)])

  lemma NobodyIsNowhere(loc: Locale, values: seq<string>)
    requires "" !in values
    ensures !Matches(loc, ONE_HANDED_OVER, NOBODY, StatusIn(values))
    ensures !Matches(loc, ONE_HANDED_OVER, NOBODY, StageIn(values))
    ensures !Matches(loc, ONE_HANDED_OVER, NOBODY, StillOpen)
    ensures !Matches(loc, ONE_HANDED_OVER, NOBODY, FlaggedNotAppropriate)
  {
  }

  lemma PresetShape(preset: Preset)
    requires preset != AllLeads && preset != PassedLeads
    ensures var t := PresetTest(preset);
      || t.StillOpen? || t.FlaggedNotAppropriate?
      || (t.ColumnIn? && (t.column == Status || t.column == Stage) && "" !in t.values)
      || (t.Conj? && t.first == StatusIn(ASSIGNABLE))
  {
  }

  /** A lead without status and stage, closed once, meets no other preset. */
  lemma HandedOverMeetsNoPreset(loc: Locale, preset: Preset)
    requires preset != AllLeads && preset != PassedLeads
    ensures !Matches(loc, ONE_HANDED_OVER, NOBODY, PresetTest(preset))
  {
    var t := PresetTest(preset);
    PresetShape(preset);
    hide PresetTest, Matches;
    NobodyIsNowhere(loc, if t.ColumnIn? then t.values else []);
    if t.Conj? {
      NobodyIsNowhere(loc, ASSIGNABLE);
      TwoTests(loc, ONE_HANDED_OVER, NOBODY, t.first, t.second);
    }
  }

  lemma NobodyIsHandedOver(loc: Locale)
    ensures Matches(loc, ONE_HANDED_OVER, NOBODY, HandedOff(PASSED_ACTIONS))
  {
    var h := Handoff("", PASSED_ACTIONS[0], None, None, 0);
    assert ONE_HANDED_OVER.handoffs[0] == h && h.leadId == NOBODY.id && h.action in PASSED_ACTIONS;
  }

  /** Main result: without facets, the count of passed leads and the "passed" list agree in every
      database if and only if there is no exact status and the summary's preset is "all" or
      "passed". */
  lemma PassedAgreesIff(loc: Locale, p: LeadListParams)
    requires OnlyStatus(p)
    ensures (forall db :: Count(Selecting(loc, db, PassedTest(loc, p)), db.leads) == ListTotal(loc, db, PassedList(p)))
       <==> TrimSpace(p.status) == "" && (p.filter == AllLeads || p.filter == PassedLeads)
  {
    hide Matches, FacetsTest, ListTest, ListTotal, PassedTest, PassedList, PresetTest, TrimSpace, Map, Count;
    if TrimSpace(p.status) == "" && (p.filter == AllLeads || p.filter == PassedLeads) {
      forall db { PassedIsListTotal(loc, db, p); }
    } else if TrimSpace(p.status) == "" {
      OnlyStatusFacets(loc, ONE_HANDED_OVER, NOBODY, p);
      HandedOverMeetsNoPreset(loc, p.filter);
      NobodyIsHandedOver(loc);
      PassedParts(loc, ONE_HANDED_OVER, NOBODY, p);
      PassedIsListTotalIff(loc, ONE_HANDED_OVER, p);
      assert NOBODY in ONE_HANDED_OVER.leads;
    } else {
      var l := NOBODY.(qualificationStatus := Map(loc.upper, TrimSpace(p.status)));
      var db := Db([l], map[], map[], []);
      OnlyStatusFacets(loc, db, l, p);
      PassedParts(loc, db, l, p);
      PassedIsListTotalIff(loc, db, p);
      assert l in db.leads;
      assert !Matches(loc, db, l, HandedOff(PASSED_ACTIONS)) by { NotHandedOver(loc, db, l); }
    }
  }

  lemma NotHandedOver(loc: Locale, db: Db, l: Lead)
    requires db.handoffs == []
    ensures !Matches(loc, db, l, HandedOff(PASSED_ACTIONS))
  {
  }

  // ---------------------------------------------------------------- outcomes of one executive

  const ANY_OUTCOME := ["WITH_TEAM_LEAD", "WITH_EXECUTIVE", "NOT_CONNECTED", "IN_NEGOTIATION", "NO_RESPONSE_FROM_CLIENT",
                        "CLOSED_WON", "CLOSED_LOST"]

  class SalesExecOutcome {
    const id: Id
    var name: string
    var total: nat   // assigned
    var withTeamLead: nat
    var withRep: nat
    var inProgress: nat
    var won: nat
    var lost: nat
    var other: int

    constructor (id: Id, name: string)
      ensures this.id == id && this.name == name
      ensures total == withTeamLead == withRep == inProgress == won == lost == 0 && other == 0
    {
      this.id, this.name := id, name;
      total, withTeamLead, withRep, inProgress, won, lost, other := 0, 0, 0, 0, 0, 0, 0;
    }

    ghost predicate Counts(mine: Lead -> bool, leads: seq<Lead>)
      reads this
    {
      && total == Count(mine, leads)
      && withTeamLead == Count(Within(mine, AtStage(["WITH_TEAM_LEAD"])), leads)
      && withRep == Count(Within(mine, AtStage(["WITH_EXECUTIVE"])), leads)
      && inProgress == Count(Within(mine, AtStage(WORKING)), leads)
      && won == Count(Within(mine, AtStage(["CLOSED_WON"])), leads)
      && lost == Count(Within(mine, AtStage(["CLOSED_LOST"])), leads)
    }

    lemma NothingCounted(mine: Lead -> bool)
      requires total == withTeamLead == withRep == inProgress == won == lost == 0
      ensures Counts(mine, [])
    {
    }

    /** One row of the grouped scan. */
    method Tally(l: Lead, ghost mine: Lead -> bool, ghost leads: seq<Lead>, ghost i: nat)
      requires i < |leads| && leads[i] == l && mine(l) && Counts(mine, leads[..i])
      modifies this
      ensures Counts(mine, leads[..i + 1]) && other == old(other) && name == old(name)
    {
      hide Count;
      CountSnoc(mine, leads, i);
      CountSnoc(Within(mine, AtStage(["WITH_TEAM_LEAD"])), leads, i);
      CountSnoc(Within(mine, AtStage(["WITH_EXECUTIVE"])), leads, i);
      CountSnoc(Within(mine, AtStage(WORKING)), leads, i);
      CountSnoc(Within(mine, AtStage(["CLOSED_WON"])), leads, i);
      CountSnoc(Within(mine, AtStage(["CLOSED_LOST"])), leads, i);
      total := total + 1;
      if l.salesStage == "WITH_TEAM_LEAD" { withTeamLead := withTeamLead + 1; }
      if l.salesStage == "WITH_EXECUTIVE" { withRep := withRep + 1; }
      if l.salesStage in WORKING { inProgress := inProgress + 1; }
      if l.salesStage == "CLOSED_WON" { won := won + 1; }
      if l.salesStage == "CLOSED_LOST" { lost := lost + 1; }
    }

    lemma Skipped(l: Lead, mine: Lead -> bool, leads: seq<Lead>, i: nat)
      requires i < |leads| && leads[i] == l && !mine(l) && Counts(mine, leads[..i])
      ensures Counts(mine, leads[..i + 1])
    {
      hide Count;
      CountSnoc(mine, leads, i);
      CountSnoc(Within(mine, AtStage(["WITH_TEAM_LEAD"])), leads, i);
      CountSnoc(Within(mine, AtStage(["WITH_EXECUTIVE"])), leads, i);
      CountSnoc(Within(mine, AtStage(WORKING)), leads, i);
      CountSnoc(Within(mine, AtStage(["CLOSED_WON"])), leads, i);
      CountSnoc(Within(mine, AtStage(["CLOSED_LOST"])), leads, i);
    }

    /** completeSalesExecOutcome.  On counts of one scan the remainder is the number of leads
        at any other stage, so it is never negative and the clamp changes nothing. */
    method Complete(ghost mine: Lead -> bool, ghost leads: seq<Lead>)
      requires Counts(mine, leads)
      modifies this
      ensures Counts(mine, leads)
      ensures name == if id == "" then "Unnamed" else old(name)
      ensures other == Count(Within(mine, OtherStage()), leads)
      ensures total == withTeamLead + withRep + inProgress + won + lost + other
    {
      if id == "" {
        name := "Unnamed";
      }
      StagesPartition(mine, leads);
      var accounted := withTeamLead + withRep + inProgress + won + lost;
      other := if total - accounted < 0 then 0 else total - accounted;
    }
  }

  function OtherStage(): Lead -> bool { (l: Lead) => l.salesStage !in ANY_OUTCOME }

  /** The six stage groups partition every set of leads. */
  lemma {:induction false} StagesPartition(mine: Lead -> bool, leads: seq<Lead>)
    ensures Count(mine, leads)
         == Count(Within(mine, AtStage(["WITH_TEAM_LEAD"])), leads) + Count(Within(mine, AtStage(["WITH_EXECUTIVE"])), leads)
          + Count(Within(mine, AtStage(WORKING)), leads) + Count(Within(mine, AtStage(["CLOSED_WON"])), leads)
          + Count(Within(mine, AtStage(["CLOSED_LOST"])), leads) + Count(Within(mine, OtherStage()), leads)
  {
    if leads != [] {
      StagesPartition(mine, leads[1..]);
    }
  }

  /** The leads of the outcomes' scope that one executive holds. */
  function Held(loc: Locale, db: Db, p: LeadListParams, exec: Id): Lead -> bool {
    (l: Lead) => Matches(loc, db, l, ScopeOnlyTest(loc, p)) && l.assignedSalesExecId == Some(exec)
  }

  /** One group of the outcomes query. */
  method ExecutiveOutcome(loc: Locale, db: Db, p: LeadListParams, exec: Id, name: string) returns (item: SalesExecOutcome)
    requires FoldOk(loc.fold)
    ensures fresh(item) && item.id == exec && item.Counts(Held(loc, db, p, exec), db.leads)
    ensures item.total == item.withTeamLead + item.withRep + item.inProgress + item.won + item.lost + item.other
    ensures item.other == Count(Within(Held(loc, db, p, exec), OtherStage()), db.leads)
  {
    var where, args := LeadScopeWhere(loc, p, true, 0);
    ScopeOnlyParts(loc, p);
    SelectsBoard(loc, db, where, args, ScopeOnlyTest(loc, p));
    hide Holds, Matches, Denotes, ScopeOnlyTest, SalesExecOutcome.Counts;
    ghost var mine := Held(loc, db, p, exec);
    item := new SalesExecOutcome(exec, name);
    item.NothingCounted(mine);
    assert db.leads[..0] == [];
    for i := 0 to |db.leads|
      invariant item.Counts(mine, db.leads[..i])
    {
      var l := db.leads[i];
      assert mine(l) <==> Holds(loc, db, args, l, where) && l.assignedSalesExecId == Some(exec);
      if Holds(loc, db, args, l, where) && l.assignedSalesExecId == Some(exec) {
        item.Tally(l, mine, db.leads, i);
      } else {
        item.Skipped(l, mine, db.leads, i);
      }
    }
    assert db.leads[..|db.leads|] == db.leads;
    item.Complete(mine, db.leads);
  }

  // ---------------------------------------------------------------- the counts on the columns

  /** What a board card counts: the leads of its pipeline preset in all facets but status and stage. */
  lemma CardSelects(loc: Locale, db: Db, l: Lead, p: LeadListParams, preset: Preset)
    ensures Matches(loc, db, l, ListTest(loc, Card(p, preset)))
       <==> InPreset(db, l, preset) && InFacets(loc, db, l, p.(status := "", stage := ""))
  {
    CardParts(loc, p, preset);
    PresetMeaning(loc, db, l, preset);
    CardFacets(loc, p, preset);
    FacetsMeaning(loc, db, l, p.(status := "", stage := ""));
    ListParts(loc, db, l, Card(p, preset));
    AtStageMatches(loc, db, l, []);
    hide Matches, ListTest, FacetsTest, BaseTest, SearchTest, PresetTest, InPreset, InFacets;
  }

  lemma CardFacets(loc: Locale, p: LeadListParams, preset: Preset)
    ensures FacetsTest(loc, Card(p, preset)) == FacetsTest(loc, p.(status := "", stage := ""))
  {
    hide TrimSpace, Given, AddedTest, ServiceLineTest, Map;
    var q, r := Card(p, preset), p.(status := "", stage := "");
    assert GeoTest(q) == GeoTest(r) && ScopeTest(q) == ScopeTest(r);
    assert ChannelTest(loc, q) == ChannelTest(loc, r) && ProgressTest(loc, q) == ProgressTest(loc, r);
    hide GeoTest, ScopeTest, ChannelTest, ProgressTest;
  }

  /** What the passed count counts: scoped leads of the summary's preset that were handed over. */
  lemma PassedSelects(loc: Locale, db: Db, l: Lead, p: LeadListParams)
    ensures Matches(loc, db, l, PassedTest(loc, p))
       <==> && InFacets(loc, db, l, p) && PassedOn(db, l)
            && (TrimSpace(p.status) == "" ==> InPreset(db, l, p.filter))
  {
    PassedParts(loc, db, l, p);
    FacetsMeaning(loc, db, l, p);
    PresetMeaning(loc, db, l, p.filter);
    PassedMeaning(loc, db, l);
    hide Matches, FacetsTest, PresetTest, PassedTest, InPreset, InFacets, PassedOn;
  }

  /** What an executive's row counts: the scoped leads they hold. */
  lemma HeldSelects(loc: Locale, db: Db, l: Lead, p: LeadListParams, exec: Id)
    ensures Held(loc, db, p, exec)(l)
       <==> && l.assignedSalesExecId == Some(exec) && InFacets(loc, db, l, p)
            && (TrimSpace(p.status) == "" ==> InPreset(db, l, p.filter))
  {
    ScopeOnlyParts(loc, p);
    BaseMeaning(loc, db, l, p);
    FacetsMeaning(loc, db, l, p);
    TwoTests(loc, db, l, BaseTest(p), FacetsTest(loc, p));
    hide Matches, FacetsTest, BaseTest, ScopeOnlyTest, InPreset, InFacets;
  }

  lemma BaseMeaning(loc: Locale, db: Db, l: Lead, p: LeadListParams)
    ensures Matches(loc, db, l, BaseTest(p)) <==> (TrimSpace(p.status) == "" ==> InPreset(db, l, p.filter))
  {
    PresetMeaning(loc, db, l, p.filter);
    AtStageMatches(loc, db, l, []);
    hide Matches, PresetTest, InPreset, TrimSpace;
  }
}
