/** The scope of the lead aggregates: country, city and the actor's own scope. */
module GeoScopes {
  import opened Wrappers
  import opened Model
  import opened Text
  import opened Sql
  import opened LeadQuery
  import opened LeadWhere
  import LeadSelection

  datatype GeoFilter = GeoFilter(
    country: string,
    city: string,
    createdById: string,
    teamId: string,
    salesExecId: string,
    analystTeamLeadId: string,
    analystTeamName: string)

  /** parseGeoFilter */
  function ParseGeoFilter(country: string, city: string): GeoFilter {
    GeoFilter(TrimSpace(country), TrimSpace(city), "", "", "", "", "")
  }

  // ---------------------------------------------------------------- what a filter selects

  function PlaceTest(column: LeadColumn, place: string): Test {
    if place == "" then Always else GeoFacet(column, place)
  }

  function OwnerTest(owner: string): Test {
    if owner == "" then Always else ColumnIn(CreatedById, [owner])
  }

  /** Only the exact word "none" asks for a missing id here. */
  function IdTest(column: LeadColumn, id: string): Test {
    if id == "" then Always else if id == "none" then IdFacet(column, "none") else ColumnIn(column, [id])
  }

  function AnalystTeamTest(atl: string, teamName: string): Test {
    if atl == "" then Always else CreatedByTeamOf(atl, teamName)
  }

  function PlainTest(f: GeoFilter): Test {
    Conj(Conj(Conj(Conj(
      PlaceTest(Country, f.country), PlaceTest(City, f.city)),
      OwnerTest(TrimSpace(f.createdById))),
      IdTest(TeamId, TrimSpace(f.teamId))),
      IdTest(SalesExecId, TrimSpace(f.salesExecId)))
  }

  function GeoFilterTest(f: GeoFilter): Test {
    Conj(PlainTest(f), AnalystTeamTest(TrimSpace(f.analystTeamLeadId), TrimSpace(f.analystTeamName)))
  }

  // ---------------------------------------------------------------- the clauses

  lemma SameIdCompiles(loc: Locale, lo: nat, column: LeadColumn, id: string)
    requires IsIdColumn(column)
    ensures Compiles(loc, lo, Eq(Col(column), Param(lo + 1)), [TextValue(id)], ColumnIn(column, [id]))
  {
    var c, values := Eq(Col(column), Param(lo + 1)), [TextValue(id)];
    forall full: seq<Value>, db: Db, l: Lead | Binds(full, lo, values)
      ensures Eval(loc, db, full, l, NoRow, c) == Yes <==> Matches(loc, db, l, ColumnIn(column, [id]))
    {
      BindsAt(full, lo, values, 0);
    }
  }

  function Pad(argStart: nat): seq<Value> { seq(argStart, i => NullValue) }

  lemma SaysMore(loc: Locale, argStart: nat, parts: seq<Clause>, args: seq<Value>, t: Test, c: Clause, values: seq<Value>, u: Test)
    requires Denotes(loc, argStart, parts, args, t)
    requires Compiles(loc, argStart + |args|, c, values, u)
    ensures Denotes(loc, argStart, parts + [c], args + values, Conj(t, u))
  {
    var pad := Pad(argStart);
    var all := pad + args;
    assert all[argStart..] == args && parts[0..] == parts;
    assert Adds(loc, [], pad, parts, all, t);
    AddOne(loc, parts, all, c, values, u);
    AddsTrans(loc, [], pad, parts, all, parts + [c], all + values, t, u);
    assert (all + values)[argStart..] == args + values && (parts + [c])[0..] == parts + [c];
  }

  lemma SaysNoMore(loc: Locale, argStart: nat, parts: seq<Clause>, args: seq<Value>, t: Test)
    requires Denotes(loc, argStart, parts, args, t)
    ensures Denotes(loc, argStart, parts, args, Conj(t, Always))
  {
    forall full: seq<Value>, db: Db, l: Lead | Binds(full, argStart, args)
      ensures Holds(loc, db, full, l, parts) <==> Matches(loc, db, l, Conj(t, Always))
    {
    }
  }

  method AppendPlace(loc: Locale, argStart: nat, n0: nat, parts0: seq<Clause>, args0: seq<Value>, column: LeadColumn,
                     place: string, ghost t: Test)
    returns (n: nat, parts: seq<Clause>, args: seq<Value>)
    requires n0 == argStart + |args0| && Denotes(loc, argStart, parts0, args0, t)
    ensures n == argStart + |args| && Denotes(loc, argStart, parts, args, Conj(t, PlaceTest(column, place)))
  {
    n, parts, args := n0, parts0, args0;
    if place == "" {
      SaysNoMore(loc, argStart, parts, args, t);
    } else if IsBlankGeoLabel(loc, place) {
      BlankGeoCompiles(loc, n, column, place);
      SaysMore(loc, argStart, parts, args, t, BlankGeoClause(column), [], GeoFacet(column, place));
      assert args + [] == args;
      parts := parts + [BlankGeoClause(column)];
    } else {
      PlaceCompiles(loc, n, column, place);
      SaysMore(loc, argStart, parts, args, t, TrimEqualClause(Col(column), n + 1), [TextValue(place)], GeoFacet(column, place));
      n := n + 1;
      args := args + [TextValue(place)];
      parts := parts + [TrimEqualClause(Col(column), n)];
    }
  }

  method AppendId(loc: Locale, argStart: nat, n0: nat, parts0: seq<Clause>, args0: seq<Value>, column: LeadColumn,
                  id: string, noneIsNull: bool, ghost t: Test)
    returns (n: nat, parts: seq<Clause>, args: seq<Value>)
    requires IsIdColumn(column)
    requires n0 == argStart + |args0| && Denotes(loc, argStart, parts0, args0, t)
    ensures n == argStart + |args|
    ensures Denotes(loc, argStart, parts, args, Conj(t, if noneIsNull then IdTest(column, id)
                                                     else if id == "" then Always else ColumnIn(column, [id])))
  {
    n, parts, args := n0, parts0, args0;
    if id == "" {
      SaysNoMore(loc, argStart, parts, args, t);
    } else if noneIsNull && id == "none" {
      NullIdCompiles(loc, n, column, "none");
      SaysMore(loc, argStart, parts, args, t, IsNull(Col(column)), [], IdFacet(column, "none"));
      assert args + [] == args;
      parts := parts + [IsNull(Col(column))];
    } else {
      SameIdCompiles(loc, n, column, id);
      SaysMore(loc, argStart, parts, args, t, Eq(Col(column), Param(n + 1)), [TextValue(id)], ColumnIn(column, [id]));
      n := n + 1;
      args := args + [TextValue(id)];
      parts := parts + [Eq(Col(column), Param(n))];
    }
  }

  lemma AllParams(cs: seq<Clause>, c: Clause)
    ensures Params(cs + [c]) == Params(cs) + ClauseParams(c)
  {
    ParamsConcat(cs, [c]);
    assert Params([c]) == ClauseParams(c);
  }

  /** Behind argStart > 0 foreign arguments the scope's placeholders collide: the last
      argument is then used by no placeholder. */
  lemma ScopeMisnumbered(loc: Locale, argStart: nat, parts: seq<Clause>, args: seq<Value>, t: Test, atl: string, team: string)
    requires argStart > 0 && Denotes(loc, argStart, parts, args, t)
    ensures !Numbered(parts + [AnalystScopeClause(|args|, team)], argStart, argStart + |args + AnalystScopeValues(atl, team)|)
  {
    var c := AnalystScopeClause(|args|, team);
    var hi := argStart + |args + AnalystScopeValues(atl, team)|;
    AnalystScopeCompiles(loc, |args|, atl, team);
    AllParams(parts, c);
    assert Numbered(parts, argStart, argStart + |args|);
    assert hi !in Params(parts + [c]);
  }

  /** Main result: the clause denotes the filter, numbered behind argStart, exactly when
      argStart is 0 or there is no analyst-team scope. */
  method LeadClause(loc: Locale, f: GeoFilter, argStart: nat) returns (parts: seq<Clause>, args: seq<Value>)
    ensures argStart == 0 || TrimSpace(f.analystTeamLeadId) == "" ==> Denotes(loc, argStart, parts, args, GeoFilterTest(f))
    ensures argStart > 0 && TrimSpace(f.analystTeamLeadId) != "" ==> !Numbered(parts, argStart, argStart + |args|)
  {
    parts, args := [], [];
    var n := argStart;
    ghost var t1, t2 := PlaceTest(Country, f.country), PlaceTest(City, f.city);
    ghost var t3, t4 := OwnerTest(TrimSpace(f.createdById)), IdTest(TeamId, TrimSpace(f.teamId));
    n, parts, args := AppendPlace(loc, argStart, n, parts, args, Country, f.country, Always);
    AlwaysAnd(loc, argStart, parts, args, t1);
    n, parts, args := AppendPlace(loc, argStart, n, parts, args, City, f.city, t1);
    n, parts, args := AppendId(loc, argStart, n, parts, args, CreatedById, TrimSpace(f.createdById), false, Conj(t1, t2));
    n, parts, args := AppendId(loc, argStart, n, parts, args, TeamId, TrimSpace(f.teamId), true, Conj(Conj(t1, t2), t3));
    n, parts, args := AppendId(loc, argStart, n, parts, args, SalesExecId, TrimSpace(f.salesExecId), true,
                               Conj(Conj(Conj(t1, t2), t3), t4));
    var atl, team := TrimSpace(f.analystTeamLeadId), TrimSpace(f.analystTeamName);
    if atl == "" {
      SaysNoMore(loc, argStart, parts, args, PlainTest(f));
    } else {
      if argStart == 0 {
        AnalystScopeCompiles(loc, |args|, atl, team);
        SaysMore(loc, argStart, parts, args, PlainTest(f), AnalystScopeClause(|args|, team), AnalystScopeValues(atl, team),
                 CreatedByTeamOf(atl, team));
      } else {
        ScopeMisnumbered(loc, argStart, parts, args, PlainTest(f), atl, team);
      }
      parts := parts + [AnalystScopeClause(|args|, team)];
      args := args + AnalystScopeValues(atl, team);
    }
  }

  lemma AlwaysAnd(loc: Locale, argStart: nat, parts: seq<Clause>, args: seq<Value>, t: Test)
    requires Denotes(loc, argStart, parts, args, Conj(Always, t))
    ensures Denotes(loc, argStart, parts, args, t)
  {
    forall full: seq<Value>, db: Db, l: Lead | Binds(full, argStart, args)
      ensures Holds(loc, db, full, l, parts) <==> Matches(loc, db, l, t)
    {
      assert Matches(loc, db, l, Conj(Always, t)) <==> Matches(loc, db, l, t);
    }
  }

  // ---------------------------------------------------------------- the filter on the columns

  /** An id of the aggregate filter; only the exact word "none" asks for a missing one. */
  predicate IdAsked(raw: string, id: Option<Id>) {
    var value := TrimSpace(raw);
    value == "" || if value == "none" then id.None? else id == Some(value)
  }

  lemma PlaceMeaning(loc: Locale, db: Db, l: Lead, place: string)
    requires TrimSpace(place) == place
    ensures Matches(loc, db, l, PlaceTest(Country, place)) <==> LeadSelection.PlaceIs(loc, place, l.country)
    ensures Matches(loc, db, l, PlaceTest(City, place)) <==> LeadSelection.PlaceIs(loc, place, l.city)
  {
    LeadSelection.PlaceMeaning(loc, db, l, place);
    LeadSelection.ColumnMeaning(loc, db, l, []);
    hide Matches, TrimSpace;
  }

  lemma IdMeaning(loc: Locale, db: Db, l: Lead, raw: string)
    ensures Matches(loc, db, l, IdTest(TeamId, TrimSpace(raw))) <==> IdAsked(raw, l.teamId)
    ensures Matches(loc, db, l, IdTest(SalesExecId, TrimSpace(raw))) <==> IdAsked(raw, l.assignedSalesExecId)
    ensures Matches(loc, db, l, OwnerTest(TrimSpace(raw))) <==> TrimSpace(raw) == "" || l.createdById == Some(TrimSpace(raw))
  {
    assert EqualFold(loc, "none", "none");
    hide TrimSpace, EqualFold;
  }

  lemma TeamMeaning(loc: Locale, db: Db, l: Lead, atl: string, team: string)
    ensures Matches(loc, db, l, AnalystTeamTest(TrimSpace(atl), TrimSpace(team)))
       <==> LeadSelection.TeamCreated(loc, db, atl, team, l.createdById)
  {
    hide TrimSpace, OnAnalystTeam;
  }

  /** Main result: the aggregate filter selects exactly the leads whose places, holders and
      analyst team are what it carries. */
  lemma FilterMeaning(loc: Locale, db: Db, l: Lead, f: GeoFilter)
    requires TrimSpace(f.country) == f.country && TrimSpace(f.city) == f.city
    ensures Matches(loc, db, l, GeoFilterTest(f))
       <==> && LeadSelection.PlaceIs(loc, f.country, l.country) && LeadSelection.PlaceIs(loc, f.city, l.city)
            && (TrimSpace(f.createdById) == "" || l.createdById == Some(TrimSpace(f.createdById)))
            && IdAsked(f.teamId, l.teamId) && IdAsked(f.salesExecId, l.assignedSalesExecId)
            && LeadSelection.TeamCreated(loc, db, f.analystTeamLeadId, f.analystTeamName, l.createdById)
  {
    PlaceMeaning(loc, db, l, f.country);
    PlaceMeaning(loc, db, l, f.city);
    IdMeaning(loc, db, l, f.createdById);
    IdMeaning(loc, db, l, f.teamId);
    IdMeaning(loc, db, l, f.salesExecId);
    TeamMeaning(loc, db, l, f.analystTeamLeadId, f.analystTeamName);
    hide Matches, TrimSpace, PlaceTest, IdTest, OwnerTest, AnalystTeamTest, IdAsked;
    var t := GeoFilterTest(f);
    var plain := t.first;
    TwoTests(loc, db, l, plain.first.first.first.first, plain.first.first.first.second);
    TwoTests(loc, db, l, plain.first.first.first, plain.first.first.second);
    TwoTests(loc, db, l, plain.first.first, plain.first.second);
    TwoTests(loc, db, l, plain.first, plain.second);
    TwoTests(loc, db, l, plain, t.second);
  }
}
