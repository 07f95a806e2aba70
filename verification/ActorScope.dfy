/** What an actor may see: the list scope, the per-lead gate and the aggregate filter
    are three programs that have to agree. */
module ActorScopes {
  import opened Wrappers
  import opened Model
  import opened Text
  import opened Sql
  import opened LeadQuery
  import opened LeadWhere
  import opened GeoScopes

  datatype Actor = Actor(id: Id, role: string, teamId: Option<Id>, analystTeamName: Option<string>)

  datatype Access = Granted | Unauthorized | Forbidden | NotFound

  /** No team has this id; it stands for "no lead" in the scope of a team lead without a team. */
  const ZERO_TEAM := "00000000-0000-0000-0000-000000000000"


  // ---------------------------------------------------------------- the scope of a role

  function OwnerId(a: Actor): string { if a.role == LEAD_ANALYST then TrimSpace(a.id) else "" }

  function ExecId(a: Actor): string { if a.role == SALES_EXECUTIVE then TrimSpace(a.id) else "" }

  function TeamScopeId(a: Actor): string {
    if a.role == MAIN_TEAM_LEAD && a.teamId.Some? then TrimSpace(a.teamId.value) else ""
  }

  function AtlId(a: Actor): string { if a.role == ANALYST_TEAM_LEAD then TrimSpace(a.id) else "" }

  function AtlTeamName(a: Actor): string {
    if AtlId(a) == "" then "" else if a.analystTeamName.None? then "" else TrimSpace(a.analystTeamName.value)
  }

  /** The rule the three programs implement. */
  predicate MaySee(loc: Locale, db: Db, a: Actor, l: Lead) {
    && a.role in ROLES
    && (OwnerId(a) != "" ==> l.createdById == Some(OwnerId(a)))
    && (ExecId(a) != "" ==> l.assignedSalesExecId == Some(ExecId(a)))
    && (AtlId(a) != "" ==> Matches(loc, db, l, CreatedByTeamOf(AtlId(a), AtlTeamName(a))))
    && (a.role == MAIN_TEAM_LEAD ==> TeamScopeId(a) != "" && l.teamId == Some(TeamScopeId(a)))
  }

  // ---------------------------------------------------------------- the list

  /** applyActorLeadScope: the role's own facet replaces whatever the client sent. */
  method ApplyActorLeadScope(a: Actor, p: LeadListParams) returns (params: LeadListParams)
    ensures params == Scoped(a, p)
  {
    params := p;
    if OwnerId(a) != "" {
      params := params.(analystId := OwnerId(a));
    }
    if ExecId(a) != "" {
      params := params.(salesExecId := ExecId(a));
    }
    if AtlId(a) != "" {
      params := params.(analystTeamLeadId := AtlId(a), analystTeamName := AtlTeamName(a));
      params := params.(managerId := "");
    }
    if TeamScopeId(a) != "" {
      params := params.(teamId := TeamScopeId(a));
      return;
    }
    if a.role == MAIN_TEAM_LEAD {
      params := params.(teamId := ZERO_TEAM);
    }
  }

  /** The team facet of a main team lead. */
  function TeamFacet(a: Actor): string { if TeamScopeId(a) != "" then TeamScopeId(a) else ZERO_TEAM }

  /** A role has one scope at most, so the parameters change in one place. */
  function Scoped(a: Actor, p: LeadListParams): LeadListParams {
    match a.role
    case "LEAD_ANALYST" => if OwnerId(a) == "" then p else p.(analystId := OwnerId(a))
    case "SALES_EXECUTIVE" => if ExecId(a) == "" then p else p.(salesExecId := ExecId(a))
    case "ANALYST_TEAM_LEAD" =>
      if AtlId(a) == "" then p
      else p.(analystTeamLeadId := AtlId(a), analystTeamName := AtlTeamName(a), managerId := "")
    case "MAIN_TEAM_LEAD" => p.(teamId := TeamFacet(a))
    case _ => p
  }

  /** What the role's scope does to the parameters, field by field: it replaces one facet of the
      client and leaves the others. */
  lemma ScopeReplacesFacet(a: Actor, p: LeadListParams)
    ensures var q, id := Scoped(a, p), TrimSpace(a.id);
      && q.analystId == (if a.role == "LEAD_ANALYST" && id != "" then id else p.analystId)
      && q.salesExecId == (if a.role == "SALES_EXECUTIVE" && id != "" then id else p.salesExecId)
      && q.analystTeamLeadId == (if a.role == "ANALYST_TEAM_LEAD" && id != "" then id else p.analystTeamLeadId)
      && q.analystTeamName == (if a.role == "ANALYST_TEAM_LEAD" && id != ""
                               then (if a.analystTeamName.Some? then TrimSpace(a.analystTeamName.value) else "") else p.analystTeamName)
      && q.managerId == (if a.role == "ANALYST_TEAM_LEAD" && id != "" then "" else p.managerId)
      && q.teamId == (if a.role != "MAIN_TEAM_LEAD" then p.teamId
                      else if a.teamId.Some? && TrimSpace(a.teamId.value) != "" then TrimSpace(a.teamId.value)
                      else "00000000-0000-0000-0000-000000000000")
      && q == p.(analystId := q.analystId, salesExecId := q.salesExecId, analystTeamLeadId := q.analystTeamLeadId,
                 analystTeamName := q.analystTeamName, managerId := q.managerId, teamId := q.teamId)
  {
    hide TrimSpace;
  }

  /** The list refuses unknown roles and else shows the leads of the scoped parameters. */
  predicate Lists(loc: Locale, db: Db, a: Actor, p: LeadListParams, l: Lead) {
    a.role in ROLES && Matches(loc, db, l, ListTest(loc, Scoped(a, p)))
  }

  const NO_FACETS :=
    LeadListParams(AllLeads, "", AllFields, "", "", "", "", "", "", "", "", "", "", "", "", "", "", None, None, "")

  /** The scope facet an actor's list carries without client facets. */
  function ScopeFacet(a: Actor): Test {
    match a.role
    case "LEAD_ANALYST" => Given(OwnerId(a), IdFacet(CreatedById, OwnerId(a)))
    case "SALES_EXECUTIVE" => Given(ExecId(a), IdFacet(SalesExecId, ExecId(a)))
    case "ANALYST_TEAM_LEAD" => Given(AtlId(a), CreatedByTeamOf(AtlId(a), AtlTeamName(a)))
    case "MAIN_TEAM_LEAD" => IdFacet(TeamId, TeamFacet(a))
    case _ => Always
  }

  lemma ScopeIdsAreTrimmed(a: Actor)
    ensures TrimSpace(OwnerId(a)) == OwnerId(a) && TrimSpace(ExecId(a)) == ExecId(a)
    ensures TrimSpace(AtlId(a)) == AtlId(a) && TrimSpace(AtlTeamName(a)) == AtlTeamName(a)
    ensures TrimSpace(TeamFacet(a)) == TeamFacet(a)
  {
    TrimSpaceStable(a.id);
    if a.analystTeamName.Some? {
      TrimSpaceStable(a.analystTeamName.value);
    }
    if a.teamId.Some? {
      TrimSpaceStable(a.teamId.value);
    }
    TightIsTrimmed(ZERO_TEAM, IsSpace);
  }

  /** What ListTest says, facet group by facet group. */
  lemma ListGroups(loc: Locale, db: Db, l: Lead, p: LeadListParams)
    ensures Matches(loc, db, l, ListTest(loc, p)) <==>
      && Matches(loc, db, l, BaseTest(p)) && Matches(loc, db, l, GeoTest(p)) && Matches(loc, db, l, ScopeTest(p))
      && Matches(loc, db, l, ChannelTest(loc, p)) && Matches(loc, db, l, ProgressTest(loc, p))
      && Matches(loc, db, l, SearchTest(loc, p))
  {
    hide BaseTest, GeoTest, ScopeTest, ChannelTest, ProgressTest, SearchTest;
    var geo, scope, channel, progress := GeoTest(p), ScopeTest(p), ChannelTest(loc, p), ProgressTest(loc, p);
    FourTests(loc, db, l, geo, scope, channel, progress);
    FourTests(loc, db, l, Always, BaseTest(p), FacetsTest(loc, p), SearchTest(loc, p));
    assert ListTest(loc, p) == Conj(Conj(BaseTest(p), FacetsTest(loc, p)), SearchTest(loc, p));
  }

  lemma FourTests(loc: Locale, db: Db, l: Lead, t: Test, u: Test, v: Test, w: Test)
    ensures Matches(loc, db, l, Conj(Conj(Conj(t, u), v), w))
      <==> Matches(loc, db, l, t) && Matches(loc, db, l, u) && Matches(loc, db, l, v) && Matches(loc, db, l, w)
    ensures Matches(loc, db, l, Conj(Conj(u, v), w)) <==> Matches(loc, db, l, u) && Matches(loc, db, l, v) && Matches(loc, db, l, w)
  {
    TwoTests(loc, db, l, t, u);
    TwoTests(loc, db, l, u, v);
    TwoTests(loc, db, l, Conj(t, u), v);
    TwoTests(loc, db, l, Conj(u, v), w);
    TwoTests(loc, db, l, Conj(Conj(t, u), v), w);
    hide Matches;
  }

  lemma ScopeGroup(loc: Locale, db: Db, l: Lead, p: LeadListParams)
    ensures Matches(loc, db, l, ScopeTest(p)) <==>
      && Matches(loc, db, l, Given(p.teamId, IdFacet(TeamId, TrimSpace(p.teamId))))
      && Matches(loc, db, l, Given(p.analystId, IdFacet(CreatedById, TrimSpace(p.analystId))))
      && Matches(loc, db, l, Given(p.salesExecId, IdFacet(SalesExecId, TrimSpace(p.salesExecId))))
      && Matches(loc, db, l, Given(p.managerId, ManagedBy(TrimSpace(p.managerId))))
      && Matches(loc, db, l, Given(p.analystTeamLeadId, CreatedByTeamOf(TrimSpace(p.analystTeamLeadId), TrimSpace(p.analystTeamName))))
  {
    hide Given;
    var t := Given(p.teamId, IdFacet(TeamId, TrimSpace(p.teamId)));
    var u := Given(p.analystId, IdFacet(CreatedById, TrimSpace(p.analystId)));
    var v := Given(p.salesExecId, IdFacet(SalesExecId, TrimSpace(p.salesExecId)));
    var w := Given(p.managerId, ManagedBy(TrimSpace(p.managerId)));
    var x := Given(p.analystTeamLeadId, CreatedByTeamOf(TrimSpace(p.analystTeamLeadId), TrimSpace(p.analystTeamName)));
    FourTests(loc, db, l, t, u, v, w);
    assert ScopeTest(p) == Conj(Conj(Conj(Conj(t, u), v), w), x);
  }

  /** Parameters whose only facets are places and scopes. */
  predicate OnlyScope(p: LeadListParams) {
    p == NO_FACETS.(country := p.country, city := p.city, teamId := p.teamId, analystId := p.analystId,
                    salesExecId := p.salesExecId, analystTeamLeadId := p.analystTeamLeadId, analystTeamName := p.analystTeamName)
  }

  lemma OnlyScopeMatters(loc: Locale, db: Db, l: Lead, p: LeadListParams)
    requires OnlyScope(p)
    ensures Matches(loc, db, l, ListTest(loc, p)) <==> Matches(loc, db, l, GeoTest(p)) && Matches(loc, db, l, ScopeTest(p))
  {
    ListGroups(loc, db, l, p);
    assert Matches(loc, db, l, BaseTest(p)) && Matches(loc, db, l, SearchTest(loc, p));
    NoChannels(loc, db, l, p);
    NoProgress(loc, db, l, p);
  }

  lemma NoChannels(loc: Locale, db: Db, l: Lead, p: LeadListParams)
    requires OnlyScope(p)
    ensures Matches(loc, db, l, ChannelTest(loc, p))
  {
    var none := Conj(Always, Always);
    assert Matches(loc, db, l, none) && Matches(loc, db, l, Conj(none, Always));
    assert ServiceLineTest(loc, "") == Always;
    assert ChannelTest(loc, p) == Conj(Conj(none, Always), Always);
  }

  lemma NoProgress(loc: Locale, db: Db, l: Lead, p: LeadListParams)
    requires OnlyScope(p)
    ensures Matches(loc, db, l, ProgressTest(loc, p))
  {
    var none := Conj(Always, Always);
    assert Matches(loc, db, l, none) && Matches(loc, db, l, Conj(none, none));
    assert ProgressTest(loc, p) == Conj(Conj(none, none), Always);
  }

  /** The actor's scope facet is among the facets of the scoped parameters. */
  lemma ScopedImpliesFacet(loc: Locale, db: Db, a: Actor, p: LeadListParams, l: Lead)
    requires Matches(loc, db, l, ScopeTest(Scoped(a, p)))
    ensures Matches(loc, db, l, ScopeFacet(a))
  {
    ScopeGroup(loc, db, l, Scoped(a, p));
    FacetAmong(loc, db, a, p, l);
    hide Matches, Given, Scoped, ScopeTest, ScopeFacet, TrimSpace;
  }

  lemma FacetAmong(loc: Locale, db: Db, a: Actor, p: LeadListParams, l: Lead)
    requires var q := Scoped(a, p);
      && Matches(loc, db, l, Given(q.teamId, IdFacet(TeamId, TrimSpace(q.teamId))))
      && Matches(loc, db, l, Given(q.analystId, IdFacet(CreatedById, TrimSpace(q.analystId))))
      && Matches(loc, db, l, Given(q.salesExecId, IdFacet(SalesExecId, TrimSpace(q.salesExecId))))
      && Matches(loc, db, l, Given(q.analystTeamLeadId, CreatedByTeamOf(TrimSpace(q.analystTeamLeadId), TrimSpace(q.analystTeamName))))
    ensures Matches(loc, db, l, ScopeFacet(a))
  {
    hide Matches, Given, OwnerId, ExecId, AtlId, AtlTeamName, TeamFacet, TrimSpace;
    ScopeIdsAreTrimmed(a);
    GivenFacet(loc, db, a, l);
  }

  /** The stand-in for a missing team is not blank. */
  lemma GivenFacet(loc: Locale, db: Db, a: Actor, l: Lead)
    ensures Matches(loc, db, l, Given(TeamFacet(a), IdFacet(TeamId, TeamFacet(a)))) ==> Matches(loc, db, l, IdFacet(TeamId, TeamFacet(a)))
    ensures Matches(loc, db, l, Always) && forall t :: Matches(loc, db, l, Given("", t))
  {
    ScopeIdsAreTrimmed(a);
    assert TeamFacet(a) != "";
    assert TrimSpace("") == "";
    hide TeamFacet;
  }

  /** With no other facet it is the only one. */
  lemma FacetImpliesScoped(loc: Locale, db: Db, a: Actor, country: string, city: string, l: Lead)
    requires Matches(loc, db, l, ScopeFacet(a))
    ensures Matches(loc, db, l, ScopeTest(Scoped(a, NO_FACETS.(country := country, city := city))))
  {
    var p := NO_FACETS.(country := country, city := city);
    assert p.teamId == p.analystId == p.salesExecId == p.managerId == p.analystTeamLeadId == p.analystTeamName == "";
    ScopeIdsAreTrimmed(a);
    BlankIsAlways(loc, db, l);
    ScopeGroup(loc, db, l, Scoped(a, p));
    FacetAlone(loc, db, a, p, l);
    hide Matches, Given, Scoped, ScopeTest, ScopeFacet, TrimSpace;
    assert Matches(loc, db, l, ScopeTest(Scoped(a, p)));
  }

  lemma BlankIsAlways(loc: Locale, db: Db, l: Lead)
    ensures forall t :: Matches(loc, db, l, Given("", t))
  {
    assert TrimSpace("") == "";
  }

  lemma FacetAlone(loc: Locale, db: Db, a: Actor, p: LeadListParams, l: Lead)
    requires p.teamId == p.analystId == p.salesExecId == p.managerId == p.analystTeamLeadId == p.analystTeamName == ""
    requires Matches(loc, db, l, ScopeFacet(a))
    ensures var q := Scoped(a, p);
      && Matches(loc, db, l, Given(q.teamId, IdFacet(TeamId, TrimSpace(q.teamId))))
      && Matches(loc, db, l, Given(q.analystId, IdFacet(CreatedById, TrimSpace(q.analystId))))
      && Matches(loc, db, l, Given(q.salesExecId, IdFacet(SalesExecId, TrimSpace(q.salesExecId))))
      && Matches(loc, db, l, Given(q.managerId, ManagedBy(TrimSpace(q.managerId))))
      && Matches(loc, db, l, Given(q.analystTeamLeadId, CreatedByTeamOf(TrimSpace(q.analystTeamLeadId), TrimSpace(q.analystTeamName))))
  {
    ScopeIdsAreTrimmed(a);
    BlankIsAlways(loc, db, l);
    TeamFacetGiven(loc, db, a, l);
    hide Matches, Given, OwnerId, ExecId, AtlId, AtlTeamName, TeamFacet, TrimSpace;
  }

  lemma TeamFacetGiven(loc: Locale, db: Db, a: Actor, l: Lead)
    ensures Matches(loc, db, l, IdFacet(TeamId, TeamFacet(a))) ==> Matches(loc, db, l, Given(TeamFacet(a), IdFacet(TeamId, TeamFacet(a))))
  {
    hide TeamFacet, TrimSpace;
  }

  lemma SamePlaces(a: Actor, p: LeadListParams)
    ensures GeoTest(Scoped(a, p)) == GeoTest(p)
    ensures OnlyScope(p) ==> OnlyScope(Scoped(a, p))
  {
  }

  /** A list with places alone shows the leads of the places and the scope facet. */
  lemma PlaceListIsScope(loc: Locale, db: Db, a: Actor, country: string, city: string, l: Lead)
    ensures var p := NO_FACETS.(country := country, city := city);
            Lists(loc, db, a, p, l) <==> a.role in ROLES && Matches(loc, db, l, GeoTest(p)) && Matches(loc, db, l, ScopeFacet(a))
  {
    hide Matches, ListTest, GeoTest, ScopeTest, ScopeFacet, Scoped;
    var p := NO_FACETS.(country := country, city := city);
    SamePlaces(a, p);
    OnlyScopeMatters(loc, db, l, Scoped(a, p));
    if Matches(loc, db, l, ScopeFacet(a)) {
      FacetImpliesScoped(loc, db, a, country, city, l);
    }
    if Matches(loc, db, l, ScopeTest(Scoped(a, p))) {
      ScopedImpliesFacet(loc, db, a, p, l);
    }
  }

  /** Without client facets the list is the scope facet alone. */
  lemma BareListIsScope(loc: Locale, db: Db, a: Actor, l: Lead)
    ensures Lists(loc, db, a, NO_FACETS, l) <==> a.role in ROLES && Matches(loc, db, l, ScopeFacet(a))
  {
    assert Matches(loc, db, l, GeoTest(NO_FACETS)) by {
      assert GeoTest(NO_FACETS) == Conj(Always, Always);
    }
    hide Matches, ListTest, GeoTest, ScopeFacet, Scoped;
    assert NO_FACETS.(country := "", city := "") == NO_FACETS;
    PlaceListIsScope(loc, db, a, "", "", l);
  }

  /** Main result: facets, filters and searches only shrink what the actor's list shows. */
  lemma FacetsOnlyShrink(loc: Locale, db: Db, a: Actor, p: LeadListParams, l: Lead)
    requires Lists(loc, db, a, p, l)
    ensures Lists(loc, db, a, NO_FACETS, l)
  {
    ListGroups(loc, db, l, Scoped(a, p));
    ScopedImpliesFacet(loc, db, a, p, l);
    BareListIsScope(loc, db, a, l);
  }

  // ---------------------------------------------------------------- the list against the rule

  /** The leads on which the list and the rule differ: an id that reads as the word for
      "missing", and a lead on the team that stands for no team. */
  predicate Misread(loc: Locale, a: Actor, l: Lead) {
    || (OwnerId(a) != "" && MisreadId(loc, OwnerId(a), l.createdById))
    || (ExecId(a) != "" && MisreadId(loc, ExecId(a), l.assignedSalesExecId))
    || (a.role == MAIN_TEAM_LEAD && TeamScopeId(a) != "" && MisreadId(loc, TeamScopeId(a), l.teamId))
    || (a.role == MAIN_TEAM_LEAD && TeamScopeId(a) == "" && l.teamId == Some(ZERO_TEAM))
  }

  predicate MisreadId(loc: Locale, id: Id, stored: Option<Id>) {
    IsNone(loc, id) && (stored.None? || stored == Some(id))
  }

  lemma ZeroTeamIsPlain(loc: Locale)
    ensures !IsNone(loc, ZERO_TEAM)
  {
    assert |Fold(loc, ZERO_TEAM)| == |ZERO_TEAM|;
    assert |Fold(loc, "none")| == |"none"| && |Fold(loc, "unassigned")| == |"unassigned"|;
  }

  /** Main result: the list without client facets is the rule, exactly on the leads that
      are not misread; in particular for ids that are not "none" or "unassigned" when no
      lead is on the zero team. */
  lemma BareListIsRule(loc: Locale, db: Db, a: Actor, l: Lead)
    ensures (Lists(loc, db, a, NO_FACETS, l) <==> MaySee(loc, db, a, l)) <==> !Misread(loc, a, l) || a.role !in ROLES
  {
    BareListIsScope(loc, db, a, l);
    ZeroTeamIsPlain(loc);
    ScopeIdsAreTrimmed(a);
    hide Lists, IsNone, TrimSpace;
  }

  /** The rule role by role, on the actor's and the lead's own fields. */
  lemma RuleByRole(loc: Locale, db: Db, a: Actor, l: Lead)
    ensures var id := TrimSpace(a.id);
      && (a.role == "SUPERADMIN" ==> MaySee(loc, db, a, l))
      && (a.role == "LEAD_ANALYST" ==> (MaySee(loc, db, a, l) <==> id == "" || l.createdById == Some(id)))
      && (a.role == "SALES_EXECUTIVE" ==> (MaySee(loc, db, a, l) <==> id == "" || l.assignedSalesExecId == Some(id)))
      && (a.role == "MAIN_TEAM_LEAD" ==>
            (MaySee(loc, db, a, l) <==> a.teamId.Some? && TrimSpace(a.teamId.value) != "" && l.teamId == Some(TrimSpace(a.teamId.value))))
      && (a.role == "ANALYST_TEAM_LEAD" ==>
            (MaySee(loc, db, a, l) <==>
              id == "" || (l.createdById.Some? && l.createdById.value in db.users
                           && var u, team := db.users[l.createdById.value], if a.analystTeamName.Some? then TrimSpace(a.analystTeamName.value) else "";
                              u.id == id || (u.role == "LEAD_ANALYST"
                                             && (u.managerId == Some(id)
                                                 || (team != "" && SameLabel(loc, Opt(u.analystTeamName), team)))))))
      && (a.role !in ["SUPERADMIN", "ANALYST_TEAM_LEAD", "LEAD_ANALYST", "MAIN_TEAM_LEAD", "SALES_EXECUTIVE"] ==> !MaySee(loc, db, a, l))
  {
    hide TrimSpace, SameLabel;
  }

  // ---------------------------------------------------------------- the gate in front of one lead

  /** IsCreatedBy, IsAssignedToSalesExec and IsOnTeam: SELECT EXISTS (id = $1 AND column = $2). */
  predicate HasLead(db: Db, leadId: string, column: Lead -> Option<Id>, value: string) {
    TrimSpace(leadId) != "" && TrimSpace(value) != ""
    && exists l :: l in db.leads && l.id == TrimSpace(leadId) && column(l) == Some(TrimSpace(value))
  }

  /** IsCreatedByAnalystTeam: the scope clause behind the lead id in $1. */
  predicate HasTeamLead(loc: Locale, db: Db, leadId: string, atl: string, teamName: string) {
    && TrimSpace(leadId) != "" && TrimSpace(atl) != ""
    && var team := TrimSpace(teamName);
       var args := [TextValue(TrimSpace(leadId))] + AnalystScopeValues(TrimSpace(atl), team);
       exists l :: l in db.leads && l.id == TrimSpace(leadId) && Eval(loc, db, args, l, NoRow, AnalystScopeClause(1, team)) == Yes
  }

  lemma TeamLeadMeaning(loc: Locale, db: Db, leadId: string, atl: string, team: string, l: Lead)
    ensures var args := [TextValue(leadId)] + AnalystScopeValues(atl, team);
            Eval(loc, db, args, l, NoRow, AnalystScopeClause(1, team)) == Yes <==> Matches(loc, db, l, CreatedByTeamOf(atl, team))
  {
    var args := [TextValue(leadId)] + AnalystScopeValues(atl, team);
    assert args[1..1 + |AnalystScopeValues(atl, team)|] == AnalystScopeValues(atl, team);
    assert Binds(args, 1, AnalystScopeValues(atl, team));
    AnalystScopeCompiles(loc, 1, atl, team);
  }

  predicate Scopeless(a: Actor) {
    OwnerId(a) == "" && ExecId(a) == "" && AtlId(a) == "" && a.role != MAIN_TEAM_LEAD
  }

  /** A stored lead of that id which the rule lets the actor see. */
  predicate SeesStored(loc: Locale, db: Db, a: Actor, leadId: string) {
    TrimSpace(leadId) != "" && exists l :: l in db.leads && l.id == TrimSpace(leadId) && MaySee(loc, db, a, l)
  }

  /** Main result: the gate lets a scoped actor through exactly to the stored leads the
      rule allows, and hides the others as missing. */
  method RequireLeadAccess(loc: Locale, db: Db, actor: Option<Actor>, leadId: string) returns (r: Access)
    ensures actor.None? ==> r == Unauthorized
    ensures actor.Some? ==>
      var a := actor.value;
      r == if a.role !in ROLES then Forbidden
           else if Scopeless(a) || SeesStored(loc, db, a, leadId) then Granted
           else NotFound
  {
    if actor.None? {
      return Unauthorized;
    }
    var a := actor.value;
    if a.role !in ROLES {
      return Forbidden;
    }
    ScopeIdsAreTrimmed(a);
    if OwnerId(a) != "" {
      var ok := HasLead(db, leadId, (l: Lead) => l.createdById, OwnerId(a));
      return if ok then Granted else NotFound;
    }
    if ExecId(a) != "" {
      var ok := HasLead(db, leadId, (l: Lead) => l.assignedSalesExecId, ExecId(a));
      return if ok then Granted else NotFound;
    }
    if AtlId(a) != "" {
      forall l { TeamLeadMeaning(loc, db, TrimSpace(leadId), AtlId(a), AtlTeamName(a), l); }
      var ok := HasTeamLead(loc, db, leadId, AtlId(a), AtlTeamName(a));
      return if ok then Granted else NotFound;
    }
    if TeamScopeId(a) == "" {
      return if a.role == MAIN_TEAM_LEAD then NotFound else Granted;
    }
    var ok := HasLead(db, leadId, (l: Lead) => l.teamId, TeamScopeId(a));
    return if ok then Granted else NotFound;
  }

  /** For a stored lead (trimmed primary key) the gate is the rule. */
  lemma GateIsRule(loc: Locale, db: Db, a: Actor, l: Lead)
    requires l in db.leads && l.id != "" && TrimSpace(l.id) == l.id
    requires forall m :: m in db.leads && m.id == l.id ==> m == l
    ensures a.role in ROLES && (Scopeless(a) || SeesStored(loc, db, a, l.id)) <==> MaySee(loc, db, a, l)
  {
    hide Matches;
  }

  /** Main result: the leads an actor's list shows without facets are those the gate opens
      for, exactly on the leads that are not misread. */
  lemma ListIsGate(loc: Locale, db: Db, a: Actor, l: Lead)
    requires l in db.leads && l.id != "" && TrimSpace(l.id) == l.id
    requires forall m :: m in db.leads && m.id == l.id ==> m == l
    requires a.role in ROLES
    ensures (Lists(loc, db, a, NO_FACETS, l) <==> Scopeless(a) || SeesStored(loc, db, a, l.id)) <==> !Misread(loc, a, l)
  {
    hide Lists, Scopeless, SeesStored, MaySee, Misread, TrimSpace;
    BareListIsRule(loc, db, a, l);
    GateIsRule(loc, db, a, l);
  }

  // ---------------------------------------------------------------- the aggregate filter

  /** geoFilterFromRequest */
  method GeoFilterFromRequest(a: Actor, country: string, city: string) returns (f: GeoFilter)
    ensures f == ActorFilter(a, country, city)
  {
    f := ParseGeoFilter(country, city);
    f := f.(createdById := OwnerId(a));
    f := f.(teamId := TeamScopeId(a));
    f := f.(salesExecId := ExecId(a));
    f := f.(analystTeamLeadId := AtlId(a), analystTeamName := AtlTeamName(a));
    if f.teamId == "" && a.role == MAIN_TEAM_LEAD {
      f := f.(teamId := ZERO_TEAM);
    }
  }

  function ActorFilter(a: Actor, country: string, city: string): GeoFilter {
    GeoFilter(TrimSpace(country), TrimSpace(city), OwnerId(a), if a.role == MAIN_TEAM_LEAD then TeamFacet(a) else "",
              ExecId(a), AtlId(a), AtlTeamName(a))
  }

  /** No scope id of the actor reads as "missing". */
  predicate PlainIds(loc: Locale, a: Actor) {
    !IsNone(loc, OwnerId(a)) && !IsNone(loc, ExecId(a)) && !IsNone(loc, TeamScopeId(a))
  }

  lemma FilterGroups(loc: Locale, db: Db, l: Lead, f: GeoFilter)
    ensures Matches(loc, db, l, GeoFilterTest(f)) <==>
      && Matches(loc, db, l, PlaceTest(Country, f.country)) && Matches(loc, db, l, PlaceTest(City, f.city))
      && Matches(loc, db, l, OwnerTest(TrimSpace(f.createdById)))
      && Matches(loc, db, l, IdTest(TeamId, TrimSpace(f.teamId)))
      && Matches(loc, db, l, IdTest(SalesExecId, TrimSpace(f.salesExecId)))
      && Matches(loc, db, l, AnalystTeamTest(TrimSpace(f.analystTeamLeadId), TrimSpace(f.analystTeamName)))
  {
    hide PlaceTest, OwnerTest, IdTest, AnalystTeamTest, TrimSpace;
    FourTests(loc, db, l, PlaceTest(Country, f.country), PlaceTest(City, f.city), OwnerTest(TrimSpace(f.createdById)),
              IdTest(TeamId, TrimSpace(f.teamId)));
  }

  /** An id that does not read as "missing" selects the same leads in both programs. */
  lemma PlainIdAgrees(loc: Locale, db: Db, l: Lead, column: LeadColumn, id: string)
    requires TrimSpace(id) == id && !IsNone(loc, id)
    ensures Matches(loc, db, l, Given(id, IdFacet(column, id))) <==> Matches(loc, db, l, IdTest(column, id))
    ensures IdTest(CreatedById, id) == OwnerTest(id)
  {
    assert IsNone(loc, "none");
    hide TrimSpace, IsNone;
  }

  /** The actor's part of the filter is the scope facet of the list. */
  lemma FilterScope(loc: Locale, db: Db, a: Actor, l: Lead)
    requires PlainIds(loc, a)
    ensures Matches(loc, db, l, ScopeFacet(a)) <==>
      && Matches(loc, db, l, OwnerTest(OwnerId(a)))
      && Matches(loc, db, l, IdTest(TeamId, if a.role == MAIN_TEAM_LEAD then TeamFacet(a) else ""))
      && Matches(loc, db, l, IdTest(SalesExecId, ExecId(a)))
      && Matches(loc, db, l, AnalystTeamTest(AtlId(a), AtlTeamName(a)))
  {
    hide Matches, IsNone, TrimSpace, OwnerId, ExecId, AtlId, AtlTeamName, TeamFacet, IdTest, OwnerTest, AnalystTeamTest, Given;
    ScopeIdsAreTrimmed(a);
    TeamFacetIsPlain(loc, a);
    PlainIdAgrees(loc, db, l, CreatedById, OwnerId(a));
    PlainIdAgrees(loc, db, l, SalesExecId, ExecId(a));
    PlainIdAgrees(loc, db, l, TeamId, TeamFacet(a));
    FacetForms(a);
    AlwaysMatches(loc, db, l);
    OneScope(a);
  }

  lemma TeamFacetIsPlain(loc: Locale, a: Actor)
    requires PlainIds(loc, a)
    ensures !IsNone(loc, TeamFacet(a))
  {
    ZeroTeamIsPlain(loc);
    hide IsNone;
  }

  lemma AlwaysMatches(loc: Locale, db: Db, l: Lead)
    ensures Matches(loc, db, l, Always)
  {
  }

  lemma OneScope(a: Actor)
    ensures a.role != LEAD_ANALYST ==> OwnerId(a) == ""
    ensures a.role != SALES_EXECUTIVE ==> ExecId(a) == ""
    ensures a.role != ANALYST_TEAM_LEAD ==> AtlId(a) == AtlTeamName(a) == ""
  {
  }

  /** The scope facets written with the tests of the aggregate filter. */
  lemma FacetForms(a: Actor)
    ensures Given(TeamFacet(a), IdFacet(TeamId, TeamFacet(a))) == IdFacet(TeamId, TeamFacet(a))
    ensures AnalystTeamTest(AtlId(a), AtlTeamName(a)) == Given(AtlId(a), CreatedByTeamOf(AtlId(a), AtlTeamName(a)))
    ensures IdTest(TeamId, "") == IdTest(SalesExecId, "") == OwnerTest("") == AnalystTeamTest("", "") == Always
  {
    ScopeIdsAreTrimmed(a);
    assert TeamFacet(a) != "";
    hide TeamFacet, TrimSpace;
  }

  /** Main result: the aggregate filter selects the leads of the list with the same places. */
  lemma FilterIsList(loc: Locale, db: Db, a: Actor, country: string, city: string, l: Lead)
    requires a.role in ROLES && PlainIds(loc, a)
    ensures Matches(loc, db, l, GeoFilterTest(ActorFilter(a, country, city)))
       <==> Lists(loc, db, a, NO_FACETS.(country := country, city := city), l)
  {
    var f, p := ActorFilter(a, country, city), NO_FACETS.(country := country, city := city);
    ScopeIdsAreTrimmed(a);
    PlaceListIsScope(loc, db, a, country, city, l);
    FilterGroups(loc, db, l, f);
    FilterScope(loc, db, a, l);
    TwoTests(loc, db, l, PlaceTest(Country, TrimSpace(country)), PlaceTest(City, TrimSpace(city)));
    assert GeoTest(p) == Conj(PlaceTest(Country, TrimSpace(country)), PlaceTest(City, TrimSpace(city)));
    assert TrimSpace(f.teamId) == f.teamId by {
      assert TrimSpace("") == "";
    }
    hide Matches, GeoTest, GeoFilterTest, Lists, OwnerTest, IdTest, AnalystTeamTest, ScopeFacet, TrimSpace;
  }
}
