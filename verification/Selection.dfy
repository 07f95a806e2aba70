/** What the filters of the lead list select, said on the columns of a lead: the presets, the
    facets and the search box. */
module LeadSelection {
  import opened Wrappers
  import opened Model
  import opened Text
  import opened Sql
  import opened LeadQuery
  import opened Calendar

  predicate Qualified(l: Lead) { l.qualificationStatus in ["QUALIFIED", "QUALIFIED_CHAT", "QUALIFIED_CALL", "PAID", "ORGANIC"] }

  predicate AtWork(l: Lead) { l.salesStage in ["NOT_CONNECTED", "IN_NEGOTIATION", "NO_RESPONSE_FROM_CLIENT"] }

  predicate Placed(l: Lead) { l.salesStage == "WITH_TEAM_LEAD" || l.salesStage == "WITH_EXECUTIVE" }

  /** Handed to a sales executive at some time. */
  predicate PassedOn(db: Db, l: Lead) {
    exists h :: h in db.handoffs && h.leadId == l.id
      && (h.action == "DIRECT_ASSIGNED_TO_EXECUTIVE_BY_ATL" || h.action == "ASSIGNED_TO_EXECUTIVE")
  }

  predicate InPreset(db: Db, l: Lead, preset: Preset) {
    match preset
    case AllLeads => true
    case NewLeads => l.qualificationStatus == "NOT_QUALIFIED"
    case NotQualifiedLeads => l.qualificationStatus == "NOT_QUALIFIED"
    case QualifiedLeads => Qualified(l)
    case Pipeline => Qualified(l)
    case IrrelevantLeads => l.qualificationStatus == "IRRELEVANT"
    case NotAppropriateLeads => l.notAppropriate
    case OpenLeads => l.closedAt.None? && l.salesStage != "CLOSED_WON" && l.salesStage != "CLOSED_LOST"
    case ContactedLeads => Placed(l) || l.salesStage == "IN_NEGOTIATION" || l.salesStage == "NOT_CONNECTED"
    case ConvertedLeads => l.salesStage == "CLOSED_WON"
    case LostLeads => l.salesStage == "CLOSED_LOST"
    case PassedLeads => PassedOn(db, l)
    case PassedSeTl => Qualified(l) && Placed(l)
    case PipelineAssigned => Qualified(l) && Placed(l)
    case NotPassed => l.salesStage == "PRE_SALES"
    case WithTeamLead => l.salesStage == "WITH_TEAM_LEAD"
    case WithSalesExec => l.salesStage == "WITH_EXECUTIVE"
    case AssignedLeads => Placed(l)
    case InProgress => AtWork(l)
    case PipelineInProgress => Qualified(l) && AtWork(l)
    case PipelineWon => Qualified(l) && l.salesStage == "CLOSED_WON"
    case PipelineLost => Qualified(l) && l.salesStage == "CLOSED_LOST"
  }

  /** One column in a list of values, on the column itself. */
  lemma ColumnMeaning(loc: Locale, db: Db, l: Lead, values: seq<string>)
    ensures Matches(loc, db, l, StatusIn(values)) <==> l.qualificationStatus in values
    ensures Matches(loc, db, l, StageIn(values)) <==> l.salesStage in values
    ensures Matches(loc, db, l, Always)
  {
  }

  lemma PassedMeaning(loc: Locale, db: Db, l: Lead)
    ensures Matches(loc, db, l, HandedOff(PASSED_ACTIONS)) <==> PassedOn(db, l)
  {
    if Matches(loc, db, l, HandedOff(PASSED_ACTIONS)) {
      var h :| h in db.handoffs && h.leadId == l.id && h.action in PASSED_ACTIONS;
    }
    if PassedOn(db, l) {
      var h :| h in db.handoffs && h.leadId == l.id
        && (h.action == "DIRECT_ASSIGNED_TO_EXECUTIVE_BY_ATL" || h.action == "ASSIGNED_TO_EXECUTIVE");
      assert h.action in PASSED_ACTIONS;
    }
  }

  lemma FlagMeaning(loc: Locale, db: Db, l: Lead)
    ensures Matches(loc, db, l, FlaggedNotAppropriate) <==> l.notAppropriate
    ensures Matches(loc, db, l, StillOpen) <==> l.closedAt.None? && l.salesStage != "CLOSED_WON" && l.salesStage != "CLOSED_LOST"
  {
  }

  /** Main result: each preset of the list selects the leads its name says. */
  lemma PresetMeaning(loc: Locale, db: Db, l: Lead, preset: Preset)
    ensures Matches(loc, db, l, PresetTest(preset)) <==> InPreset(db, l, preset)
  {
    hide Matches, PassedOn;
    PassedMeaning(loc, db, l);
    FlagMeaning(loc, db, l);
    var t := PresetTest(preset);
    var a, b := if t.Conj? then t.first else t, if t.Conj? then t.second else t;
    ColumnMeaning(loc, db, l, if a.ColumnIn? then a.values else []);
    ColumnMeaning(loc, db, l, if b.ColumnIn? then b.values else []);
    if t.Conj? {
      TwoTests(loc, db, l, t.first, t.second);
    }
  }

  // ---------------------------------------------------------------- facets

  predicate AsksNothing(loc: Locale, value: string) {
    Map(loc.fold, value) == Map(loc.fold, "none") || Map(loc.fold, value) == Map(loc.fold, "unassigned")
  }

  predicate SameText(loc: Locale, a: string, b: string) { Map(loc.fold, BTrim(a)) == Map(loc.fold, BTrim(b)) }

  lemma WordsMean(loc: Locale, a: string, b: string)
    ensures IsNone(loc, a) <==> AsksNothing(loc, a)
    ensures SameLabel(loc, a, b) <==> SameText(loc, a, b)
  {
  }

  /** An id facet: "none" and "unassigned" ask for the missing id. */
  predicate IdIs(loc: Locale, asked: string, id: Option<Id>) {
    var value := TrimSpace(asked);
    value == "" || if AsksNothing(loc, value) then id.None? else id == Some(value)
  }

  /** A text facet compares labels without case and outer spaces. */
  predicate LabelIs(loc: Locale, asked: string, text: Option<string>) {
    var value := TrimSpace(asked);
    value == "" || if AsksNothing(loc, value) then text.None? || BTrim(text.value) == "" else text.Some? && SameText(loc, text.value, value)
  }

  /** A place facet, whose blank labels ask for a missing, blank or placeholder place. */
  predicate PlaceIs(loc: Locale, asked: string, place: Option<string>) {
    var value := TrimSpace(asked);
    value == ""
    || if Fold(loc, value) in ["unknown", "none", "unassigned", "blank"]
       then place.None? || BTrim(place.value) == "" || Fold(loc, BTrim(place.value)) in ["unknown", "none", "unassigned", "blank"]
       else place.Some? && SameText(loc, place.value, value)
  }

  predicate ManagedAs(db: Db, asked: string, creator: Option<Id>) {
    var manager := TrimSpace(asked);
    manager == "" || (creator.Some? && creator.value in db.users && db.users[creator.value].managerId == Some(manager))
  }

  predicate TeamCreated(loc: Locale, db: Db, askedLead: string, askedTeam: string, creator: Option<Id>) {
    var atl, team := TrimSpace(askedLead), TrimSpace(askedTeam);
    atl == "" || (creator.Some? && creator.value in db.users && OnAnalystTeam(loc, db.users[creator.value], atl, team))
  }

  /** A code facet: the stored code is the asked one in capitals. */
  predicate CodeIs(loc: Locale, asked: string, code: string) {
    TrimSpace(asked) == "" || code == Map(loc.upper, TrimSpace(asked))
  }

  /** The displayed day of an instant lies between the asked days, in either order. */
  predicate DayBetween(from: Option<int>, to: Option<int>, t: Time) {
    match (from, to)
    case (None, None) => true
    case (Some(f), None) => f <= DayOf(t)
    case (None, Some(u)) => DayOf(t) <= u
    case (Some(f), Some(u)) => f <= DayOf(t) <= u || u <= DayOf(t) <= f
  }

  predicate ReasonAsked(loc: Locale, asked: string, l: Lead) {
    var value, reason := TrimSpace(asked), loc.reason(l.notes);
    value == ""
    || if EqualFold(loc, value, "No reason recorded") || AsksNothing(loc, value)
       then reason.None? || reason.value == "No reason recorded"
       else reason == Some(value) || (reason.None? && value == "No reason recorded")
  }

  lemma GivenMeaning(loc: Locale, db: Db, l: Lead, value: string, t: Test)
    ensures Matches(loc, db, l, Given(value, t)) <==> TrimSpace(value) == "" || Matches(loc, db, l, t)
  {
  }

  lemma IdMeaning(loc: Locale, db: Db, l: Lead, asked: string)
    ensures Matches(loc, db, l, Given(asked, IdFacet(TeamId, TrimSpace(asked)))) <==> IdIs(loc, asked, l.teamId)
    ensures Matches(loc, db, l, Given(asked, IdFacet(CreatedById, TrimSpace(asked)))) <==> IdIs(loc, asked, l.createdById)
    ensures Matches(loc, db, l, Given(asked, IdFacet(SalesExecId, TrimSpace(asked)))) <==> IdIs(loc, asked, l.assignedSalesExecId)
  {
    WordsMean(loc, TrimSpace(asked), "");
    hide TrimSpace, IsNone, AsksNothing;
  }

  lemma PlaceMeaning(loc: Locale, db: Db, l: Lead, asked: string)
    ensures Matches(loc, db, l, Given(asked, GeoFacet(Country, TrimSpace(asked)))) <==> PlaceIs(loc, asked, l.country)
    ensures Matches(loc, db, l, Given(asked, GeoFacet(City, TrimSpace(asked)))) <==> PlaceIs(loc, asked, l.city)
  {
    TrimSpaceStable(asked);
    forall a { WordsMean(loc, a, TrimSpace(asked)); }
    hide TrimSpace, BTrim, Fold, SameLabel, SameText;
  }

  lemma LabelMeaning(loc: Locale, db: Db, l: Lead, asked: string)
    ensures Matches(loc, db, l, Given(asked, TextFacet(Source, TrimSpace(asked)))) <==> LabelIs(loc, asked, Some(l.source))
    ensures Matches(loc, db, l, Given(asked, TextFacet(Portal, TrimSpace(asked)))) <==> LabelIs(loc, asked, l.portalWebsite)
    ensures Matches(loc, db, l, Given(asked, TextFacet(MetaProfile, TrimSpace(asked)))) <==> LabelIs(loc, asked, l.metaProfile)
  {
    forall a { WordsMean(loc, a, TrimSpace(asked)); }
    WordsMean(loc, TrimSpace(asked), "");
    hide TrimSpace, BTrim, SameLabel, SameText, IsNone, AsksNothing;
  }

  lemma PeopleMeaning(loc: Locale, db: Db, l: Lead, p: LeadListParams)
    ensures Matches(loc, db, l, Given(p.managerId, ManagedBy(TrimSpace(p.managerId)))) <==> ManagedAs(db, p.managerId, l.createdById)
    ensures Matches(loc, db, l, Given(p.analystTeamLeadId, CreatedByTeamOf(TrimSpace(p.analystTeamLeadId), TrimSpace(p.analystTeamName))))
       <==> TeamCreated(loc, db, p.analystTeamLeadId, p.analystTeamName, l.createdById)
  {
    hide TrimSpace, OnAnalystTeam;
  }

  lemma CodeMeaning(loc: Locale, db: Db, l: Lead, asked: string)
    ensures Matches(loc, db, l, Given(asked, StatusIn([Map(loc.upper, TrimSpace(asked))]))) <==> CodeIs(loc, asked, l.qualificationStatus)
    ensures Matches(loc, db, l, Given(asked, StageIn([Map(loc.upper, TrimSpace(asked))]))) <==> CodeIs(loc, asked, l.salesStage)
    ensures Matches(loc, db, l, Given(asked, ReasonIs(TrimSpace(asked)))) <==> ReasonAsked(loc, asked, l)
  {
    WordsMean(loc, TrimSpace(asked), "");
    hide TrimSpace, Map, EqualFold, IsNone, AsksNothing;
  }

  lemma DayMeaning(loc: Locale, db: Db, l: Lead, from: Option<int>, to: Option<int>)
    ensures Matches(loc, db, l, AddedTest(from, to)) <==> DayBetween(from, to, l.createdAt)
  {
    hide DayOf;
  }

  /** The places, the scope, the channel and the progress of a lead are what was asked. */
  predicate InFacets(loc: Locale, db: Db, l: Lead, p: LeadListParams) {
    && PlaceIs(loc, p.country, l.country) && PlaceIs(loc, p.city, l.city)
    && IdIs(loc, p.teamId, l.teamId) && IdIs(loc, p.analystId, l.createdById) && IdIs(loc, p.salesExecId, l.assignedSalesExecId)
    && ManagedAs(db, p.managerId, l.createdById)
    && TeamCreated(loc, db, p.analystTeamLeadId, p.analystTeamName, l.createdById)
    && LabelIs(loc, p.source, Some(l.source)) && LabelIs(loc, p.portal, l.portalWebsite) && LabelIs(loc, p.metaProfile, l.metaProfile)
    && (TrimSpace(p.portal) == "" ==> InServiceLine(loc, p.serviceLine, l.portalWebsite))
    && CodeIs(loc, p.status, l.qualificationStatus) && CodeIs(loc, p.stage, l.salesStage)
    && DayBetween(p.addedFrom, p.addedTo, l.createdAt) && ReasonAsked(loc, p.reason, l)
  }

  /** A service line is recognised by its name in the portal; CCL also by NAATI. */
  predicate InServiceLine(loc: Locale, asked: string, portal: Option<string>) {
    var line := Map(loc.upper, TrimSpace(asked));
    line in ["CDR", "CCL", "PTE", "ACS"] ==>
      && portal.Some?
      && (HasText(loc, portal.value, line) || (line == "CCL" && HasText(loc, portal.value, "NAATI")))
  }

  lemma LineMeaning(loc: Locale, db: Db, l: Lead, line: string)
    ensures Matches(loc, db, l, ServiceLineTest(loc, line)) <==> InServiceLine(loc, line, l.portalWebsite)
  {
    hide TrimSpace, Map, HasText;
    var name := Map(loc.upper, TrimSpace(line));
    if name == "CCL" && l.portalWebsite.Some? {
      assert "CCL" in ["CCL", "NAATI"] && "NAATI" in ["CCL", "NAATI"];
    } else if name in ["CDR", "PTE", "ACS"] && l.portalWebsite.Some? {
      assert name in [name];
    }
  }

  lemma ScopeMeaning(loc: Locale, db: Db, l: Lead, p: LeadListParams)
    ensures Matches(loc, db, l, Conj(GeoTest(p), ScopeTest(p)))
       <==> && PlaceIs(loc, p.country, l.country) && PlaceIs(loc, p.city, l.city)
            && IdIs(loc, p.teamId, l.teamId) && IdIs(loc, p.analystId, l.createdById)
            && IdIs(loc, p.salesExecId, l.assignedSalesExecId)
            && ManagedAs(db, p.managerId, l.createdById)
            && TeamCreated(loc, db, p.analystTeamLeadId, p.analystTeamName, l.createdById)
  {
    hide Given, Matches, TrimSpace, PlaceIs, IdIs, ManagedAs, TeamCreated;
    PlaceMeaning(loc, db, l, p.country);
    PlaceMeaning(loc, db, l, p.city);
    IdMeaning(loc, db, l, p.teamId);
    IdMeaning(loc, db, l, p.analystId);
    IdMeaning(loc, db, l, p.salesExecId);
    PeopleMeaning(loc, db, l, p);
    var scope := ScopeTest(p);
    TwoTests(loc, db, l, GeoTest(p).first, GeoTest(p).second);
    TwoTests(loc, db, l, scope.first.first.first.first, scope.first.first.first.second);
    TwoTests(loc, db, l, scope.first.first.first, scope.first.first.second);
    TwoTests(loc, db, l, scope.first.first, scope.first.second);
    TwoTests(loc, db, l, scope.first, scope.second);
    TwoTests(loc, db, l, GeoTest(p), scope);
  }

  lemma ChannelMeaning(loc: Locale, db: Db, l: Lead, p: LeadListParams)
    ensures Matches(loc, db, l, ChannelTest(loc, p))
       <==> && LabelIs(loc, p.source, Some(l.source)) && LabelIs(loc, p.portal, l.portalWebsite)
            && LabelIs(loc, p.metaProfile, l.metaProfile)
            && (TrimSpace(p.portal) == "" ==> InServiceLine(loc, p.serviceLine, l.portalWebsite))
  {
    ColumnMeaning(loc, db, l, []);
    hide Given, Matches, TrimSpace, LabelIs, InServiceLine, ServiceLineTest;
    LabelMeaning(loc, db, l, p.source);
    LabelMeaning(loc, db, l, p.portal);
    LabelMeaning(loc, db, l, p.metaProfile);
    LineMeaning(loc, db, l, p.serviceLine);
    var channel := ChannelTest(loc, p);
    TwoTests(loc, db, l, channel.first.first.first, channel.first.first.second);
    TwoTests(loc, db, l, channel.first.first, channel.first.second);
    TwoTests(loc, db, l, channel.first, channel.second);
  }

  lemma ProgressMeaning(loc: Locale, db: Db, l: Lead, p: LeadListParams)
    ensures Matches(loc, db, l, ProgressTest(loc, p))
       <==> && CodeIs(loc, p.status, l.qualificationStatus) && CodeIs(loc, p.stage, l.salesStage)
            && DayBetween(p.addedFrom, p.addedTo, l.createdAt) && ReasonAsked(loc, p.reason, l)
  {
    hide Given, Matches, TrimSpace, Map, CodeIs, DayBetween, ReasonAsked, AddedTest;
    CodeMeaning(loc, db, l, p.status);
    CodeMeaning(loc, db, l, p.stage);
    CodeMeaning(loc, db, l, p.reason);
    DayMeaning(loc, db, l, p.addedFrom, p.addedTo);
    var progress := ProgressTest(loc, p);
    TwoTests(loc, db, l, progress.first.first.first, progress.first.first.second);
    TwoTests(loc, db, l, progress.first.first, progress.first.second);
    TwoTests(loc, db, l, progress.first, progress.second);
  }

  /** Main result: the facets select exactly the leads whose columns are what was asked. */
  lemma FacetsMeaning(loc: Locale, db: Db, l: Lead, p: LeadListParams)
    ensures Matches(loc, db, l, FacetsTest(loc, p)) <==> InFacets(loc, db, l, p)
  {
    ScopeMeaning(loc, db, l, p);
    ChannelMeaning(loc, db, l, p);
    ProgressMeaning(loc, db, l, p);
    hide Matches, GeoTest, ScopeTest, ChannelTest, ProgressTest, TrimSpace, PlaceIs, IdIs, ManagedAs, TeamCreated, LabelIs,
         InServiceLine, CodeIs, DayBetween, ReasonAsked;
    TwoTests(loc, db, l, Conj(GeoTest(p), ScopeTest(p)), ChannelTest(loc, p));
    TwoTests(loc, db, l, Conj(Conj(GeoTest(p), ScopeTest(p)), ChannelTest(loc, p)), ProgressTest(loc, p));
  }

  // ---------------------------------------------------------------- the search document

  /** The all-fields search looks at the contact columns, the notes, and the codes, these also
      with spaces for underscores. */
  lemma DocumentColumns(loc: Locale, l: Lead, text: string)
    requires text in [l.leadName, Opt(l.leadEmail), Opt(l.phone), l.source, Opt(l.portalWebsite), Opt(l.metaProfile),
                      Opt(l.clientProfile), Opt(l.city), Opt(l.country), Opt(l.notes), Opt(l.lostNotes),
                      l.qualificationStatus, Spaces(l.qualificationStatus), l.salesStage, Spaces(l.salesStage), l.dealCurrency]
    ensures exists i :: 0 <= i < |DocumentParts(l)| && DocumentParts(l)[i] == text
  {
    hide Spaces;
    var parts := DocumentParts(l);
    assert parts[0] == l.leadName && parts[1] == Opt(l.leadEmail) && parts[2] == Opt(l.phone) && parts[4] == l.source;
    assert parts[5] == Opt(l.portalWebsite) && parts[6] == Opt(l.metaProfile) && parts[7] == Opt(l.clientProfile);
    assert parts[8] == Opt(l.city) && parts[9] == Opt(l.country) && parts[10] == Opt(l.notes) && parts[11] == Opt(l.lostNotes);
    assert parts[12] == l.qualificationStatus && parts[13] == Spaces(l.qualificationStatus);
    assert parts[14] == l.salesStage && parts[15] == Spaces(l.salesStage) && parts[16] == l.dealCurrency;
  }

  /** So the all-fields search finds a lead by any part of any of these texts. */
  lemma FoundByColumn(loc: Locale, db: Db, l: Lead, text: string, q: string)
    requires text in [l.leadName, Opt(l.leadEmail), Opt(l.phone), l.source, Opt(l.portalWebsite), Opt(l.metaProfile),
                      Opt(l.clientProfile), Opt(l.city), Opt(l.country), Opt(l.notes), Opt(l.lostNotes),
                      l.qualificationStatus, Spaces(l.qualificationStatus), l.salesStage, Spaces(l.salesStage), l.dealCurrency]
    requires HasText(loc, text, q)
    ensures FieldMentions(loc, db, l, AllFields, q)
  {
    DocumentColumns(loc, l, text);
    var i :| 0 <= i < |DocumentParts(l)| && DocumentParts(l)[i] == text;
    DocumentCoversParts(loc, db, l, i, q);
    hide DocumentParts, HasText, SearchDocument;
  }

  // ---------------------------------------------------------------- the whole list

  /** The text has the words in it, ignoring case. */
  predicate Has(loc: Locale, text: Option<string>, q: string) {
    Contains(Map(loc.fold, if text.Some? then text.value else ""), Map(loc.fold, q))
  }

  function UserName(db: Db, id: Option<Id>): Option<string> {
    if id.Some? && id.value in db.users then Some(db.users[id.value].name) else None
  }

  predicate NamesUser(loc: Locale, db: Db, id: Option<Id>, q: string) { UserName(db, id).Some? && Has(loc, UserName(db, id), q) }

  /** A date in any of its three spellings. */
  predicate DateHas(loc: Locale, t: Time, q: string) {
    || Has(loc, Some(loc.dateText(t, UsDate)), q) || Has(loc, Some(loc.dateText(t, IsoDate)), q)
    || Has(loc, Some(loc.dateText(t, LongDate)), q)
  }

  /** A phone number as it is written or, from two digits on, by its digits alone. */
  predicate PhoneHas(loc: Locale, phone: Option<string>, q: string) {
    || Has(loc, phone, q)
    || (|DigitsOnly(q)| >= 2 && Contains(StripSeparators(if phone.Some? then phone.value else ""), DigitsOnly(q)))
  }

  /** A code as it is stored or with spaces for its underscores. */
  predicate CodeHas(loc: Locale, code: string, q: string) { Has(loc, Some(code), q) || Has(loc, Some(Spaces(Fold(loc, code))), q) }

  predicate HandoffHas(loc: Locale, db: Db, lead: Id, q: string) {
    exists h :: h in db.handoffs && h.leadId == lead && h.action != "LEAD_CREATED" && (CodeHas(loc, h.action, q) || Has(loc, h.detail, q))
  }

  /** What a search in each field finds, on the columns. */
  predicate Finds(loc: Locale, db: Db, l: Lead, field: Field, q: string) {
    match field
    case AllFields =>
      || Contains(SearchDocument(loc, l), Map(loc.fold, q))
      || (|DigitsOnly(q)| >= 4 && Contains(SearchDocument(loc, l), DigitsOnly(q)))
    case SourceField => Has(loc, Some(l.source), q)
    case PortalField => Has(loc, l.portalWebsite, q)
    case LeadField => Has(loc, Some(l.leadName), q)
    case AnalystField =>
      && l.createdById.Some? && l.createdById.value in db.users
      && var u := db.users[l.createdById.value];
         Has(loc, Some(u.name), q) || Has(loc, Some(u.email), q)
    case TagField =>
      || (Has(loc, Some(q), "new") && l.teamId.None? && l.assignedMainTeamLeadId.None? && l.assignedSalesExecId.None?)
      || ((Has(loc, Some(q), "appropriate") || Has(loc, Some(q), "approved")) && l.notAppropriate)
      || (Has(loc, Some(q), "irrelevant") && l.qualificationStatus == "IRRELEVANT")
    case PhoneField => PhoneHas(loc, l.phone, q)
    case EmailField => Has(loc, l.leadEmail, q)
    case ClientProfileField => Has(loc, l.clientProfile, q)
    case LocationField => Has(loc, l.city, q) || Has(loc, l.country, q) || Has(loc, Some(Opt(l.city) + ", " + Opt(l.country)), q)
    case AnalystNotesField => Has(loc, l.notes, q)
    case StatusField => CodeHas(loc, l.qualificationStatus, q)
    case ScoreField => Has(loc, if l.leadScore.Some? then Some(loc.intText(l.leadScore.value)) else None, q)
    case StageField => CodeHas(loc, l.salesStage, q)
    case ClosedField =>
      var closed := l.salesStage == "CLOSED_WON" || l.salesStage == "CLOSED_LOST";
      if Has(loc, Some(q), "lost") then l.salesStage == "CLOSED_LOST"
      else if Has(loc, Some(q), "open") then l.closedAt.None? && !closed
      else Has(loc, Some(q), "clos") && (l.closedAt.Some? || closed)
    case ClosedDateField => l.closedAt.Some? && DateHas(loc, l.closedAt.value, q)
    case IpField => false
    case DuplicateCheckField => false
    case ExecutiveNotesField => Has(loc, l.lostNotes, q)
    case AddedField => DateHas(loc, l.createdAt, q)
    case TeamField =>
      || (l.teamId.Some? && l.teamId.value in db.teams && Has(loc, Some(db.teams[l.teamId.value].name), q))
      || NamesUser(loc, db, l.assignedMainTeamLeadId, q)
    case HandoffField => HandoffHas(loc, db, l.id, q)
    case ContactField => PhoneHas(loc, l.phone, q) || Has(loc, l.city, q) || Has(loc, l.country, q)
    case DealValueField =>
      || Has(loc, if l.estimatedDealValue.Some? then Some(loc.realText(l.estimatedDealValue.value)) else None, q)
      || Has(loc, Some(l.dealCurrency), q)
    case SalesExecutiveField => NamesUser(loc, db, l.assignedSalesExecId, q)
  }

  /** The words the tag and the closed search look for are in lower case. */
  ghost predicate WordsFolded(loc: Locale) {
    forall w :: w in ["new", "appropriate", "approved", "irrelevant", "lost", "open", "clos"] ==> Fold(loc, w) == w
  }

  lemma HasMeans(loc: Locale, text: Option<string>, q: string)
    ensures Has(loc, text, q) <==> HasText(loc, Opt(text), q)
  {
  }

  lemma PeopleFound(loc: Locale, db: Db, l: Lead, q: string)
    ensures forall id :: NameMentions(loc, db, id, q) <==> NamesUser(loc, db, id, q)
    ensures FieldMentions(loc, db, l, AnalystField, q) <==> Finds(loc, db, l, AnalystField, q)
    ensures FieldMentions(loc, db, l, TeamField, q) <==> Finds(loc, db, l, TeamField, q)
    ensures FieldMentions(loc, db, l, SalesExecutiveField, q) <==> Finds(loc, db, l, SalesExecutiveField, q)
  {
    forall text { HasMeans(loc, text, q); }
    hide Has, HasText;
  }

  lemma TextsFound(loc: Locale, db: Db, l: Lead, q: string)
    ensures forall t :: DateMentions(loc, t, q) <==> DateHas(loc, t, q)
    ensures PhoneMentions(loc, l, q) <==> PhoneHas(loc, l.phone, q)
    ensures forall h :: HandoffMentions(loc, h, q) <==> h.action != "LEAD_CREATED" && (CodeHas(loc, h.action, q) || Has(loc, h.detail, q))
    ensures FieldMentions(loc, db, l, StatusField, q) <==> Finds(loc, db, l, StatusField, q)
    ensures FieldMentions(loc, db, l, StageField, q) <==> Finds(loc, db, l, StageField, q)
  {
    forall text { HasMeans(loc, text, q); }
    hide Has, HasText, Contains, Spaces, Fold, DigitsOnly, StripSeparators;
  }

  lemma PlainFound(loc: Locale, db: Db, l: Lead, field: Field, q: string)
    requires field in [SourceField, PortalField, LeadField, EmailField, ClientProfileField, LocationField, AnalystNotesField,
                       ScoreField, ExecutiveNotesField, DealValueField, IpField, DuplicateCheckField]
    ensures FieldMentions(loc, db, l, field, q) <==> Finds(loc, db, l, field, q)
  {
    forall text { HasMeans(loc, text, q); }
    hide Has, HasText, Contains, Spaces, Fold, DigitsOnly, SearchDocument, DateMentions, PhoneMentions, HandoffMentions, NameMentions;
  }

  lemma RowsFound(loc: Locale, db: Db, l: Lead, field: Field, q: string)
    requires field in [PhoneField, ContactField, ClosedDateField, AddedField, HandoffField, AllFields]
    ensures FieldMentions(loc, db, l, field, q) <==> Finds(loc, db, l, field, q)
  {
    TextsFound(loc, db, l, q);
    forall text { HasMeans(loc, text, q); }
    hide Has, HasText, Contains, Spaces, DigitsOnly, SearchDocument, DateMentions, DateHas, PhoneMentions, PhoneHas, HandoffMentions,
         CodeHas, NameMentions;
  }

  lemma {:induction false} WordFound(loc: Locale, q: string, w: string)
    requires Fold(loc, w) == w
    ensures Has(loc, Some(q), w) <==> Contains(Fold(loc, q), w)
  {
  }

  lemma WordsFound(loc: Locale, db: Db, l: Lead, q: string)
    requires WordsFolded(loc)
    ensures FieldMentions(loc, db, l, TagField, q) <==> Finds(loc, db, l, TagField, q)
    ensures FieldMentions(loc, db, l, ClosedField, q) <==> Finds(loc, db, l, ClosedField, q)
  {
    hide Has, Contains, Fold;
    var words := ["new", "appropriate", "approved", "irrelevant", "lost", "open", "clos"];
    assert words[0] == "new" && words[1] == "appropriate" && words[2] == "approved" && words[3] == "irrelevant";
    assert words[4] == "lost" && words[5] == "open" && words[6] == "clos";
    forall w | w in words { WordFound(loc, q, w); }
  }

  /** Main result: a search in each field finds the leads whose columns mention the query. */
  lemma SearchFinds(loc: Locale, db: Db, l: Lead, field: Field, q: string)
    requires WordsFolded(loc)
    ensures FieldMentions(loc, db, l, field, q) <==> Finds(loc, db, l, field, q)
  {
    hide FieldMentions, Finds, WordsFolded;
    match field
    case StatusField => TextsFound(loc, db, l, q);
    case StageField => TextsFound(loc, db, l, q);
    case TagField => WordsFound(loc, db, l, q);
    case ClosedField => WordsFound(loc, db, l, q);
    case AnalystField => PeopleFound(loc, db, l, q);
    case TeamField => PeopleFound(loc, db, l, q);
    case SalesExecutiveField => PeopleFound(loc, db, l, q);
    case _ =>
      if field in [PhoneField, ContactField, ClosedDateField, AddedField, HandoffField, AllFields] {
        RowsFound(loc, db, l, field, q);
      } else {
        PlainFound(loc, db, l, field, q);
      }
  }

  /** Main result: a list shows exactly the leads of its preset, or of its exact status in the
      preset's place, whose columns are what the facets ask, and in which the searched field
      mentions the query. */
  lemma ListMeaning(loc: Locale, db: Db, l: Lead, p: LeadListParams)
    requires WordsFolded(loc)
    ensures Matches(loc, db, l, ListTest(loc, p))
       <==> && (TrimSpace(p.status) == "" ==> InPreset(db, l, p.filter))
            && InFacets(loc, db, l, p)
            && (|TrimSpace(p.query)| < 2 || Finds(loc, db, l, p.field, TrimSpace(p.query)))
  {
    ListParts(loc, db, l, p);
    FacetsMeaning(loc, db, l, p);
    PresetMeaning(loc, db, l, p.filter);
    ColumnMeaning(loc, db, l, []);
    SearchMeaning(loc, db, l, p);
    SearchFinds(loc, db, l, p.field, TrimSpace(p.query));
    hide Matches, FacetsTest, PresetTest, SearchTest, TrimSpace, InFacets, InPreset, FieldMentions, Finds;
  }

  lemma SearchMeaning(loc: Locale, db: Db, l: Lead, p: LeadListParams)
    ensures Matches(loc, db, l, SearchTest(loc, p))
       <==> |TrimSpace(p.query)| < 2 || FieldMentions(loc, db, l, p.field, TrimSpace(p.query))
  {
    hide TrimSpace, FieldMentions;
  }
}
