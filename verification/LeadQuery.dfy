/** The list parameters and what they mean: the direct predicate on leads that the
    compiled SQL has to denote. */
module LeadQuery {
  import opened Wrappers
  import opened Model
  import opened Text
  import opened Sql
  import opened Calendar

  datatype Preset =
    | AllLeads | NewLeads | QualifiedLeads | IrrelevantLeads | NotAppropriateLeads | OpenLeads
    | ContactedLeads | ConvertedLeads | LostLeads | NotQualifiedLeads | PassedLeads | PassedSeTl
    | NotPassed | WithTeamLead | WithSalesExec | AssignedLeads | InProgress | Pipeline
    | PipelineAssigned | PipelineInProgress | PipelineWon | PipelineLost

  datatype Field =
    | AllFields | SourceField | PortalField | LeadField | AnalystField | TagField | PhoneField
    | EmailField | ClientProfileField | LocationField | AnalystNotesField | StatusField | ScoreField
    | StageField | ClosedField | ClosedDateField | IpField | DuplicateCheckField | ExecutiveNotesField
    | AddedField | TeamField | HandoffField | ContactField | DealValueField | SalesExecutiveField

  datatype LeadListParams = LeadListParams(
    filter: Preset,
    query: string,
    field: Field,
    country: string,
    city: string,
    teamId: string,
    analystId: string,
    salesExecId: string,
    managerId: string,
    analystTeamLeadId: string,
    analystTeamName: string,
    source: string,
    portal: string,
    metaProfile: string,
    serviceLine: string,
    status: string,
    stage: string,
    addedFrom: Option<int>,   // parsed calendar days
    addedTo: Option<int>,
    reason: string)

  const WITH_LEAD_OR_EXEC := ["WITH_TEAM_LEAD", "WITH_EXECUTIVE"]
  const WORKING := ["NOT_CONNECTED", "IN_NEGOTIATION", "NO_RESPONSE_FROM_CLIENT"]
  const CLOSED := ["CLOSED_WON", "CLOSED_LOST"]
  const CONTACTED := ["WITH_EXECUTIVE", "WITH_TEAM_LEAD", "IN_NEGOTIATION", "NOT_CONNECTED"]
  const PASSED_ACTIONS := ["DIRECT_ASSIGNED_TO_EXECUTIVE_BY_ATL", "ASSIGNED_TO_EXECUTIVE"]

  /** One condition on leads. */
  datatype Test =
    | Always
    | Never
    | ColumnIn(column: LeadColumn, values: seq<string>)
    | StillOpen
    | FlaggedNotAppropriate
    | HandedOff(actions: seq<string>)
    | IdFacet(column: LeadColumn, id: string)
    | TextFacet(column: LeadColumn, text: string)
    | GeoFacet(column: LeadColumn, place: string)
    | ManagedBy(manager: string)
    | CreatedByTeamOf(atl: string, teamName: string)
    | PortalMentions(fragments: seq<string>)
    | ReasonIs(reason: string)
    | AddedOnOrAfter(day: int)
    | AddedOnOrBefore(day: int)
    | Satisfies(p: (Db, Lead) -> bool)
    | Conj(first: Test, second: Test)

  function Fold(loc: Locale, s: string): string { Map(loc.fold, s) }

  predicate EqualFold(loc: Locale, a: string, b: string) { Fold(loc, a) == Fold(loc, b) }

  /** s contains q, ignoring case. */
  predicate HasText(loc: Locale, s: string, q: string) { Contains(Fold(loc, s), Fold(loc, q)) }

  predicate IsNone(loc: Locale, value: string) {
    EqualFold(loc, value, "none") || EqualFold(loc, value, "unassigned")
  }

  predicate SameLabel(loc: Locale, a: string, b: string) {
    Fold(loc, BTrim(a)) == Fold(loc, BTrim(b))
  }

  const BLANK_LABELS := ["unknown", "none", "unassigned", "blank"]

  predicate IsBlankGeoLabel(loc: Locale, value: string) {
    Fold(loc, TrimSpace(value)) in BLANK_LABELS
  }

  function FindUser(db: Db, id: Option<Id>): Option<User> {
    if id.Some? && id.value in db.users then Some(db.users[id.value]) else None
  }

  predicate NameMentions(loc: Locale, db: Db, id: Option<Id>, q: string) {
    var u := FindUser(db, id);
    u.Some? && HasText(loc, u.value.name, q)
  }

  /** The creator is the analyst team lead, or a lead analyst who reports to them or
      carries the same team name. */
  predicate OnAnalystTeam(loc: Locale, u: User, atl: string, teamName: string) {
    || u.id == atl
    || (&& u.role == LEAD_ANALYST
        && (|| u.managerId == Some(atl)
            || (teamName != "" && SameLabel(loc, Opt(u.analystTeamName), teamName))))
  }

  predicate HandoffMentions(loc: Locale, h: Handoff, q: string) {
    h.action != "LEAD_CREATED"
    && (HasText(loc, h.action, q) || HasText(loc, Spaces(Fold(loc, h.action)), q) || HasText(loc, Opt(h.detail), q))
  }

  predicate DateMentions(loc: Locale, t: Time, q: string) {
    || HasText(loc, loc.dateText(t, UsDate), q)
    || HasText(loc, loc.dateText(t, IsoDate), q)
    || HasText(loc, loc.dateText(t, LongDate), q)
  }

  /** A phone query matches the number as written or, from two digits on, its digits. */
  predicate PhoneMentions(loc: Locale, l: Lead, q: string) {
    || HasText(loc, Opt(l.phone), q)
    || (|DigitsOnly(q)| >= 2 && Contains(StripSeparators(Opt(l.phone)), DigitsOnly(q)))
  }

  /** The search box: q occurs in the searched field. */
  predicate FieldMentions(loc: Locale, db: Db, l: Lead, field: Field, q: string) {
    match field
    case AllFields =>
      || Contains(SearchDocument(loc, l), Fold(loc, q))
      || (|DigitsOnly(q)| >= 4 && Contains(SearchDocument(loc, l), DigitsOnly(q)))
    case SourceField => HasText(loc, l.source, q)
    case PortalField => HasText(loc, Opt(l.portalWebsite), q)
    case LeadField => HasText(loc, l.leadName, q)
    case AnalystField =>
      var u := FindUser(db, l.createdById);
      u.Some? && (HasText(loc, u.value.name, q) || HasText(loc, u.value.email, q))
    case TagField =>
      var lower := Fold(loc, q);
      || (Contains(lower, "new") && Unassigned(l))
      || ((Contains(lower, "appropriate") || Contains(lower, "approved")) && l.notAppropriate)
      || (Contains(lower, "irrelevant") && l.qualificationStatus == "IRRELEVANT")
    case PhoneField => PhoneMentions(loc, l, q)
    case EmailField => HasText(loc, Opt(l.leadEmail), q)
    case ClientProfileField => HasText(loc, Opt(l.clientProfile), q)
    case LocationField =>
      || HasText(loc, Opt(l.city), q)
      || HasText(loc, Opt(l.country), q)
      || HasText(loc, Opt(l.city) + ", " + Opt(l.country), q)
    case AnalystNotesField => HasText(loc, Opt(l.notes), q)
    case StatusField =>
      HasText(loc, l.qualificationStatus, q) || HasText(loc, Spaces(Fold(loc, l.qualificationStatus)), q)
    case ScoreField => HasText(loc, Opt(ColumnValue(loc, l, Score)), q)
    case StageField =>
      HasText(loc, l.salesStage, q) || HasText(loc, Spaces(Fold(loc, l.salesStage)), q)
    case ClosedField =>
      var lower := Fold(loc, q);
      if Contains(lower, "lost") then l.salesStage == "CLOSED_LOST"
      else if Contains(lower, "open") then l.closedAt.None? && l.salesStage !in CLOSED
      else Contains(lower, "clos") && (l.closedAt.Some? || l.salesStage in CLOSED)
    case ClosedDateField => l.closedAt.Some? && DateMentions(loc, l.closedAt.value, q)
    case IpField => false
    case DuplicateCheckField => false
    case ExecutiveNotesField => HasText(loc, Opt(l.lostNotes), q)
    case AddedField => DateMentions(loc, l.createdAt, q)
    case TeamField =>
      || (l.teamId.Some? && l.teamId.value in db.teams && HasText(loc, db.teams[l.teamId.value].name, q))
      || NameMentions(loc, db, l.assignedMainTeamLeadId, q)
    case HandoffField => exists h :: h in db.handoffs && h.leadId == l.id && HandoffMentions(loc, h, q)
    case ContactField =>
      PhoneMentions(loc, l, q) || HasText(loc, Opt(l.city), q) || HasText(loc, Opt(l.country), q)
    case DealValueField =>
      HasText(loc, Opt(ColumnValue(loc, l, DealValue)), q) || HasText(loc, l.dealCurrency, q)
    case SalesExecutiveField => NameMentions(loc, db, l.assignedSalesExecId, q)
  }

  predicate Matches(loc: Locale, db: Db, l: Lead, t: Test) {
    match t
    case Always => true
    case Never => false
    case ColumnIn(column, values) =>
      var v := ColumnValue(loc, l, column);
      v.Some? && v.value in values
    case StillOpen => l.closedAt.None? && l.salesStage !in CLOSED
    case FlaggedNotAppropriate => l.notAppropriate
    case HandedOff(actions) => exists h :: h in db.handoffs && h.leadId == l.id && h.action in actions
    case IdFacet(column, id) =>
      if IsNone(loc, id) then ColumnValue(loc, l, column).None? else ColumnValue(loc, l, column) == Some(id)
    case TextFacet(column, text) =>
      var v := ColumnValue(loc, l, column);
      if IsNone(loc, text) then v.None? || BTrim(v.value) == "" else v.Some? && SameLabel(loc, v.value, text)
    case GeoFacet(column, place) =>
      var v := ColumnValue(loc, l, column);
      if IsBlankGeoLabel(loc, place)
      then v.None? || BTrim(v.value) == "" || Fold(loc, BTrim(v.value)) in BLANK_LABELS
      else v.Some? && SameLabel(loc, v.value, place)
    case ManagedBy(manager) =>
      var u := FindUser(db, l.createdById);
      u.Some? && u.value.managerId == Some(manager)
    case CreatedByTeamOf(atl, teamName) =>
      var u := FindUser(db, l.createdById);
      u.Some? && OnAnalystTeam(loc, u.value, atl, teamName)
    case PortalMentions(fragments) =>
      l.portalWebsite.Some? && exists f :: f in fragments && HasText(loc, l.portalWebsite.value, f)
    case ReasonIs(reason) =>
      if EqualFold(loc, reason, "No reason recorded") || IsNone(loc, reason)
      then ReasonText(loc, l) == "No reason recorded"
      else ReasonText(loc, l) == reason
    case AddedOnOrAfter(day) => day <= DayOf(l.createdAt)
    case AddedOnOrBefore(day) => DayOf(l.createdAt) <= day
    case Satisfies(p) => p(db, l)
    case Conj(a, b) => Matches(loc, db, l, a) && Matches(loc, db, l, b)
  }

  function Mentions(loc: Locale, field: Field, q: string): Test {
    Satisfies((db, l) => FieldMentions(loc, db, l, field, q))
  }

  // ---------------------------------------------------------------- what the parameters ask for

  function StatusIn(values: seq<string>): Test { ColumnIn(Status, values) }

  function StageIn(values: seq<string>): Test { ColumnIn(Stage, values) }

  function PresetTest(p: Preset): Test {
    match p
    case AllLeads => Always
    case NewLeads => StatusIn(["NOT_QUALIFIED"])
    case NotQualifiedLeads => StatusIn(["NOT_QUALIFIED"])
    case QualifiedLeads => StatusIn(ASSIGNABLE)
    case Pipeline => StatusIn(ASSIGNABLE)
    case IrrelevantLeads => StatusIn(["IRRELEVANT"])
    case NotAppropriateLeads => FlaggedNotAppropriate
    case OpenLeads => StillOpen
    case ContactedLeads => StageIn(CONTACTED)
    case ConvertedLeads => StageIn(["CLOSED_WON"])
    case LostLeads => StageIn(["CLOSED_LOST"])
    case PassedLeads => HandedOff(PASSED_ACTIONS)
    case PassedSeTl => Conj(StatusIn(ASSIGNABLE), StageIn(WITH_LEAD_OR_EXEC))
    case PipelineAssigned => Conj(StatusIn(ASSIGNABLE), StageIn(WITH_LEAD_OR_EXEC))
    case NotPassed => StageIn(["PRE_SALES"])
    case WithTeamLead => StageIn(["WITH_TEAM_LEAD"])
    case WithSalesExec => StageIn(["WITH_EXECUTIVE"])
    case AssignedLeads => StageIn(WITH_LEAD_OR_EXEC)
    case InProgress => StageIn(WORKING)
    case PipelineInProgress => Conj(StatusIn(ASSIGNABLE), StageIn(WORKING))
    case PipelineWon => Conj(StatusIn(ASSIGNABLE), StageIn(["CLOSED_WON"]))
    case PipelineLost => Conj(StatusIn(ASSIGNABLE), StageIn(["CLOSED_LOST"]))
  }

  /** A facet that is off when its value is blank. */
  function Given(value: string, t: Test): Test {
    if TrimSpace(value) == "" then Always else t
  }

  function ServiceLineTest(loc: Locale, line: string): Test {
    match Map(loc.upper, TrimSpace(line))
    case "CDR" => PortalMentions(["CDR"])
    case "CCL" => PortalMentions(["CCL", "NAATI"])
    case "PTE" => PortalMentions(["PTE"])
    case "ACS" => PortalMentions(["ACS"])
    case _ => Always
  }

  /** The inclusive day range, its ends swapped when they are reversed. */
  function AddedTest(from: Option<int>, to: Option<int>): Test {
    match (from, to)
    case (Some(f), Some(t)) =>
      if f <= t then Conj(AddedOnOrAfter(f), AddedOnOrBefore(t)) else Conj(AddedOnOrAfter(t), AddedOnOrBefore(f))
    case (Some(f), None) => Conj(AddedOnOrAfter(f), Always)
    case (None, Some(t)) => Conj(Always, AddedOnOrBefore(t))
    case (None, None) => Conj(Always, Always)
  }

  function GeoTest(p: LeadListParams): Test {
    Conj(Given(p.country, GeoFacet(Country, TrimSpace(p.country))), Given(p.city, GeoFacet(City, TrimSpace(p.city))))
  }

  function ScopeTest(p: LeadListParams): Test {
    Conj(Conj(Conj(Conj(
      Given(p.teamId, IdFacet(TeamId, TrimSpace(p.teamId))),
      Given(p.analystId, IdFacet(CreatedById, TrimSpace(p.analystId)))),
      Given(p.salesExecId, IdFacet(SalesExecId, TrimSpace(p.salesExecId)))),
      Given(p.managerId, ManagedBy(TrimSpace(p.managerId)))),
      Given(p.analystTeamLeadId, CreatedByTeamOf(TrimSpace(p.analystTeamLeadId), TrimSpace(p.analystTeamName))))
  }

  function ChannelTest(loc: Locale, p: LeadListParams): Test {
    Conj(Conj(Conj(
      Given(p.source, TextFacet(Source, TrimSpace(p.source))),
      Given(p.portal, TextFacet(Portal, TrimSpace(p.portal)))),
      Given(p.metaProfile, TextFacet(MetaProfile, TrimSpace(p.metaProfile)))),
      if TrimSpace(p.portal) == "" then ServiceLineTest(loc, p.serviceLine) else Always)
  }

  function ProgressTest(loc: Locale, p: LeadListParams): Test {
    Conj(Conj(Conj(
      Given(p.status, StatusIn([Map(loc.upper, TrimSpace(p.status))])),
      Given(p.stage, StageIn([Map(loc.upper, TrimSpace(p.stage))]))),
      AddedTest(p.addedFrom, p.addedTo)),
      Given(p.reason, ReasonIs(TrimSpace(p.reason))))
  }

  function FacetsTest(loc: Locale, p: LeadListParams): Test {
    Conj(Conj(Conj(GeoTest(p), ScopeTest(p)), ChannelTest(loc, p)), ProgressTest(loc, p))
  }

  /** Queries shorter than two characters do not search. */
  function SearchTest(loc: Locale, p: LeadListParams): Test {
    if |TrimSpace(p.query)| < 2 then Always else Mentions(loc, p.field, TrimSpace(p.query))
  }

  /** An exact status replaces the coarse preset. */
  function BaseTest(p: LeadListParams): Test {
    if TrimSpace(p.status) == "" then PresetTest(p.filter) else Always
  }

  function ListTest(loc: Locale, p: LeadListParams): Test {
    Conj(Conj(BaseTest(p), FacetsTest(loc, p)), SearchTest(loc, p))
  }

  /** leadScopeWhere(params, true): the same without the search box. */
  function ScopeOnlyTest(loc: Locale, p: LeadListParams): Test {
    Conj(BaseTest(p), FacetsTest(loc, p))
  }

  lemma TwoTests(loc: Locale, db: Db, l: Lead, t: Test, u: Test)
    ensures Matches(loc, db, l, Conj(t, u)) <==> Matches(loc, db, l, t) && Matches(loc, db, l, u)
  {
  }

  /** A list selects by preset, facets and search together. */
  lemma ListParts(loc: Locale, db: Db, l: Lead, p: LeadListParams)
    ensures Matches(loc, db, l, ListTest(loc, p))
       <==> Matches(loc, db, l, BaseTest(p)) && Matches(loc, db, l, FacetsTest(loc, p)) && Matches(loc, db, l, SearchTest(loc, p))
  {
    hide BaseTest, FacetsTest, SearchTest, Matches;
    TwoTests(loc, db, l, BaseTest(p), FacetsTest(loc, p));
    TwoTests(loc, db, l, ScopeOnlyTest(loc, p), SearchTest(loc, p));
  }

  lemma {:induction false} JoinContains(parts: seq<string>, i: nat)
    requires i < |parts|
    ensures exists left, right :: JoinWords(parts) == left + parts[i] + right
  {
    if |parts| == 1 {
      assert JoinWords(parts) == "" + parts[0] + "";
    } else if i == 0 {
      assert JoinWords(parts) == "" + parts[0] + (" " + JoinWords(parts[1..]));
    } else {
      JoinContains(parts[1..], i - 1);
      var left, right :| JoinWords(parts[1..]) == left + parts[1..][i - 1] + right;
      assert JoinWords(parts) == (parts[0] + " " + left) + parts[i] + right;
    }
  }

  /** The all-fields search finds every lead that has the query inside one of the
      seventeen texts the document is made of. */
  lemma DocumentCoversParts(loc: Locale, db: Db, l: Lead, i: nat, q: string)
    requires i < |DocumentParts(l)| && HasText(loc, DocumentParts(l)[i], q)
    ensures Matches(loc, db, l, Mentions(loc, AllFields, q))
  {
    var parts := DocumentParts(l);
    JoinContains(parts, i);
    var left, right :| JoinWords(parts) == left + parts[i] + right;
    assert SearchDocument(loc, l) == Fold(loc, left) + Fold(loc, parts[i]) + Fold(loc, right);
    ContainsInside(Fold(loc, left), Fold(loc, parts[i]), Fold(loc, right), Fold(loc, q));
  }
}
