/** Every operation of the life cycle on the columns: when it is refused and with which
    complaint, what it stores, and what it leaves as it was. */
module LifecycleFields {
  import opened Wrappers
  import opened Model
  import opened Text
  import opened Sql
  import opened LeadQuery
  import Qualification
  import opened Crm
  import opened Routing
  import opened LifecycleInvariants
  import opened LifecycleEffects

  /** Nothing but one lead and its history differs. */
  ghost predicate OnlyLead(s: State, t: State, id: Id) {
    && t.leads.Keys == s.leads.Keys && id in s.leads
    && (forall k :: k in s.leads && k != id ==> t.leads[k] == s.leads[k] && LogOf(t, k) == LogOf(s, k))
    && t.users == s.users && t.teams == s.teams && t.handoffs == s.handoffs && t.moves == s.moves
  }

  /** The columns an edit takes from its request. */
  predicate SameContact(l: Lead, m: Lead) {
    && m.leadName == l.leadName && m.phone == l.phone && m.leadEmail == l.leadEmail && m.country == l.country
    && m.city == l.city && m.source == l.source && m.portalWebsite == l.portalWebsite && m.metaProfile == l.metaProfile
    && m.clientProfile == l.clientProfile && m.notes == l.notes && m.leadScore == l.leadScore && m.createdAt == l.createdAt
  }

  predicate SameFlag(l: Lead, m: Lead) {
    && m.notAppropriate == l.notAppropriate && m.notAppropriateReason == l.notAppropriateReason
    && m.notAppropriateById == l.notAppropriateById
  }

  predicate SameStatus(l: Lead, m: Lead) {
    m.qualificationStatus == l.qualificationStatus && m.qualificationEnteredAt == l.qualificationEnteredAt
  }

  /** Who holds the lead. */
  predicate SameHolders(l: Lead, m: Lead) {
    && m.createdById == l.createdById && m.teamId == l.teamId && m.assignedMainTeamLeadId == l.assignedMainTeamLeadId
    && m.assignedSalesExecId == l.assignedSalesExecId && m.execAssignedAt == l.execAssignedAt
  }

  /** How the deal stands. */
  predicate SameOutcome(l: Lead, m: Lead) {
    && m.salesStage == l.salesStage && m.closedAt == l.closedAt && m.initialPayment == l.initialPayment
    && m.closedRevenue == l.closedRevenue && m.estimatedDealValue == l.estimatedDealValue && m.dealCurrency == l.dealCurrency
    && m.lostNotes == l.lostNotes
  }

  /** The row a change of status adds to the history; no row when nothing changes. */
  predicate HistoryGrows(log: seq<QualEntry>, next: seq<QualEntry>, from: string, to: string, at: Time, source: string) {
    if TrimSpace(to) == "" || (TrimSpace(from) != "" && TrimSpace(from) == TrimSpace(to)) then next == log
    else next == log + [QualEntry(if TrimSpace(from) == "" then None else Some(TrimSpace(from)), TrimSpace(to), at, source)]
  }

  lemma ReplacedIsOnly(s: State, t: State, id: Id, m: Lead, next: seq<QualEntry>)
    requires id in s.leads && t.leads == s.leads[id := m]
    requires (t.logs == s.logs && next == LogOf(s, id)) || t.logs == s.logs[id := next]
    requires t.users == s.users && t.teams == s.teams && t.handoffs == s.handoffs && t.moves == s.moves
    ensures OnlyLead(s, t, id) && t.leads[id] == m && LogOf(t, id) == next
  {
  }

  lemma LoggedGrows(log: seq<QualEntry>, from: string, to: string, at: Time, source: string)
    ensures HistoryGrows(log, Logged(log, from, to, at, source), from, to, at, source)
  {
  }

  /** Nothing is logged when the trimmed status stays. */
  lemma LoggedSame(log: seq<QualEntry>, from: string, to: string, at: Time, source: string)
    ensures TrimSpace(to) != "" && TrimSpace(from) == TrimSpace(to) ==> Logged(log, from, to, at, source) == log
    ensures TrimSpace(to) == "" ==> Logged(log, from, to, at, source) == log
  {
  }

  // ---------------------------------------------------------------- sales outcome

  predicate OutcomeFault(s: State, id: Id, o: Outcome, e: Error) {
    match e
    case LeadIdRequired => TrimSpace(id) == ""
    case LeadNotFound => id !in s.leads
    case InvalidOutcome =>
      o.stage.Some? && TrimSpace(o.stage.value) !in
        ["IN_NEGOTIATION", "NOT_CONNECTED", "NO_RESPONSE_FROM_CLIENT", "CLOSED_WON", "CLOSED_LOST"]
    case NegativePayment => o.payment.Some? && o.payment.value.Some? && o.payment.value.value < 0.0
    case NegativeRevenue => o.revenue.Some? && o.revenue.value.Some? && o.revenue.value.value < 0.0
    case RevenueRequired =>
      && id in s.leads && o != Outcome(None, None, None, None)
      && (if o.stage.Some? then TrimSpace(o.stage.value) else s.leads[id].salesStage) == "CLOSED_WON"
      && var revenue := if o.revenue.Some? then o.revenue.value else s.leads[id].closedRevenue;
         revenue.None? || revenue.value <= 0.0
    case _ => false
  }

  /** Given fields are stored, absent fields stay; revenue is also the deal value, in AUD. */
  predicate OutcomeStored(l: Lead, m: Lead, o: Outcome, now: Time) {
    && m.id == l.id && SameContact(l, m) && SameFlag(l, m) && SameStatus(l, m) && SameHolders(l, m) && m.updatedAt == now
    && m.salesStage == (if o.stage.Some? then TrimSpace(o.stage.value) else l.salesStage)
    && m.initialPayment == (if o.payment.Some? then o.payment.value else l.initialPayment)
    && (o.revenue.Some? ==> m.closedRevenue == m.estimatedDealValue == o.revenue.value && m.dealCurrency == "AUD")
    && (o.revenue.None? ==>
          m.closedRevenue == l.closedRevenue && m.estimatedDealValue == l.estimatedDealValue && m.dealCurrency == l.dealCurrency)
    && m.lostNotes == (if o.notes.Some? then o.notes.value else l.lostNotes)
    && (o.stage.None? ==> m.closedAt == l.closedAt)
    && (o.stage.Some? && TrimSpace(o.stage.value) !in ["CLOSED_WON", "CLOSED_LOST"] ==> m.closedAt == None)
    && (o.stage.Some? && TrimSpace(o.stage.value) in ["CLOSED_WON", "CLOSED_LOST"] ==>
          m.closedAt == if l.closedAt.Some? then l.closedAt else Some(now))
  }

  lemma OutcomeColumns(l: Lead, o: Outcome, now: Time)
    ensures OutcomeStored(l, WithOutcome(l, o, now), o, now)
  {
    hide TrimSpace;
  }

  /** Main result: an outcome is stored when nothing is wrong with it and refused with a true
      complaint otherwise; an empty one changes nothing. */
  lemma OutcomeOnFields(s: State, id: Id, o: Outcome, now: Time)
    ensures match UpdateOutcome(s, id, o, now)
      case Err(e) => OutcomeFault(s, id, o, e)
      case Ok(t) =>
        && (forall e :: !OutcomeFault(s, id, o, e))
        && (if o == Outcome(None, None, None, None) then t == s
            else OnlyLead(s, t, id) && t.logs == s.logs && OutcomeStored(s.leads[id], t.leads[id], o, now))
  {
    hide TrimSpace, WithOutcome, OutcomeStored;
    if id in s.leads { OutcomeColumns(s.leads[id], o, now); }
  }

  // ---------------------------------------------------------------- not appropriate

  predicate MarkFault(s: State, id: string, reason: string, actor: string, e: Error) {
    var key, why, who := TrimSpace(id), TrimSpace(reason), TrimSpace(actor);
    match e
    case LeadIdRequired => key == ""
    case ReasonRequired => why == ""
    case ReasonTooShort => |why| < 10
    case ReasonTooLong => |why| > 2000
    case LeadNotFound => key !in s.leads
    case AlreadyMarked =>
      && key in s.leads && s.leads[key].notAppropriate
      && (s.leads[key].notAppropriateReason.None? || TrimSpace(s.leads[key].notAppropriateReason.value) != why)
    case ForeignKey => key in s.leads && !s.leads[key].notAppropriate && who != "" && who !in s.users
    case _ => false
  }

  /** A marked lead carries the flag, the reason and who set it, and is irrelevant. */
  predicate MarkStored(l: Lead, m: Lead, reason: string, actor: string, now: Time) {
    && m.id == l.id && SameContact(l, m) && SameHolders(l, m) && SameOutcome(l, m) && m.updatedAt == now
    && m.notAppropriate && m.notAppropriateReason == Some(reason) && m.qualificationStatus == "IRRELEVANT"
    && m.notAppropriateById == (if actor == "" then None else Some(actor))
    && m.qualificationEnteredAt == (if l.qualificationStatus == "IRRELEVANT" then l.qualificationEnteredAt else Some(now))
  }

  lemma MarkColumns(l: Lead, reason: string, actor: string, now: Time)
    ensures MarkStored(l, Flagged(l, reason, actor, now), reason, actor, now)
  {
  }

  lemma MarkRefusals(s: State, id: string, reason: string, actor: string, now: Time)
    ensures match MarkNotAppropriate(s, id, reason, actor, now)
      case Err(e) => MarkFault(s, id, reason, actor, e)
      case Ok(_) => (forall e :: !MarkFault(s, id, reason, actor, e)) && TrimSpace(id) in s.leads
  {
    hide TrimSpace, Flagged, Logged;
  }

  lemma MarkStores(s: State, id: string, reason: string, actor: string, now: Time)
    requires MarkNotAppropriate(s, id, reason, actor, now).Ok?
    ensures var t, key := MarkNotAppropriate(s, id, reason, actor, now).value, TrimSpace(id);
      && key in s.leads
      && (if s.leads[key].notAppropriate then t == s
          else && OnlyLead(s, t, key)
               && MarkStored(s.leads[key], t.leads[key], TrimSpace(reason), TrimSpace(actor), now)
               && HistoryGrows(LogOf(s, key), LogOf(t, key), s.leads[key].qualificationStatus, "IRRELEVANT", now, "not_appropriate"))
  {
    IrrelevantIsTrimmed();
    hide TrimSpace, Flagged, MarkStored, Logged, OnlyLead, HistoryGrows, LogOf;
    var key := TrimSpace(id);
    var l, log := s.leads[key], LogOf(s, key);
    if !l.notAppropriate {
      MarkColumns(l, TrimSpace(reason), TrimSpace(actor), now);
      LoggedGrows(log, l.qualificationStatus, "IRRELEVANT", now, "not_appropriate");
      LoggedSame(log, l.qualificationStatus, "IRRELEVANT", now, "not_appropriate");
      ReplacedIsOnly(s, MarkNotAppropriate(s, id, reason, actor, now).value, key, Flagged(l, TrimSpace(reason), TrimSpace(actor), now),
                     Logged(log, l.qualificationStatus, "IRRELEVANT", now, "not_appropriate"));
    }
  }

  lemma IrrelevantIsTrimmed()
    ensures TrimSpace("IRRELEVANT") == "IRRELEVANT"
  {
    TightIsTrimmed("IRRELEVANT", IsSpace);
  }

  /** Main result: a mark stores flag, reason and status together with its history row, does
      nothing the second time, and is refused with a true complaint. */
  lemma MarkOnFields(s: State, id: string, reason: string, actor: string, now: Time)
    ensures var key := TrimSpace(id);
      match MarkNotAppropriate(s, id, reason, actor, now)
      case Err(e) => MarkFault(s, id, reason, actor, e)
      case Ok(t) =>
        && (forall e :: !MarkFault(s, id, reason, actor, e))
        && key in s.leads
        && (if s.leads[key].notAppropriate then t == s
            else && OnlyLead(s, t, key)
                 && MarkStored(s.leads[key], t.leads[key], TrimSpace(reason), TrimSpace(actor), now)
                 && HistoryGrows(LogOf(s, key), LogOf(t, key), s.leads[key].qualificationStatus, "IRRELEVANT", now, "not_appropriate"))
  {
    MarkRefusals(s, id, reason, actor, now);
    if MarkNotAppropriate(s, id, reason, actor, now).Ok? { MarkStores(s, id, reason, actor, now); }
    hide MarkNotAppropriate, MarkFault, MarkStored, HistoryGrows, OnlyLead, TrimSpace;
  }

  /** A marked lead is on the "not appropriate" list, and marking it for another reason is refused. */
  lemma MarkedStaysMarked(loc: Locale, s: State, id: string, reason: string, actor: string, now: Time, db: Db,
                          other: string, again: string, later: Time)
    requires MarkNotAppropriate(s, id, reason, actor, now).Ok?
    ensures var t, key := MarkNotAppropriate(s, id, reason, actor, now).value, TrimSpace(id);
      && key in t.leads && Matches(loc, db, t.leads[key], PresetTest(NotAppropriateLeads))
      && (10 <= |TrimSpace(other)| <= 2000 ==>
            MarkNotAppropriate(t, id, other, again, later)
            == if TrimSpace(other) == TrimSpace(reason) then Ok(t) else Err(AlreadyMarked))
  {
    MarkOnFields(s, id, reason, actor, now);
    TrimSpaceStable(reason);
    hide TrimSpace, HistoryGrows;
    var t, key := MarkNotAppropriate(s, id, reason, actor, now).value, TrimSpace(id);
    assert t.leads[key].notAppropriate;
  }

  // ---------------------------------------------------------------- creating and editing

  /** A score from 0 to 100 and a first response within a week. */
  predicate BadScore(p: Profile) { p.leadScore.Some? && !(0 <= p.leadScore.value <= 100) }

  predicate BadResponse(p: Profile) { p.firstResponseMinutes.Some? && !(0 <= p.firstResponseMinutes.value <= 10080) }

  predicate KnownSource(source: string) {
    source in ["Meta WhatsApp", "Meta Messenger", "Website WhatsApp", "Meta Lead Form", "Website Download Form",
               "G.WhatsApp(CAM/CWA/CRW)", "Google LeadForm"]
  }

  predicate KnownStatus(loc: Locale, status: string) {
    Qualification.Normalize(loc, status) in
      ["QUALIFIED", "QUALIFIED_CHAT", "QUALIFIED_CALL", "PAID", "ORGANIC", "NOT_QUALIFIED", "IRRELEVANT"]
  }

  /** The contact columns are those of the request. */
  predicate FromProfile(p: Profile, m: Lead) {
    && m.leadName == TrimSpace(p.fullName) && m.leadEmail == p.email && m.phone == p.phone && m.country == p.country
    && m.city == p.city && m.portalWebsite == p.portalWebsite && m.source == p.source && m.metaProfile == p.metaProfile
    && m.clientProfile == p.clientProfile && m.leadScore == p.leadScore && m.notes == p.notes
  }

  predicate EditFault(loc: Locale, s: State, id: Id, p: Profile, e: Error) {
    match e
    case LeadIdRequired => TrimSpace(id) == ""
    case NameTooLong => |TrimSpace(p.fullName)| > 200
    case LeadNotFound => id !in s.leads
    case InvalidSource => id in s.leads && !KnownSource(p.source) && p.source != s.leads[id].source
    case InvalidStatus => id in s.leads && !KnownStatus(loc, p.status) && p.status != s.leads[id].qualificationStatus
    case InvalidScore => BadScore(p)
    case InvalidResponse => BadResponse(p)
    case _ => false
  }

  /** The status an edit stores: the canonical code, or the outdated text that stays. */
  function EditedStatus(loc: Locale, p: Profile): string {
    if KnownStatus(loc, p.status) then Qualification.Normalize(loc, p.status) else p.status
  }

  predicate EditStored(l: Lead, m: Lead, p: Profile, status: string, now: Time) {
    && m.id == l.id && FromProfile(p, m) && SameFlag(l, m) && SameHolders(l, m) && SameOutcome(l, m) && m.updatedAt == now
    && m.createdAt == (if p.createdAt.Some? then p.createdAt.value else l.createdAt)
    && m.qualificationStatus == status
    && m.qualificationEnteredAt ==
         (if TrimSpace(l.qualificationStatus) == TrimSpace(status) then l.qualificationEnteredAt else Some(now))
  }

  lemma EditColumns(l: Lead, p: Profile, status: string, now: Time)
    ensures EditStored(l, Edited(l, p, status, now), p, status, now)
  {
    hide TrimSpace;
  }

  lemma AllowedSpelt(status: string)
    ensures status in Qualification.ALLOWED
       <==> status in ["QUALIFIED", "QUALIFIED_CHAT", "QUALIFIED_CALL", "PAID", "ORGANIC", "NOT_QUALIFIED", "IRRELEVANT"]
  {
  }

  lemma RangesSpelt(p: Profile)
    ensures RangeError(p) == if BadScore(p) then Some(InvalidScore) else if BadResponse(p) then Some(InvalidResponse) else None
  {
  }

  lemma EditRefusals(loc: Locale, s: State, id: Id, p: Profile, now: Time)
    ensures match Update(loc, s, id, p, now)
      case Err(e) => EditFault(loc, s, id, p, e)
      case Ok(_) => (forall e :: !EditFault(loc, s, id, p, e)) && id in s.leads
  {
    RangesSpelt(p);
    AllowedSpelt(Qualification.Normalize(loc, p.status));
    hide TrimSpace, Edited, Logged, RangeError, BadScore, BadResponse, Qualification.Normalize;
  }

  lemma EditStores(loc: Locale, s: State, id: Id, p: Profile, now: Time)
    requires Update(loc, s, id, p, now).Ok?
    ensures var t := Update(loc, s, id, p, now).value;
      && OnlyLead(s, t, id) && EditStored(s.leads[id], t.leads[id], p, EditedStatus(loc, p), now)
      && (if TrimSpace(s.leads[id].qualificationStatus) == TrimSpace(EditedStatus(loc, p)) then LogOf(t, id) == LogOf(s, id)
          else HistoryGrows(LogOf(s, id), LogOf(t, id), s.leads[id].qualificationStatus, EditedStatus(loc, p), now, "update"))
  {
    AllowedSpelt(Qualification.Normalize(loc, p.status));
    hide TrimSpace, Edited, EditStored, Logged, HistoryGrows, RangeError, Qualification.Normalize, OnlyLead, LogOf;
    var l, log, status := s.leads[id], LogOf(s, id), EditedStatus(loc, p);
    EditColumns(l, p, status, now);
    LoggedGrows(log, l.qualificationStatus, status, now, "update");
    ReplacedIsOnly(s, Update(loc, s, id, p, now).value, id, Edited(l, p, status, now),
                   if StatusChanged(l.qualificationStatus, status) then Logged(log, l.qualificationStatus, status, now, "update") else log);
  }

  /** Main result: an edit stores every column of its request in that column, keeps the sales
      side, and logs exactly a change of status. */
  lemma EditOnFields(loc: Locale, s: State, id: Id, p: Profile, now: Time)
    ensures match Update(loc, s, id, p, now)
      case Err(e) => EditFault(loc, s, id, p, e)
      case Ok(t) =>
        && (forall e :: !EditFault(loc, s, id, p, e))
        && OnlyLead(s, t, id) && EditStored(s.leads[id], t.leads[id], p, EditedStatus(loc, p), now)
        && (if TrimSpace(s.leads[id].qualificationStatus) == TrimSpace(EditedStatus(loc, p)) then LogOf(t, id) == LogOf(s, id)
            else HistoryGrows(LogOf(s, id), LogOf(t, id), s.leads[id].qualificationStatus, EditedStatus(loc, p), now, "update"))
  {
    EditRefusals(loc, s, id, p, now);
    if Update(loc, s, id, p, now).Ok? { EditStores(loc, s, id, p, now); }
    hide Update, EditFault, EditStored, EditedStatus, HistoryGrows, OnlyLead, TrimSpace;
  }

  predicate CreateFault(loc: Locale, s: State, p: Profile, fallback: Option<Id>, e: Error) {
    match e
    case NameTooLong => |TrimSpace(p.fullName)| > 200
    case InvalidSource => !KnownSource(p.source)
    case InvalidStatus => !KnownStatus(loc, p.status)
    case InvalidScore => BadScore(p)
    case InvalidResponse => BadResponse(p)
    case NoCreator => TrimSpace(p.createdById) == "" && fallback.None?
    case ForeignKey =>
      var creator := if TrimSpace(p.createdById) != "" then Some(TrimSpace(p.createdById)) else fallback;
      creator.Some? && creator.value !in s.users
    case _ => false
  }

  /** A new lead: the columns of the request, nobody assigned, nothing closed. */
  predicate CreateStored(m: Lead, id: Id, p: Profile, status: string, creator: Id, at: Time, now: Time) {
    && m.id == id && FromProfile(p, m) && m.qualificationStatus == status && m.qualificationEnteredAt == Some(at)
    && m.createdById == Some(creator) && m.createdAt == at && m.updatedAt == now
    && m.salesStage == "PRE_SALES" && Unassigned(m) && m.execAssignedAt.None?
    && m.closedAt.None? && m.closedRevenue.None? && m.initialPayment.None? && m.estimatedDealValue.None? && m.lostNotes.None?
    && m.dealCurrency == "AUD" && !m.notAppropriate && m.notAppropriateReason.None? && m.notAppropriateById.None?
  }

  lemma CreateColumns(id: Id, p: Profile, status: string, creator: Id, at: Time, now: Time)
    ensures CreateStored(NewLead(id, p, status, creator, at, now), id, p, status, creator, at, now)
  {
    hide TrimSpace;
  }

  function CreatorAsked(p: Profile, fallback: Option<Id>): Option<Id> {
    if TrimSpace(p.createdById) != "" then Some(TrimSpace(p.createdById)) else fallback
  }

  function CreationTime(p: Profile, now: Time): Time { if p.createdAt.Some? then p.createdAt.value else now }

  /** One lead more, with its handoff row and its history row at the creation time. */
  ghost predicate Created(s: State, t: State, id: Id, p: Profile, status: string, creator: Id, now: Time) {
    && creator in s.users
    && t.leads.Keys == s.leads.Keys + {id} && (forall k :: k in s.leads ==> t.leads[k] == s.leads[k])
    && CreateStored(t.leads[id], id, p, status, creator, CreationTime(p, now), now)
    && LogOf(t, id) == [QualEntry(None, status, CreationTime(p, now), "create")]
    && (forall k :: k != id ==> LogOf(t, k) == LogOf(s, k))
    && |t.handoffs| == |s.handoffs| + 1 && s.handoffs <= t.handoffs
    && (var h := t.handoffs[|s.handoffs|];
        && h.leadId == id && h.action == "LEAD_CREATED" && h.actorId == Some(creator) && h.createdAt == CreationTime(p, now)
        && h.detail == Some(if s.users[creator].name != "" then "Created by " + s.users[creator].name else "Created via LeadFlow UI"))
    && t.users == s.users && t.teams == s.teams && t.moves == s.moves
  }

  lemma CreateRefusals(loc: Locale, s: State, id: Id, p: Profile, fallback: Option<Id>, now: Time)
    ensures match Create(loc, s, id, p, fallback, now)
      case Err(e) => CreateFault(loc, s, p, fallback, e)
      case Ok(_) => (forall e :: !CreateFault(loc, s, p, fallback, e)) && CreatorAsked(p, fallback).Some?
  {
    RangesSpelt(p);
    AllowedSpelt(Qualification.Normalize(loc, p.status));
    hide TrimSpace, NewLead, Logged, RangeError, BadScore, BadResponse, Qualification.Normalize;
  }

  lemma CreateStores(loc: Locale, s: State, id: Id, p: Profile, fallback: Option<Id>, now: Time)
    requires id !in s.leads && Create(loc, s, id, p, fallback, now).Ok? && CreatorAsked(p, fallback).Some?
    ensures Created(s, Create(loc, s, id, p, fallback, now).value, id, p, Qualification.Normalize(loc, p.status),
                    CreatorAsked(p, fallback).value, now)
  {
    hide TrimSpace, NewLead, CreateStored, RangeError, Qualification.Normalize, Logged, LogOf, CreateError;
    var status, creator, at := Qualification.Normalize(loc, p.status), CreatorAsked(p, fallback).value, CreationTime(p, now);
    CreateAccepted(loc, s, p, fallback);
    CreateColumns(id, p, status, creator, at, now);
    var t := Create(loc, s, id, p, fallback, now).value;
    FirstRow(status, at);
    LogAfter(s, t, id, Logged([], "", status, at, "create"));
  }

  lemma CreateAccepted(loc: Locale, s: State, p: Profile, fallback: Option<Id>)
    requires CreateError(loc, s, p, fallback).None?
    ensures CreatorOf(p, fallback) == CreatorAsked(p, fallback) && CreatorOf(p, fallback).Some? && CreatorOf(p, fallback).value in s.users
    ensures Qualification.Normalize(loc, p.status) in Qualification.ALLOWED
  {
    hide TrimSpace, RangeError, Qualification.Normalize;
  }

  lemma FirstRow(status: string, at: Time)
    requires status in Qualification.ALLOWED
    ensures Logged([], "", status, at, "create") == [QualEntry(None, status, at, "create")]
  {
    Qualification.AllowedIsTrimmed(status);
    BlankTrims();
    hide TrimSpace;
  }

  lemma LogAfter(s: State, t: State, id: Id, next: seq<QualEntry>)
    requires t.logs == s.logs[id := next]
    ensures LogOf(t, id) == next && forall k :: k != id ==> LogOf(t, k) == LogOf(s, k)
  {
  }

  /** Main result: a creation adds one lead with the columns of its request, one handoff row and
      one history row, all at the creation time, and nothing else. */
  lemma CreateOnFields(loc: Locale, s: State, id: Id, p: Profile, fallback: Option<Id>, now: Time)
    requires id !in s.leads
    ensures match Create(loc, s, id, p, fallback, now)
      case Err(e) => CreateFault(loc, s, p, fallback, e)
      case Ok(t) =>
        && (forall e :: !CreateFault(loc, s, p, fallback, e)) && CreatorAsked(p, fallback).Some?
        && Created(s, t, id, p, Qualification.Normalize(loc, p.status), CreatorAsked(p, fallback).value, now)
  {
    CreateRefusals(loc, s, id, p, fallback, now);
    if Create(loc, s, id, p, fallback, now).Ok? { CreateStores(loc, s, id, p, fallback, now); }
    hide Create, CreateFault, Created, Qualification.Normalize, CreatorAsked;
  }

  // ---------------------------------------------------------------- status patch and backfill

  predicate PatchFault(loc: Locale, s: State, id: string, status: string, e: Error) {
    match e
    case LeadIdRequired => TrimSpace(id) == ""
    case InvalidStatus => !KnownStatus(loc, status)
    case LeadNotFound => TrimSpace(id) !in s.leads
    case _ => false
  }

  predicate PatchStored(l: Lead, m: Lead, status: string, now: Time) {
    && m.id == l.id && SameContact(l, m) && SameFlag(l, m) && SameHolders(l, m) && SameOutcome(l, m)
    && m.qualificationStatus == status && m.qualificationEnteredAt == Some(now) && m.updatedAt == now
  }

  lemma PatchColumns(l: Lead, status: string, now: Time)
    ensures PatchStored(l, Requalified(l, status, now), status, now)
  {
  }

  /** Main result: a patch stores the canonical status with the time and a history row, or
      nothing when the lead has it already. */
  lemma PatchOnFields(loc: Locale, s: State, id: string, status: string, now: Time)
    ensures var key, code := TrimSpace(id), Qualification.Normalize(loc, status);
      match PatchStatus(loc, s, id, status, now)
      case Err(e) => PatchFault(loc, s, id, status, e)
      case Ok(t) =>
        && (forall e :: !PatchFault(loc, s, id, status, e))
        && (if TrimSpace(s.leads[key].qualificationStatus) == code then t == s
            else && OnlyLead(s, t, key) && PatchStored(s.leads[key], t.leads[key], code, now)
                 && HistoryGrows(LogOf(s, key), LogOf(t, key), s.leads[key].qualificationStatus, code, now, "patch_qual"))
  {
    var key, code := TrimSpace(id), Qualification.Normalize(loc, status);
    AllowedSpelt(code);
    hide TrimSpace, Requalified, PatchStored, Logged, HistoryGrows, Qualification.Normalize;
    if key in s.leads {
      PatchColumns(s.leads[key], code, now);
      LoggedGrows(LogOf(s, key), s.leads[key].qualificationStatus, code, now, "patch_qual");
    }
  }

  /** A lead with a status and without history gets one row, dated at its creation; any other
      call changes nothing. */
  lemma SeedOnFields(s: State, id: Id)
    ensures var t := SeedLog(s, id);
      if id in s.leads && TrimSpace(s.leads[id].qualificationStatus) != "" && LogOf(s, id) == []
      then && OnlyLead(s, t, id)
           && LogOf(t, id) == [QualEntry(None, TrimSpace(s.leads[id].qualificationStatus), s.leads[id].createdAt, "backfill")]
           && (var l, m := s.leads[id], t.leads[id];
               && SameContact(l, m) && SameFlag(l, m) && SameHolders(l, m) && SameOutcome(l, m)
               && m.qualificationStatus == l.qualificationStatus && m.qualificationEnteredAt == Some(l.createdAt))
      else t == s
  {
    if id in s.leads {
      var status := s.leads[id].qualificationStatus;
      TrimSpaceStable(status);
      BlankTrims();
      BackfillRow(TrimSpace(status), s.leads[id].createdAt);
      hide TrimSpace, Logged, OnlyLead, LogOf;
      if TrimSpace(status) != "" && LogOf(s, id) == [] {
        var next := Logged([], "", TrimSpace(status), s.leads[id].createdAt, "backfill");
        ReplacedIsOnly(s, SeedLog(s, id), id, s.leads[id].(qualificationEnteredAt := Some(s.leads[id].createdAt)), next);
      }
    }
  }

  lemma BackfillRow(status: string, at: Time)
    requires TrimSpace(status) == status
    ensures status != "" ==> Logged([], "", status, at, "backfill") == [QualEntry(None, status, at, "backfill")]
  {
    BlankTrims();
    hide TrimSpace;
  }
}
