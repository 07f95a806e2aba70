/** The tables the lead life cycle works on, and what each operation makes of them. */
module Crm {
  import opened Wrappers
  import opened Model
  import opened Text
  import opened LeadQuery
  import opened Qualification

  /** One row of the qualification history. */
  datatype QualEntry = QualEntry(from: Option<string>, to: string, at: Time, source: string)

  datatype TeamMove = TeamMove(salesExecId: Id, fromTeamId: Option<Id>, toTeamId: Id, byId: Id, at: Time)

  /** The database.  A lead's history is in the order its rows were inserted. */
  datatype State = State(
    leads: map<Id, Lead>,
    users: map<Id, User>,
    teams: map<Id, Team>,
    handoffs: seq<Handoff>,
    logs: map<Id, seq<QualEntry>>,
    moves: seq<TeamMove>)

  datatype Error =
    | LeadIdRequired | LeadNotFound | NameTooLong | InvalidSource | InvalidStatus | InvalidScore | InvalidResponse
    | NoCreator | ForeignKey
    | InvalidOutcome | NegativePayment | NegativeRevenue | RevenueRequired
    | ReasonRequired | ReasonTooShort | ReasonTooLong | AlreadyMarked
    | NoLeadsSelected | AssigneeRequired | InvalidKind | TooManyLeads | NoActor | AssigneeNotFound | NotOnYourTeam
    | NotATeamLead | NotAMember | LeadsNotFound | NotQualified
    | UserNotFound | CannotDeleteSelf | LastSuperadmin | DeleteBlocked
    | TeamNotFound | ActorRequired | NotSalesExecutive | TeamConflict | TransferForbidden | SameTeam | NoMainTeamLead

  function LogOf(s: State, id: Id): seq<QualEntry> { if id in s.logs then s.logs[id] else [] }

  /** insertQualificationLog */
  function Logged(log: seq<QualEntry>, fromStatus: string, toStatus: string, at: Time, source: string): seq<QualEntry> {
    var from, to := TrimSpace(fromStatus), TrimSpace(toStatus);
    if to == "" || (from != "" && from == to) then log
    else log + [QualEntry(if from == "" then None else Some(from), to, at, source)]
  }

  // ---------------------------------------------------------------- creating and editing

  datatype Profile = Profile(
    fullName: string, email: Option<string>, phone: Option<string>, country: Option<string>, city: Option<string>,
    portalWebsite: Option<string>, source: string, metaProfile: Option<string>, clientProfile: Option<string>,
    status: string, leadScore: Option<int>, notes: Option<string>, firstResponseMinutes: Option<int>,
    createdAt: Option<Time>, createdById: string)

  const SOURCES := ["Meta WhatsApp", "Meta Messenger", "Website WhatsApp", "Meta Lead Form", "Website Download Form",
                    "G.WhatsApp(CAM/CWA/CRW)", "Google LeadForm"]

  const MAX_NAME := 200
  const MAX_RESPONSE := 7 * 24 * 60

  /** The checks create and edit share, after those on source and status. */
  function RangeError(profile: Profile): Option<Error> {
    if profile.leadScore.Some? && (profile.leadScore.value < 0 || profile.leadScore.value > 100) then Some(InvalidScore)
    else if profile.firstResponseMinutes.Some? && (profile.firstResponseMinutes.value < 0 || profile.firstResponseMinutes.value > MAX_RESPONSE)
    then Some(InvalidResponse)
    else None
  }

  function NewLead(id: Id, profile: Profile, status: string, creator: Id, createdAt: Time, now: Time): Lead {
    Lead(id, TrimSpace(profile.fullName), profile.phone, profile.email, profile.country, profile.city, profile.source, profile.portalWebsite,
         profile.metaProfile, profile.clientProfile, profile.notes, None, profile.leadScore, status, Some(createdAt), false, None, None,
         "PRE_SALES", Some(creator), None, None, None, None, None, None, None, "AUD", None, createdAt, now)
  }

  /** `fallback` is the oldest superadmin, who creates for requests without a user. */
  function CreatorOf(profile: Profile, fallback: Option<Id>): Option<Id> {
    if TrimSpace(profile.createdById) != "" then Some(TrimSpace(profile.createdById)) else fallback
  }

  function CreateError(loc: Locale, s: State, profile: Profile, fallback: Option<Id>): Option<Error> {
    if |TrimSpace(profile.fullName)| > MAX_NAME then Some(NameTooLong)
    else if profile.source !in SOURCES then Some(InvalidSource)
    else if Normalize(loc, profile.status) !in ALLOWED then Some(InvalidStatus)
    else if RangeError(profile).Some? then RangeError(profile)
    else if CreatorOf(profile, fallback).None? then Some(NoCreator)
    else if CreatorOf(profile, fallback).value !in s.users then Some(ForeignKey)
    else None
  }

  function Create(loc: Locale, s: State, id: Id, profile: Profile, fallback: Option<Id>, now: Time): Result<State, Error> {
    if CreateError(loc, s, profile, fallback).Some? then Err(CreateError(loc, s, profile, fallback).value)
    else
      var status, creator := Normalize(loc, profile.status), CreatorOf(profile, fallback);
      var createdAt := if profile.createdAt.Some? then profile.createdAt.value else now;
      var name := s.users[creator.value].name;
      var detail := if name != "" then "Created by " + name else "Created via LeadFlow UI";
      Ok(s.(leads := s.leads[id := NewLead(id, profile, status, creator.value, createdAt, now)],
            handoffs := s.handoffs + [Handoff(id, "LEAD_CREATED", creator, Some(detail), createdAt)],
            logs := s.logs[id := Logged([], "", status, createdAt, "create")]))
  }

  predicate StatusChanged(from: string, to: string) { TrimSpace(from) != TrimSpace(to) }

  function Edited(l: Lead, profile: Profile, status: string, now: Time): Lead {
    l.(leadName := TrimSpace(profile.fullName), leadEmail := profile.email, phone := profile.phone, country := profile.country, city := profile.city,
       portalWebsite := profile.portalWebsite, source := profile.source, metaProfile := profile.metaProfile, clientProfile := profile.clientProfile,
       qualificationStatus := status, leadScore := profile.leadScore, notes := profile.notes,
       createdAt := if profile.createdAt.Some? then profile.createdAt.value else l.createdAt,
       qualificationEnteredAt := if StatusChanged(l.qualificationStatus, status) then Some(now) else l.qualificationEnteredAt,
       updatedAt := now)
  }

  /** An edit may keep a source or a status that is no longer allowed. */
  function Update(loc: Locale, s: State, id: Id, profile: Profile, now: Time): Result<State, Error> {
    if TrimSpace(id) == "" then Err(LeadIdRequired)
    else if |TrimSpace(profile.fullName)| > MAX_NAME then Err(NameTooLong)
    else if id !in s.leads then Err(LeadNotFound)
    else
      var l := s.leads[id];
      var code := Normalize(loc, profile.status);
      var status := if code in ALLOWED then code else profile.status;
      if profile.source !in SOURCES && profile.source != l.source then Err(InvalidSource)
      else if code !in ALLOWED && profile.status != l.qualificationStatus then Err(InvalidStatus)
      else if RangeError(profile).Some? then Err(RangeError(profile).value)
      else
        var edited := s.(leads := s.leads[id := Edited(l, profile, status, now)]);
        if StatusChanged(l.qualificationStatus, status)
        then Ok(edited.(logs := s.logs[id := Logged(LogOf(s, id), l.qualificationStatus, status, now, "update")]))
        else Ok(edited)
  }

  // ---------------------------------------------------------------- qualification

  function Requalified(l: Lead, status: string, now: Time): Lead {
    l.(qualificationStatus := status, qualificationEnteredAt := Some(now), updatedAt := now)
  }

  function PatchStatus(loc: Locale, s: State, rawId: string, rawStatus: string, now: Time): Result<State, Error> {
    var id, status := TrimSpace(rawId), Normalize(loc, rawStatus);
    if id == "" then Err(LeadIdRequired)
    else if status !in ALLOWED then Err(InvalidStatus)
    else if id !in s.leads then Err(LeadNotFound)
    else
      var l := s.leads[id];
      if TrimSpace(l.qualificationStatus) == status then Ok(s)
      else Ok(s.(leads := s.leads[id := Requalified(l, status, now)],
                 logs := s.logs[id := Logged(LogOf(s, id), l.qualificationStatus, status, now, "patch_qual")]))
  }

  const MIN_REASON := 10
  const MAX_REASON := 2000

  function Flagged(l: Lead, reason: string, actor: string, now: Time): Lead {
    l.(notAppropriate := true, notAppropriateReason := Some(reason),
       notAppropriateById := if actor == "" then None else Some(actor),
       qualificationStatus := "IRRELEVANT",
       qualificationEnteredAt := if l.qualificationStatus != "IRRELEVANT" then Some(now) else l.qualificationEnteredAt,
       updatedAt := now)
  }

  /** Marking twice with the same reason is accepted and does nothing. */
  function MarkNotAppropriate(s: State, rawId: string, rawReason: string, rawActor: string, now: Time): Result<State, Error> {
    var id, reason, actor := TrimSpace(rawId), TrimSpace(rawReason), TrimSpace(rawActor);
    if id == "" then Err(LeadIdRequired)
    else if reason == "" then Err(ReasonRequired)
    else if |reason| < MIN_REASON then Err(ReasonTooShort)
    else if |reason| > MAX_REASON then Err(ReasonTooLong)
    else if id !in s.leads then Err(LeadNotFound)
    else
      var l := s.leads[id];
      if l.notAppropriate then
        if l.notAppropriateReason.Some? && TrimSpace(l.notAppropriateReason.value) == reason then Ok(s) else Err(AlreadyMarked)
      else if actor != "" && actor !in s.users then Err(ForeignKey)
      else
        var marked := s.(leads := s.leads[id := Flagged(l, reason, actor, now)]);
        if TrimSpace(l.qualificationStatus) != "IRRELEVANT"
        then Ok(marked.(logs := s.logs[id := Logged(LogOf(s, id), l.qualificationStatus, "IRRELEVANT", now, "not_appropriate")]))
        else Ok(marked)
  }

  /** ensureQualificationLogSeeded: an old lead's history starts when it was created. */
  function SeedLog(s: State, id: Id): State {
    if id !in s.leads || TrimSpace(s.leads[id].qualificationStatus) == "" || LogOf(s, id) != [] then s
    else
      var l := s.leads[id];
      s.(logs := s.logs[id := Logged([], "", TrimSpace(l.qualificationStatus), l.createdAt, "backfill")],
         leads := s.leads[id := l.(qualificationEnteredAt := Some(l.createdAt))])
  }

  // ---------------------------------------------------------------- sales outcome

  /** Each field is present or absent; a present payment, revenue or note may be null. */
  datatype Outcome = Outcome(
    stage: Option<string>, payment: Option<Option<real>>, revenue: Option<Option<real>>, notes: Option<Option<string>>)

  const OUTCOMES := ["IN_NEGOTIATION", "NOT_CONNECTED", "NO_RESPONSE_FROM_CLIENT", "CLOSED_WON", "CLOSED_LOST"]

  function OutcomeStage(l: Lead, o: Outcome): string { if o.stage.Some? then TrimSpace(o.stage.value) else l.salesStage }

  function OutcomeRevenue(l: Lead, o: Outcome): Option<real> { if o.revenue.Some? then o.revenue.value else l.closedRevenue }

  predicate Negative(v: Option<Option<real>>) { v.Some? && v.value.Some? && v.value.value < 0.0 }

  function OutcomeError(l: Lead, o: Outcome): Option<Error> {
    if o.stage.Some? && OutcomeStage(l, o) !in OUTCOMES then Some(InvalidOutcome)
    else if Negative(o.payment) then Some(NegativePayment)
    else if Negative(o.revenue) then Some(NegativeRevenue)
    else if OutcomeStage(l, o) == "CLOSED_WON" && (OutcomeRevenue(l, o).None? || OutcomeRevenue(l, o).value <= 0.0)
    then Some(RevenueRequired)
    else None
  }

  function WithOutcome(l: Lead, o: Outcome, now: Time): Lead {
    var stage := OutcomeStage(l, o);
    l.(salesStage := stage,
       closedAt := if o.stage.None? then l.closedAt
                   else if stage in CLOSED then Some(if l.closedAt.Some? then l.closedAt.value else now)
                   else None,
       initialPayment := if o.payment.Some? then o.payment.value else l.initialPayment,
       closedRevenue := OutcomeRevenue(l, o),
       estimatedDealValue := if o.revenue.Some? then o.revenue.value else l.estimatedDealValue,
       dealCurrency := if o.revenue.Some? then "AUD" else l.dealCurrency,
       lostNotes := if o.notes.Some? then o.notes.value else l.lostNotes,
       updatedAt := now)
  }

  function UpdateOutcome(s: State, id: Id, o: Outcome, now: Time): Result<State, Error> {
    if TrimSpace(id) == "" then Err(LeadIdRequired)
    else if id !in s.leads then Err(LeadNotFound)
    else if o == Outcome(None, None, None, None) then Ok(s)
    else if OutcomeError(s.leads[id], o).Some? then Err(OutcomeError(s.leads[id], o).value)
    else Ok(s.(leads := s.leads[id := WithOutcome(s.leads[id], o, now)]))
  }
}
