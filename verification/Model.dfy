/** The rows of the CRM tables, as the queries and the mutations see them. */
module Model {
  import opened Wrappers

  type Id = string
  type Time = int  // instants, in microseconds

  datatype Lead = Lead(
    id: Id,
    leadName: string,
    phone: Option<string>,
    leadEmail: Option<string>,
    country: Option<string>,
    city: Option<string>,
    source: string,
    portalWebsite: Option<string>,
    metaProfile: Option<string>,
    clientProfile: Option<string>,
    notes: Option<string>,
    lostNotes: Option<string>,
    leadScore: Option<int>,
    qualificationStatus: string,
    qualificationEnteredAt: Option<Time>,
    notAppropriate: bool,
    notAppropriateReason: Option<string>,
    notAppropriateById: Option<Id>,
    salesStage: string,
    createdById: Option<Id>,
    teamId: Option<Id>,
    assignedMainTeamLeadId: Option<Id>,
    assignedSalesExecId: Option<Id>,
    execAssignedAt: Option<Time>,
    initialPayment: Option<real>,
    closedRevenue: Option<real>,
    estimatedDealValue: Option<real>,
    dealCurrency: string,
    closedAt: Option<Time>,
    createdAt: Time,
    updatedAt: Time)

  datatype User = User(
    id: Id,
    name: string,
    email: string,
    role: string,
    teamId: Option<Id>,
    managerId: Option<Id>,
    analystTeamName: Option<string>,
    createdAt: Time)

  datatype Team = Team(id: Id, name: string, mainTeamLeadId: Id, analystTeamLeadId: Option<Id>)

  datatype Handoff = Handoff(leadId: Id, action: string, actorId: Option<Id>, detail: Option<string>, createdAt: Time)

  /** What one query sees.  The order of the lead rows is the physical one. */
  datatype Db = Db(leads: seq<Lead>, users: map<Id, User>, teams: map<Id, Team>, handoffs: seq<Handoff>)

  datatype DateStyle = UsDate | IsoDate | LongDate

  /** Everything that comes from the environment: case folding, collation, and the
      text PostgreSQL renders dates, numbers and extracted reasons to. */
  datatype Locale = Locale(
    fold: char -> char,
    upper: char -> char,
    lt: (string, string) -> bool,
    dateText: (Time, DateStyle) -> string,
    intText: int -> string,
    realText: real -> string,
    reason: Option<string> -> Option<string>)

  const SUPERADMIN := "SUPERADMIN"
  const ANALYST_TEAM_LEAD := "ANALYST_TEAM_LEAD"
  const LEAD_ANALYST := "LEAD_ANALYST"
  const MAIN_TEAM_LEAD := "MAIN_TEAM_LEAD"
  const SALES_EXECUTIVE := "SALES_EXECUTIVE"

  const ROLES := [SUPERADMIN, ANALYST_TEAM_LEAD, LEAD_ANALYST, MAIN_TEAM_LEAD, SALES_EXECUTIVE]

  /** The row comparison (t, id) < (u, jd). */
  predicate PairBelow(loc: Locale, t: Time, id: Id, u: Time, jd: Id) { t < u || (t == u && loc.lt(id, jd)) }

  ghost predicate TimeSorted<T>(at: T -> Time, rows: seq<T>) {
    forall i, j :: 0 <= i <= j < |rows| ==> at(rows[i]) <= at(rows[j])
  }

  /** The statuses that count as qualified and may be assigned. */
  const ASSIGNABLE := ["QUALIFIED", "QUALIFIED_CHAT", "QUALIFIED_CALL", "PAID", "ORGANIC"]

  /** The "New" tag: no team, no team lead, no sales executive. */
  predicate Unassigned(l: Lead) {
    l.teamId.None? && l.assignedMainTeamLeadId.None? && l.assignedSalesExecId.None?
  }
}
