/** Assigning and deleting leads, moving sales executives between teams and deleting users:
    the operations that move many rows at once. */
module Routing {
  import opened Wrappers
  import opened Model
  import opened Text
  import opened LeadQuery
  import opened Qualification
  import opened Crm

  /** UPDATE "Lead" SET .. WHERE .. */
  function UpdateWhere(leads: map<Id, Lead>, where: Lead -> bool, change: Lead -> Lead): map<Id, Lead> {
    map id | id in leads :: if where(leads[id]) then change(leads[id]) else leads[id]
  }

  predicate IsLeadOf(u: User, team: Id) { u.role == MAIN_TEAM_LEAD && u.teamId == Some(team) }

  /** The row "ORDER BY createdAt LIMIT 1" may return: a main team lead of the team, none
      of the others older, or nothing when there is none. */
  ghost predicate OldestTeamLead(users: map<Id, User>, team: Id, except: Option<Id>, pick: Option<Id>) {
    match pick
    case None => forall id :: id in users && Some(id) != except ==> !IsLeadOf(users[id], team)
    case Some(m) =>
      && m in users && Some(m) != except && IsLeadOf(users[m], team)
      && forall id :: id in users && Some(id) != except && IsLeadOf(users[id], team) ==> users[m].createdAt <= users[id].createdAt
  }

  // ---------------------------------------------------------------- assigning leads

  datatype Assignment = Assignment(
    leadIds: seq<string>, assigneeId: string, kind: string, actorId: string,
    teamId: string, createdById: string, salesExecId: string, analystTeamLeadId: string, analystTeamName: string)

  const MAX_BULK := 100

  /** The distinct non-blank ids in the order of their first occurrence. */
  function CleanIds(ids: seq<string>): seq<Id> {
    if ids == [] then []
    else
      var clean, id := CleanIds(ids[..|ids| - 1]), TrimSpace(ids[|ids| - 1]);
      if id == "" || id in clean then clean else clean + [id]
  }

  lemma {:induction false} CleanIdsDistinct(ids: seq<string>)
    ensures forall i, j :: 0 <= i < j < |CleanIds(ids)| ==> CleanIds(ids)[i] != CleanIds(ids)[j]
    ensures forall id :: id in CleanIds(ids) <==> id != "" && exists raw :: raw in ids && TrimSpace(raw) == id
    ensures |CleanIds(ids)| <= |ids|
  {
    if ids != [] {
      var init, last := ids[..|ids| - 1], ids[|ids| - 1];
      CleanIdsDistinct(init);
      assert forall raw :: raw in ids <==> raw in init || raw == last;
    }
  }

  /** The scope clauses of the lock query. */
  predicate InScope(loc: Locale, users: map<Id, User>, a: Assignment, l: Lead) {
    && (TrimSpace(a.createdById) != "" ==> l.createdById == Some(TrimSpace(a.createdById)))
    && (TrimSpace(a.teamId) != "" ==> l.teamId == Some(TrimSpace(a.teamId)))
    && (TrimSpace(a.salesExecId) != "" ==> l.assignedSalesExecId == Some(TrimSpace(a.salesExecId)))
    && (TrimSpace(a.analystTeamLeadId) != "" ==>
          l.createdById.Some? && l.createdById.value in users
          && OnAnalystTeam(loc, users[l.createdById.value], TrimSpace(a.analystTeamLeadId), TrimSpace(a.analystTeamName)))
  }

  /** isAssignableQualification, and the stricter test the UPDATE repeats. */
  predicate Assignable(loc: Locale, status: string) {
    Normalize(loc, status) in ASSIGNABLE && Map(loc.upper, BTrim(status)) in ASSIGNABLE
  }

  function Routed(l: Lead, lead: Id, team: Option<Id>, now: Time): Lead {
    l.(assignedMainTeamLeadId := Some(lead), teamId := team, assignedSalesExecId := None, execAssignedAt := None,
       salesStage := "WITH_TEAM_LEAD", updatedAt := now)
  }

  const NOT_STARTED := ["PRE_SALES", "WITH_TEAM_LEAD", "NOT_CONNECTED", ""]

  function HandedTo(l: Lead, exec: Id, team: Option<Id>, mtl: Option<Id>, now: Time): Lead {
    l.(assignedSalesExecId := Some(exec), teamId := team,
       assignedMainTeamLeadId := if mtl.Some? then mtl else l.assignedMainTeamLeadId,
       execAssignedAt := Some(now),
       salesStage := if l.salesStage in NOT_STARTED then "WITH_EXECUTIVE" else l.salesStage,
       updatedAt := now)
  }

  function AssignedLead(s: State, a: Assignment, mtl: Option<Id>, l: Lead, now: Time): Lead
    requires a.assigneeId in s.users
  {
    var team := s.users[a.assigneeId].teamId;
    if a.kind == "team-lead" then Routed(l, a.assigneeId, team, now) else HandedTo(l, a.assigneeId, team, mtl, now)
  }

  function TeamLabel(s: State, team: Option<Id>): string {
    if team.Some? && team.value in s.teams && TrimSpace(s.teams[team.value].name) != "" then TrimSpace(s.teams[team.value].name)
    else "Unassigned team"
  }

  function MtlLabel(s: State, mtl: Option<Id>): string {
    if mtl.Some? && mtl.value in s.users && TrimSpace(s.users[mtl.value].name) != "" then s.users[mtl.value].name else "—"
  }

  function AssignHandoff(s: State, a: Assignment, mtl: Option<Id>, actor: Id, leadId: Id, now: Time): Handoff
    requires a.assigneeId in s.users
  {
    var u := s.users[a.assigneeId];
    if a.kind == "team-lead"
    then Handoff(leadId, "ROUTED_TO_MAIN_TEAM", Some(actor), Some("Main team lead: " + u.name + " · Team: " + TeamLabel(s, u.teamId)), now)
    else Handoff(leadId, "DIRECT_ASSIGNED_TO_EXECUTIVE_BY_ATL", Some(actor),
                 Some("Main team lead: " + MtlLabel(s, mtl) + " · Team: " + TeamLabel(s, u.teamId)
                      + " · Sales executive: " + u.name + " (" + u.email + ")"), now)
  }

  function AssignActor(a: Assignment, fallback: Option<Id>): Option<Id> {
    if TrimSpace(a.actorId) != "" then Some(TrimSpace(a.actorId)) else fallback
  }

  /** Everything that can be refused before a lead is looked at. */
  function AssignRequestError(s: State, a: Assignment, fallback: Option<Id>): Option<Error> {
    if a.leadIds == [] then Some(NoLeadsSelected)
    else if TrimSpace(a.assigneeId) == "" then Some(AssigneeRequired)
    else if a.kind != "team-lead" && a.kind != "member" then Some(InvalidKind)
    else if CleanIds(a.leadIds) == [] then Some(NoLeadsSelected)
    else if |CleanIds(a.leadIds)| > MAX_BULK then Some(TooManyLeads)
    else if AssignActor(a, fallback).None? then Some(NoActor)
    else if a.assigneeId !in s.users then Some(AssigneeNotFound)
    else
      var u := s.users[a.assigneeId];
      if TrimSpace(a.teamId) != "" && (u.teamId.None? || TrimSpace(u.teamId.value) != TrimSpace(a.teamId)) then Some(NotOnYourTeam)
      else if a.kind == "team-lead" && u.role != MAIN_TEAM_LEAD && u.role != ANALYST_TEAM_LEAD then Some(NotATeamLead)
      else if a.kind == "member" && u.role != SALES_EXECUTIVE then Some(NotAMember)
      else None
  }

  function AssignError(loc: Locale, s: State, a: Assignment, fallback: Option<Id>): Option<Error> {
    var clean := CleanIds(a.leadIds);
    if AssignRequestError(s, a, fallback).Some? then AssignRequestError(s, a, fallback)
    else if exists id :: id in clean && !(id in s.leads && InScope(loc, s.users, a, s.leads[id])) then Some(LeadsNotFound)
    else if exists id :: id in clean && !Assignable(loc, s.leads[id].qualificationStatus) then Some(NotQualified)
    else None
  }

  function AssignHandoffs(s: State, a: Assignment, mtl: Option<Id>, actor: Id, clean: seq<Id>, now: Time): seq<Handoff>
    requires a.assigneeId in s.users
  {
    seq(|clean|, i requires 0 <= i < |clean| => AssignHandoff(s, a, mtl, actor, clean[i], now))
  }

  /** All selected leads or none. */
  function Assign(loc: Locale, s: State, a: Assignment, fallback: Option<Id>, mtl: Option<Id>, now: Time): Result<State, Error> {
    var e, clean := AssignError(loc, s, a, fallback), CleanIds(a.leadIds);
    if e.Some? then Err(e.value)
    else
      Ok(s.(leads := map id | id in s.leads :: if id in clean then AssignedLead(s, a, mtl, s.leads[id], now) else s.leads[id],
            handoffs := s.handoffs + AssignHandoffs(s, a, mtl, AssignActor(a, fallback).value, clean, now)))
  }

  // ---------------------------------------------------------------- deleting leads

  function NonBlank(ids: seq<string>): seq<Id> {
    if ids == [] then []
    else
      var init, id := NonBlank(ids[..|ids| - 1]), TrimSpace(ids[|ids| - 1]);
      if id == "" then init else init + [id]
  }

  function DeletedIds(loc: Locale, s: State, a: Assignment): set<Id> {
    set id | id in NonBlank(a.leadIds) && id in s.leads && InScope(loc, s.users, a, s.leads[id])
  }

  function KeepHandoffs(handoffs: seq<Handoff>, gone: set<Id>): seq<Handoff> {
    if handoffs == [] then []
    else if handoffs[0].leadId in gone then KeepHandoffs(handoffs[1..], gone)
    else [handoffs[0]] + KeepHandoffs(handoffs[1..], gone)
  }

  /** Leads out of scope stay; the history of a deleted lead goes with it. */
  function DeleteLeads(loc: Locale, s: State, a: Assignment): Result<State, Error> {
    var ids := NonBlank(a.leadIds);
    if ids == [] then Err(NoLeadsSelected)
    else if |ids| > MAX_BULK then Err(TooManyLeads)
    else
      var gone := DeletedIds(loc, s, a);
      Ok(s.(leads := s.leads - gone, handoffs := KeepHandoffs(s.handoffs, gone), logs := s.logs - gone))
  }

  // ---------------------------------------------------------------- moving an executive

  datatype Transfer = Transfer(
    salesExecId: string, toTeamId: string, expectedTeamId: string, actorId: string, actorRole: string, actorTeamId: Option<string>)

  function TrimmedOpt(s: Option<string>): string { if s.Some? then TrimSpace(s.value) else "" }

  predicate HeldBy(l: Lead, exec: Id) { l.assignedSalesExecId == Some(exec) }

  function LeadsHeld(s: State, exec: Id): set<Id> { set id | id in s.leads && HeldBy(s.leads[id], exec) }

  function TransferError(s: State, t: Transfer): Option<Error> {
    var exec, to := TrimSpace(t.salesExecId), TrimSpace(t.toTeamId);
    if exec == "" then Some(UserNotFound)
    else if to == "" then Some(TeamNotFound)
    else if TrimSpace(t.actorId) == "" then Some(ActorRequired)
    else if exec !in s.users then Some(UserNotFound)
    else if s.users[exec].role != SALES_EXECUTIVE then Some(NotSalesExecutive)
    else
      var from := TrimmedOpt(s.users[exec].teamId);
      var actorTeam := TrimmedOpt(t.actorTeamId);
      if TrimSpace(t.expectedTeamId) != "" && from != TrimSpace(t.expectedTeamId) then Some(TeamConflict)
      else if t.actorRole == MAIN_TEAM_LEAD && (actorTeam == "" || s.users[exec].teamId.None? || from != actorTeam) then Some(TransferForbidden)
      else if t.actorRole == MAIN_TEAM_LEAD && to == actorTeam then Some(SameTeam)
      else if t.actorRole !in [MAIN_TEAM_LEAD, SUPERADMIN, ANALYST_TEAM_LEAD] then Some(TransferForbidden)
      else if from == to then Some(SameTeam)
      else if to !in s.teams || (from != "" && from !in s.teams) then Some(TeamNotFound)
      else if TrimSpace(s.teams[to].mainTeamLeadId) == "" then Some(NoMainTeamLead)
      else if TrimSpace(s.teams[to].mainTeamLeadId) !in s.users && LeadsHeld(s, exec) != {} then Some(ForeignKey)
      else None
  }

  function Remapped(l: Lead, to: Id, mtl: Id, now: Time): Lead {
    l.(teamId := Some(to), assignedMainTeamLeadId := Some(mtl), updatedAt := now)
  }

  /** The executive, their leads and the log of moves, in one transaction. */
  function TransferExec(s: State, t: Transfer, now: Time): Result<State, Error> {
    var e, exec, to := TransferError(s, t), TrimSpace(t.salesExecId), TrimSpace(t.toTeamId);
    if e.Some? then Err(e.value)
    else
      var from, mtl := TrimmedOpt(s.users[exec].teamId), TrimSpace(s.teams[to].mainTeamLeadId);
      Ok(s.(users := s.users[exec := s.users[exec].(teamId := Some(to))],
            leads := UpdateWhere(s.leads, l => HeldBy(l, exec), l => Remapped(l, to, mtl, now)),
            moves := s.moves + [TeamMove(exec, if from == "" then None else Some(from), to, TrimSpace(t.actorId), now)]))
  }

  // ---------------------------------------------------------------- deleting a user

  /** The lead rows, statement by statement. */
  function Released(l: Lead, now: Time): Lead {
    l.(assignedSalesExecId := None, assignedMainTeamLeadId := None, teamId := None, execAssignedAt := None,
       salesStage := if l.salesStage == "WITH_EXECUTIVE" || l.salesStage == "WITH_TEAM_LEAD" then "PRE_SALES" else l.salesStage,
       updatedAt := now)
  }

  function Recreated(l: Lead, id: Id, actor: string, now: Time): Lead {
    if actor != "" && l.createdById == Some(id) then l.(createdById := Some(actor), updatedAt := now) else l
  }

  function Unheld(l: Lead, id: Id, now: Time): Lead { if HeldBy(l, id) then Released(l, now) else l }

  function Unled(l: Lead, id: Id, now: Time): Lead {
    if l.assignedMainTeamLeadId == Some(id) then l.(assignedMainTeamLeadId := None, updatedAt := now) else l
  }

  function Unflagged(l: Lead, id: Id, now: Time): Lead {
    if l.notAppropriateById == Some(id) then l.(notAppropriateById := None, updatedAt := now) else l
  }

  /** ON DELETE SET NULL, for a creator nobody took over from. */
  function Orphaned(l: Lead, id: Id): Lead {
    if l.createdById == Some(id) then l.(createdById := None) else l
  }

  /** The four UPDATE statements, in their order. */
  function Disowned(l: Lead, id: Id, actor: string, now: Time): Lead {
    Unflagged(Unled(Unheld(Recreated(l, id, actor, now), id, now), id, now), id, now)
  }

  function Detached(l: Lead, id: Id, actor: string, now: Time): Lead { Orphaned(Disowned(l, id, actor, now), id) }

  function WithoutManager(u: User, id: Id): User { if u.managerId == Some(id) then u.(managerId := None) else u }

  function WithoutLead(t: Team, id: Id, replacement: Option<Id>): Team {
    var team := if t.mainTeamLeadId == id && replacement.Some? then t.(mainTeamLeadId := replacement.value) else t;
    if team.analystTeamLeadId == Some(id) then team.(analystTeamLeadId := None) else team
  }

  function CountRole(users: map<Id, User>, role: string): nat { |set id | id in users && users[id].role == role| }

  function DeleteRequestError(s: State, id: Id, actor: Id): Option<Error> {
    if id == "" then Some(UserNotFound)
    else if id == actor then Some(CannotDeleteSelf)
    else if id !in s.users then Some(UserNotFound)
    else if s.users[id].role == SUPERADMIN && CountRole(s.users, SUPERADMIN) <= 1 then Some(LastSuperadmin)
    else if actor != "" && actor !in s.users && (exists l :: l in s.leads && s.leads[l].createdById == Some(id)) then Some(ForeignKey)
    else None
  }

  /** `restricted`: a table outside this model still refers to the user. */
  function DeleteUserError(s: State, rawId: string, rawActor: string, picks: map<Id, Option<Id>>, restricted: bool): Option<Error>
    requires forall team :: team in s.teams ==> team in picks
  {
    var id := TrimSpace(rawId);
    if DeleteRequestError(s, id, TrimSpace(rawActor)).Some? then DeleteRequestError(s, id, TrimSpace(rawActor))
    else if exists team :: team in s.teams && s.teams[team].mainTeamLeadId == id && picks[team].None? then Some(DeleteBlocked)
    else if restricted then Some(DeleteBlocked)
    else None
  }

  /** `picks` is the replacement the database finds for each team. */
  function DeleteUser(s: State, rawId: string, rawActor: string, picks: map<Id, Option<Id>>, restricted: bool, now: Time)
    : Result<State, Error>
    requires forall team :: team in s.teams ==> team in picks
  {
    var e := DeleteUserError(s, rawId, rawActor, picks, restricted);
    var id, actor := TrimSpace(rawId), TrimSpace(rawActor);
    if e.Some? then Err(e.value)
    else
      Ok(s.(leads := map l | l in s.leads :: Detached(s.leads[l], id, actor, now),
            users := map u | u in s.users && u != id :: WithoutManager(s.users[u], id),
            teams := map t | t in s.teams :: WithoutLead(s.teams[t], id, picks[t])))
  }

  // ---------------------------------------------------------------- changing a role

  /** The update handler and UserStore.Update: a team is only taken from the request when
      somebody becomes a sales executive; any other change keeps the old team. */
  function ChangeRole(s: State, id: Id, role: string, salesTeam: Option<Id>): State
    requires id in s.users
  {
    var u := s.users[id];
    var team := if salesTeam.Some? && role == SALES_EXECUTIVE && u.role != SALES_EXECUTIVE then salesTeam else u.teamId;
    s.(users := s.users[id := u.(role := role, teamId := team)])
  }
}
