/** The operations on many rows, on the columns: which leads they touch, when they are refused
    and with which complaint, what they store and what they leave as it was. */
module RoutingFields {
  import opened Wrappers
  import opened Model
  import opened Text
  import opened LeadQuery
  import Qualification
  import opened Crm
  import opened Routing
  import opened LifecycleInvariants
  import opened LifecycleEffects
  import opened LifecycleFields

  // ---------------------------------------------------------------- the scope of a request

  /** The users as a list query sees them. */
  function UsersOnly(s: State): Db { Db([], s.users, map[], []) }

  /** The lead is the requester's, on each scope the request carries. */
  predicate BelongsTo(loc: Locale, s: State, a: Assignment, l: Lead) {
    var owner, team, exec, atl := TrimSpace(a.createdById), TrimSpace(a.teamId), TrimSpace(a.salesExecId), TrimSpace(a.analystTeamLeadId);
    && (owner == "" || l.createdById == Some(owner))
    && (team == "" || l.teamId == Some(team))
    && (exec == "" || l.assignedSalesExecId == Some(exec))
    && (atl == "" || Matches(loc, UsersOnly(s), l, CreatedByTeamOf(atl, TrimSpace(a.analystTeamName))))
  }

  lemma ScopeIsBelonging(loc: Locale, s: State, a: Assignment, l: Lead)
    ensures InScope(loc, s.users, a, l) <==> BelongsTo(loc, s, a, l)
  {
    hide TrimSpace, OnAnalystTeam;
  }

  // ---------------------------------------------------------------- assigning

  /** Both readings of a status take it as qualified. */
  predicate QualifiedStatus(loc: Locale, status: string) {
    && Qualification.Normalize(loc, status) in ["QUALIFIED", "QUALIFIED_CHAT", "QUALIFIED_CALL", "PAID", "ORGANIC"]
    && Map(loc.upper, BTrim(status)) in ["QUALIFIED", "QUALIFIED_CHAT", "QUALIFIED_CALL", "PAID", "ORGANIC"]
  }

  ghost predicate AssignFault(loc: Locale, s: State, a: Assignment, fallback: Option<Id>, e: Error) {
    var clean, found := CleanIds(a.leadIds), a.assigneeId in s.users;
    match e
    case NoLeadsSelected => clean == []
    case AssigneeRequired => TrimSpace(a.assigneeId) == ""
    case InvalidKind => a.kind != "team-lead" && a.kind != "member"
    case TooManyLeads => |clean| > 100
    case NoActor => TrimSpace(a.actorId) == "" && fallback.None?
    case AssigneeNotFound => !found
    case NotOnYourTeam =>
      && found && TrimSpace(a.teamId) != ""
      && (s.users[a.assigneeId].teamId.None? || TrimSpace(s.users[a.assigneeId].teamId.value) != TrimSpace(a.teamId))
    case NotATeamLead => found && a.kind == "team-lead" && s.users[a.assigneeId].role !in ["MAIN_TEAM_LEAD", "ANALYST_TEAM_LEAD"]
    case NotAMember => found && a.kind == "member" && s.users[a.assigneeId].role != "SALES_EXECUTIVE"
    case LeadsNotFound => exists id :: id in clean && !(id in s.leads && BelongsTo(loc, s, a, s.leads[id]))
    case NotQualified => exists id :: id in clean && id in s.leads && !QualifiedStatus(loc, s.leads[id].qualificationStatus)
    case _ => false
  }

  lemma AssignableIsQualified(loc: Locale, status: string)
    ensures Assignable(loc, status) <==> QualifiedStatus(loc, status)
  {
    hide Qualification.Normalize, BTrim, Map;
  }

  lemma AssignRequestRefusals(loc: Locale, s: State, a: Assignment, fallback: Option<Id>)
    ensures match AssignRequestError(s, a, fallback)
      case Some(e) => AssignFault(loc, s, a, fallback, e)
      case None => forall e :: AssignFault(loc, s, a, fallback, e) ==> e == LeadsNotFound || e == NotQualified
  {
    NoIdsNoClean(a.leadIds);
    hide TrimSpace, CleanIds, BelongsTo, QualifiedStatus;
  }

  lemma NoIdsNoClean(ids: seq<string>)
    ensures ids == [] ==> CleanIds(ids) == []
  {
  }

  /** Main result: an assignment is refused with a true complaint, and accepted when every
      selected lead exists, belongs to the requester on each scope given, and is qualified. */
  lemma AssignRefusals(loc: Locale, s: State, a: Assignment, fallback: Option<Id>, mtl: Option<Id>, now: Time)
    ensures match Assign(loc, s, a, fallback, mtl, now)
      case Err(e) => AssignFault(loc, s, a, fallback, e)
      case Ok(_) => forall e :: !AssignFault(loc, s, a, fallback, e)
  {
    AssignRequestRefusals(loc, s, a, fallback);
    hide TrimSpace, CleanIds, InScope, BelongsTo, Assignable, QualifiedStatus, AssignRequestError, AssignedLead;
    forall l { ScopeIsBelonging(loc, s, a, l); }
    forall status { AssignableIsQualified(loc, status); }
  }

  /** The row of one assigned lead, column by column. */
  predicate AssignStored(s: State, a: Assignment, mtl: Option<Id>, l: Lead, m: Lead, now: Time)
    requires a.assigneeId in s.users
  {
    && m.id == l.id && SameContact(l, m) && SameFlag(l, m) && SameStatus(l, m) && m.createdById == l.createdById && m.updatedAt == now
    && m.closedAt == l.closedAt && m.initialPayment == l.initialPayment && m.closedRevenue == l.closedRevenue
    && m.estimatedDealValue == l.estimatedDealValue && m.dealCurrency == l.dealCurrency && m.lostNotes == l.lostNotes
    && m.teamId == s.users[a.assigneeId].teamId
    && (if a.kind == "team-lead"
        then && m.assignedMainTeamLeadId == Some(a.assigneeId) && m.assignedSalesExecId.None? && m.execAssignedAt.None?
             && m.salesStage == "WITH_TEAM_LEAD"
        else && m.assignedSalesExecId == Some(a.assigneeId) && m.execAssignedAt == Some(now)
             && m.assignedMainTeamLeadId == (if mtl.Some? then mtl else l.assignedMainTeamLeadId)
             && m.salesStage == (if l.salesStage in ["PRE_SALES", "WITH_TEAM_LEAD", "NOT_CONNECTED", ""] then "WITH_EXECUTIVE"
                                 else l.salesStage))
  }

  lemma AssignColumns(s: State, a: Assignment, mtl: Option<Id>, l: Lead, now: Time)
    requires a.assigneeId in s.users
    ensures AssignStored(s, a, mtl, l, AssignedLead(s, a, mtl, l, now), now)
  {
  }

  /** Main result: exactly the selected leads get a new row, all of them belonged to the
      requester, and each gets one handoff row by the actor, in the order of the request. */
  lemma AssignOnFields(loc: Locale, s: State, a: Assignment, fallback: Option<Id>, mtl: Option<Id>, now: Time)
    requires Assign(loc, s, a, fallback, mtl, now).Ok?
    ensures var t, clean := Assign(loc, s, a, fallback, mtl, now).value, CleanIds(a.leadIds);
            var actor := if TrimSpace(a.actorId) != "" then Some(TrimSpace(a.actorId)) else fallback;
      && a.assigneeId in s.users && t.leads.Keys == s.leads.Keys
      && (forall id :: id in clean ==>
            && id in s.leads && BelongsTo(loc, s, a, s.leads[id]) && QualifiedStatus(loc, s.leads[id].qualificationStatus)
            && AssignStored(s, a, mtl, s.leads[id], t.leads[id], now))
      && (forall id :: id in s.leads && id !in clean ==> t.leads[id] == s.leads[id])
      && |t.handoffs| == |s.handoffs| + |clean| && s.handoffs <= t.handoffs
      && (forall i :: 0 <= i < |clean| ==>
            var h := t.handoffs[|s.handoffs| + i];
            h.leadId == clean[i] && h.actorId == actor && h.createdAt == now
            && h.action == if a.kind == "team-lead" then "ROUTED_TO_MAIN_TEAM" else "DIRECT_ASSIGNED_TO_EXECUTIVE_BY_ATL")
      && t.users == s.users && t.teams == s.teams && t.logs == s.logs && t.moves == s.moves
  {
    hide TrimSpace, BTrim, Assignable, InScope, CleanIds, AssignStored, AssignedLead, BelongsTo, QualifiedStatus;
    var t, clean := Assign(loc, s, a, fallback, mtl, now).value, CleanIds(a.leadIds);
    forall id | id in clean
      ensures id in s.leads && BelongsTo(loc, s, a, s.leads[id]) && QualifiedStatus(loc, s.leads[id].qualificationStatus)
      ensures AssignStored(s, a, mtl, s.leads[id], t.leads[id], now)
    {
      AssignColumns(s, a, mtl, s.leads[id], now);
      ScopeIsBelonging(loc, s, a, s.leads[id]);
      AssignableIsQualified(loc, s.leads[id].qualificationStatus);
    }
  }

  // ---------------------------------------------------------------- deleting leads

  lemma {:induction false} NonBlankLength(ids: seq<string>)
    ensures |NonBlank(ids)| == |set i | 0 <= i < |ids| && TrimSpace(ids[i]) != ""|
  {
    hide TrimSpace;
    if ids != [] {
      var last := |ids| - 1;
      NonBlankLength(ids[..last]);
      var rest := set i | 0 <= i < last && TrimSpace(ids[..last][i]) != "";
      assert rest == set i | 0 <= i < last && TrimSpace(ids[i]) != "";
      if TrimSpace(ids[last]) == "" {
        assert rest == set i | 0 <= i < |ids| && TrimSpace(ids[i]) != "";
      } else {
        assert rest + {last} == set i | 0 <= i < |ids| && TrimSpace(ids[i]) != "";
      }
    }
    assert ids == [] ==> {} == set i | 0 <= i < |ids| && TrimSpace(ids[i]) != "";
  }

  /** Main result: a deletion of leads is refused when no id or more than a hundred are given;
      otherwise exactly the named leads that belong to the requester go, with exactly their
      handoffs and histories. */
  lemma DeleteLeadsOnFields(loc: Locale, s: State, a: Assignment)
    ensures var r := DeleteLeads(loc, s, a);
            var given := |set i | 0 <= i < |a.leadIds| && TrimSpace(a.leadIds[i]) != ""|;
      && (r == Err(NoLeadsSelected) <==> given == 0) && (r == Err(TooManyLeads) <==> given > 100) && (r.Ok? <==> 1 <= given <= 100)
      && (r.Ok? ==>
            var t := r.value;
            && (forall id :: id in t.leads <==>
                  id in s.leads && !(id != "" && BelongsTo(loc, s, a, s.leads[id]) && exists raw :: raw in a.leadIds && TrimSpace(raw) == id))
            && (forall id :: id in t.leads ==> t.leads[id] == s.leads[id] && LogOf(t, id) == LogOf(s, id))
            && (forall id :: id in s.leads && id !in t.leads ==> LogOf(t, id) == [])
            && (forall h :: h in t.handoffs <==> h in s.handoffs && h.leadId !in s.leads.Keys - t.leads.Keys)
            && t.users == s.users && t.teams == s.teams && t.moves == s.moves)
  {
    NonBlankLength(a.leadIds);
    forall l { ScopeIsBelonging(loc, s, a, l); }
    hide TrimSpace, InScope, BelongsTo, NonBlank, KeepHandoffs;
    if DeleteLeads(loc, s, a).Ok? {
      DeleteLeadsEffect(loc, s, a);
    }
  }

  // ---------------------------------------------------------------- moving an executive

  function TeamOf(s: State, user: Id): string {
    if user in s.users && s.users[user].teamId.Some? then TrimSpace(s.users[user].teamId.value) else ""
  }

  /** What can be wrong with a transfer, complaint by complaint. */
  predicate TransferFault(s: State, t: Transfer, e: Error) {
    var exec, to, from := TrimSpace(t.salesExecId), TrimSpace(t.toTeamId), TeamOf(s, TrimSpace(t.salesExecId));
    var actorTeam := if t.actorTeamId.Some? then TrimSpace(t.actorTeamId.value) else "";
    match e
    case UserNotFound => exec == "" || exec !in s.users
    case TeamNotFound => to == "" || to !in s.teams || (from != "" && from !in s.teams)
    case ActorRequired => TrimSpace(t.actorId) == ""
    case NotSalesExecutive => exec in s.users && s.users[exec].role != "SALES_EXECUTIVE"
    case TeamConflict => TrimSpace(t.expectedTeamId) != "" && from != TrimSpace(t.expectedTeamId)
    case TransferForbidden =>
      || t.actorRole !in ["MAIN_TEAM_LEAD", "SUPERADMIN", "ANALYST_TEAM_LEAD"]
      || (t.actorRole == "MAIN_TEAM_LEAD"
          && (actorTeam == "" || from != actorTeam || (exec in s.users && s.users[exec].teamId.None?)))
    case SameTeam => from == to || (t.actorRole == "MAIN_TEAM_LEAD" && to == actorTeam)
    case NoMainTeamLead => to in s.teams && TrimSpace(s.teams[to].mainTeamLeadId) == ""
    case ForeignKey =>
      to in s.teams && TrimSpace(s.teams[to].mainTeamLeadId) !in s.users && exists id :: id in s.leads && s.leads[id].assignedSalesExecId == Some(exec)
    case _ => false
  }

  lemma HeldMeans(s: State, exec: Id)
    ensures LeadsHeld(s, exec) != {} <==> exists id :: id in s.leads && s.leads[id].assignedSalesExecId == Some(exec)
  {
    if id :| id in s.leads && s.leads[id].assignedSalesExecId == Some(exec) { assert id in LeadsHeld(s, exec); }
    if id :| id in LeadsHeld(s, exec) { assert s.leads[id].assignedSalesExecId == Some(exec); }
  }

  lemma TransferComplaint(s: State, t: Transfer)
    requires TransferError(s, t).Some?
    ensures TransferFault(s, t, TransferError(s, t).value)
  {
    hide TrimSpace, LeadsHeld;
    HeldMeans(s, TrimSpace(t.salesExecId));
  }

  lemma TransferFaultless(s: State, t: Transfer, e: Error)
    requires TransferError(s, t).None?
    ensures !TransferFault(s, t, e)
  {
    hide TrimSpace, LeadsHeld;
    HeldMeans(s, TrimSpace(t.salesExecId));
  }

  lemma TransferRefusals(s: State, t: Transfer, now: Time)
    ensures match TransferExec(s, t, now)
      case Err(e) => TransferFault(s, t, e)
      case Ok(_) => forall e :: !TransferFault(s, t, e)
  {
    hide TrimSpace, LeadsHeld, UpdateWhere, TransferError, TransferFault;
    if TransferError(s, t).Some? {
      TransferComplaint(s, t);
    } else {
      forall e { TransferFaultless(s, t, e); }
    }
  }

  predicate MoveStored(l: Lead, m: Lead, to: Id, lead: Id, now: Time) {
    && m.id == l.id && SameContact(l, m) && SameFlag(l, m) && SameStatus(l, m) && SameOutcome(l, m)
    && m.createdById == l.createdById && m.assignedSalesExecId == l.assignedSalesExecId && m.execAssignedAt == l.execAssignedAt
    && m.teamId == Some(to) && m.assignedMainTeamLeadId == Some(lead) && m.updatedAt == now
  }

  lemma MoveColumns(l: Lead, to: Id, lead: Id, now: Time)
    ensures MoveStored(l, Remapped(l, to, lead, now), to, lead, now)
  {
  }

  lemma TransferStores(s: State, t: Transfer, now: Time)
    requires TransferExec(s, t, now).Ok?
    ensures var u, exec, to := TransferExec(s, t, now).value, TrimSpace(t.salesExecId), TrimSpace(t.toTeamId);
      && exec in s.users && to in s.teams
      && u.users == s.users[exec := s.users[exec].(teamId := Some(to))]
      && u.leads.Keys == s.leads.Keys
      && (forall id :: id in s.leads ==>
            if s.leads[id].assignedSalesExecId == Some(exec)
            then MoveStored(s.leads[id], u.leads[id], to, TrimSpace(s.teams[to].mainTeamLeadId), now)
            else u.leads[id] == s.leads[id])
      && u.moves == s.moves + [TeamMove(exec, if TeamOf(s, exec) == "" then None else Some(TeamOf(s, exec)), to, TrimSpace(t.actorId), now)]
      && u.teams == s.teams && u.logs == s.logs && u.handoffs == s.handoffs
  {
    hide TrimSpace, LeadsHeld, MoveStored, Remapped;
    var to := TrimSpace(t.toTeamId);
    forall l { MoveColumns(l, to, TrimSpace(s.teams[to].mainTeamLeadId), now); }
  }

  /** Main result: a transfer is refused with a true complaint; an accepted one moves the
      executive, every lead they hold and the log, and nothing else. */
  lemma TransferOnFields(s: State, t: Transfer, now: Time)
    ensures match TransferExec(s, t, now)
      case Err(e) => TransferFault(s, t, e)
      case Ok(u) =>
        var exec, to := TrimSpace(t.salesExecId), TrimSpace(t.toTeamId);
        && (forall e :: !TransferFault(s, t, e))
        && exec in s.users && to in s.teams
        && u.users == s.users[exec := s.users[exec].(teamId := Some(to))]
        && u.leads.Keys == s.leads.Keys
        && (forall id :: id in s.leads ==>
              if s.leads[id].assignedSalesExecId == Some(exec)
              then MoveStored(s.leads[id], u.leads[id], to, TrimSpace(s.teams[to].mainTeamLeadId), now)
              else u.leads[id] == s.leads[id])
        && u.moves == s.moves + [TeamMove(exec, if TeamOf(s, exec) == "" then None else Some(TeamOf(s, exec)), to, TrimSpace(t.actorId), now)]
        && u.teams == s.teams && u.logs == s.logs && u.handoffs == s.handoffs
  {
    hide TransferExec, TransferFault, TrimSpace, MoveStored, TeamOf;
    TransferRefusals(s, t, now);
    if TransferExec(s, t, now).Ok? { TransferStores(s, t, now); }
  }

  // ---------------------------------------------------------------- deleting a user

  predicate DeleteUserFault(s: State, rawId: string, rawActor: string, picks: map<Id, Option<Id>>, restricted: bool, e: Error)
    requires forall team :: team in s.teams ==> team in picks
  {
    var id, actor := TrimSpace(rawId), TrimSpace(rawActor);
    match e
    case UserNotFound => id == "" || id !in s.users
    case CannotDeleteSelf => id == actor
    case LastSuperadmin =>
      id in s.users && s.users[id].role == "SUPERADMIN" && |set u | u in s.users && s.users[u].role == "SUPERADMIN"| <= 1
    case ForeignKey => actor != "" && actor !in s.users && exists l :: l in s.leads && s.leads[l].createdById == Some(id)
    case DeleteBlocked => restricted || exists team :: team in s.teams && s.teams[team].mainTeamLeadId == id && picks[team].None?
    case _ => false
  }

  lemma SuperadminCount(s: State)
    ensures CountRole(s.users, SUPERADMIN) == |set u | u in s.users && s.users[u].role == "SUPERADMIN"|
  {
    assert (set id | id in s.users && s.users[id].role == SUPERADMIN) == set u | u in s.users && s.users[u].role == "SUPERADMIN";
  }

  lemma DeleteUserRefusals(s: State, rawId: string, rawActor: string, picks: map<Id, Option<Id>>, restricted: bool, now: Time)
    requires forall team :: team in s.teams ==> team in picks
    ensures match DeleteUser(s, rawId, rawActor, picks, restricted, now)
      case Err(e) => DeleteUserFault(s, rawId, rawActor, picks, restricted, e)
      case Ok(_) => forall e :: !DeleteUserFault(s, rawId, rawActor, picks, restricted, e)
  {
    SuperadminCount(s);
    hide TrimSpace, CountRole, Detached, WithoutManager, WithoutLead;
  }

  /** The lead of a deleted user: nobody's where it was theirs, the actor's where they created it. */
  predicate DetachStored(l: Lead, m: Lead, id: Id, actor: Id) {
    var held := l.assignedSalesExecId == Some(id);
    && m.id == l.id && SameContact(l, m) && SameStatus(l, m)
    && m.notAppropriate == l.notAppropriate && m.notAppropriateReason == l.notAppropriateReason
    && m.notAppropriateById == (if l.notAppropriateById == Some(id) then None else l.notAppropriateById)
    && m.closedAt == l.closedAt && m.initialPayment == l.initialPayment && m.closedRevenue == l.closedRevenue
    && m.estimatedDealValue == l.estimatedDealValue && m.dealCurrency == l.dealCurrency && m.lostNotes == l.lostNotes
    && m.createdById == (if l.createdById != Some(id) then l.createdById else if actor != "" then Some(actor) else None)
    && m.assignedSalesExecId == (if held then None else l.assignedSalesExecId)
    && m.execAssignedAt == (if held then None else l.execAssignedAt)
    && m.teamId == (if held then None else l.teamId)
    && m.assignedMainTeamLeadId == (if held || l.assignedMainTeamLeadId == Some(id) then None else l.assignedMainTeamLeadId)
    && m.salesStage == (if held && l.salesStage in ["WITH_EXECUTIVE", "WITH_TEAM_LEAD"] then "PRE_SALES" else l.salesStage)
  }

  /** The columns no statement of the deletion writes. */
  predicate SameRest(l: Lead, m: Lead) {
    && m.id == l.id && SameContact(l, m) && SameStatus(l, m)
    && m.notAppropriate == l.notAppropriate && m.notAppropriateReason == l.notAppropriateReason
    && m.closedAt == l.closedAt && m.initialPayment == l.initialPayment && m.closedRevenue == l.closedRevenue
    && m.estimatedDealValue == l.estimatedDealValue && m.dealCurrency == l.dealCurrency && m.lostNotes == l.lostNotes
  }

  lemma StatementsKeepRest(l: Lead, id: Id, actor: Id, now: Time)
    ensures SameRest(l, Recreated(l, id, actor, now)) && SameRest(l, Unheld(l, id, now)) && SameRest(l, Unled(l, id, now))
    ensures SameRest(l, Unflagged(l, id, now)) && SameRest(l, Orphaned(l, id))
  {
  }

  lemma RestTrans(a: Lead, b: Lead, c: Lead)
    requires SameRest(a, b) && SameRest(b, c)
    ensures SameRest(a, c)
  {
  }

  lemma DetachKeepsRest(l: Lead, id: Id, actor: Id, now: Time)
    ensures SameRest(l, Detached(l, id, actor, now))
  {
    hide Recreated, Unheld, Unled, Unflagged, Orphaned, SameRest;
    var a := Recreated(l, id, actor, now);
    var b := Unheld(a, id, now);
    var c := Unled(b, id, now);
    var d := Unflagged(c, id, now);
    StatementsKeepRest(l, id, actor, now);
    StatementsKeepRest(a, id, actor, now);
    StatementsKeepRest(b, id, actor, now);
    StatementsKeepRest(c, id, actor, now);
    StatementsKeepRest(d, id, actor, now);
    RestTrans(l, a, b);
    RestTrans(l, b, c);
    RestTrans(l, c, d);
    RestTrans(l, d, Orphaned(d, id));
  }

  lemma ReleasedSpelt(l: Lead, now: Time)
    ensures Released(l, now).salesStage == if l.salesStage in ["WITH_EXECUTIVE", "WITH_TEAM_LEAD"] then "PRE_SALES" else l.salesStage
  {
  }

  lemma DetachColumns(l: Lead, id: Id, actor: Id, now: Time)
    requires id != actor
    ensures DetachStored(l, Detached(l, id, actor, now), id, actor)
  {
    hide Detached, Released;
    DetachedSales(l, id, actor, now);
    DetachKeepsRest(l, id, actor, now);
    ReleasedSpelt(l, now);
  }

  /** Teams and users lose their pointers to the deleted user. */
  ghost predicate UserGone(s: State, t: State, id: Id, actor: Id, picks: map<Id, Option<Id>>)
    requires forall team :: team in s.teams ==> team in picks
  {
    && t.leads.Keys == s.leads.Keys && (forall l :: l in s.leads ==> DetachStored(s.leads[l], t.leads[l], id, actor))
    && t.users.Keys == s.users.Keys - {id}
    && (forall u :: u in t.users ==>
          t.users[u] == s.users[u].(managerId := if s.users[u].managerId == Some(id) then None else s.users[u].managerId))
    && t.teams.Keys == s.teams.Keys
    && (forall team :: team in s.teams ==>
          var before, after := s.teams[team], t.teams[team];
          && after.id == before.id && after.name == before.name
          && after.analystTeamLeadId == (if before.analystTeamLeadId == Some(id) then None else before.analystTeamLeadId)
          && (before.mainTeamLeadId != id ==> after.mainTeamLeadId == before.mainTeamLeadId)
          && (before.mainTeamLeadId == id ==> Some(after.mainTeamLeadId) == picks[team]))
    && t.logs == s.logs && t.handoffs == s.handoffs && t.moves == s.moves
  }

  lemma DeleteUserStores(s: State, rawId: string, rawActor: string, picks: map<Id, Option<Id>>, restricted: bool, now: Time)
    requires forall team :: team in s.teams ==> team in picks
    requires DeleteUser(s, rawId, rawActor, picks, restricted, now).Ok?
    ensures UserGone(s, DeleteUser(s, rawId, rawActor, picks, restricted, now).value, TrimSpace(rawId), TrimSpace(rawActor), picks)
  {
    hide TrimSpace, CountRole, Detached, DetachStored;
    var id, actor := TrimSpace(rawId), TrimSpace(rawActor);
    forall l | l in s.leads ensures DetachStored(s.leads[l], Detached(s.leads[l], id, actor, now), id, actor) {
      DetachColumns(s.leads[l], id, actor, now);
    }
  }

  /** Main result: a deletion is refused with a true complaint; an accepted one takes the user
      away, and every lead, team and user keeps all columns but the pointers to them. */
  lemma DeleteUserOnFields(s: State, rawId: string, rawActor: string, picks: map<Id, Option<Id>>, restricted: bool, now: Time)
    requires forall team :: team in s.teams ==> team in picks
    ensures match DeleteUser(s, rawId, rawActor, picks, restricted, now)
      case Err(e) => DeleteUserFault(s, rawId, rawActor, picks, restricted, e)
      case Ok(t) =>
        && (forall e :: !DeleteUserFault(s, rawId, rawActor, picks, restricted, e))
        && UserGone(s, t, TrimSpace(rawId), TrimSpace(rawActor), picks)
  {
    hide DeleteUser, DeleteUserFault, UserGone, TrimSpace;
    DeleteUserRefusals(s, rawId, rawActor, picks, restricted, now);
    if DeleteUser(s, rawId, rawActor, picks, restricted, now).Ok? {
      DeleteUserStores(s, rawId, rawActor, picks, restricted, now);
    }
  }

  /** A role change stores the role, and the team only for somebody who becomes a sales
      executive with a team given. */
  lemma ChangeRoleOnFields(s: State, id: Id, role: string, salesTeam: Option<Id>)
    requires id in s.users
    ensures var t, u := ChangeRole(s, id, role, salesTeam), s.users[id];
      && t.users.Keys == s.users.Keys && (forall k :: k in s.users && k != id ==> t.users[k] == s.users[k])
      && t.users[id].role == role
      && t.users[id].teamId == (if role == "SALES_EXECUTIVE" && u.role != "SALES_EXECUTIVE" && salesTeam.Some? then salesTeam else u.teamId)
      && t.users[id].(role := u.role, teamId := u.teamId) == u
      && t.leads == s.leads && t.teams == s.teams && t.logs == s.logs && t.handoffs == s.handoffs
  {
  }
}
