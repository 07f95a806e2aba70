/** Runs of the life cycle: any operations in any order, refused ones changing nothing. */
module LifecycleRuns {
  import opened Wrappers
  import opened Model
  import opened Text
  import opened LeadQuery
  import opened Qualification
  import opened Crm
  import opened Routing
  import opened LifecycleInvariants

  /** One call, with what the environment contributes: a fresh id, the clock, and the rows
      an ORDER BY .. LIMIT 1 query returns. */
  datatype Step =
    | CreateLead(id: Id, profile: Profile, fallback: Option<Id>, at: Time)
    | EditLead(leadId: Id, profile: Profile, at: Time)
    | Patch(leadId: Id, status: string, at: Time)
    | Mark(leadId: Id, reason: string, actor: string, at: Time)
    | Seed(leadId: Id)
    | SetOutcome(leadId: Id, outcome: Outcome, at: Time)
    | AssignLeads(assignment: Assignment, fallback: Option<Id>, mtl: Option<Id>, at: Time)
    | RemoveLeads(assignment: Assignment)
    | MoveExecutive(transfer: Transfer, at: Time)
    | RemoveUser(userId: string, actor: string, picks: map<Id, Option<Id>>, restricted: bool, at: Time)

  /** The environment plays by its rules. */
  ghost predicate Possible(s: State, step: Step) {
    match step
    case CreateLead(id, _, _, _) => id !in s.leads && id != "" && TrimSpace(id) == id
    case AssignLeads(a, _, mtl, _) => MtlFound(s, a, mtl)
    case RemoveUser(id, _, picks, _, _) => Replacements(s, TrimSpace(id), picks)
    case _ => true
  }

  function Performed(loc: Locale, s: State, step: Step): Result<State, Error>
    requires step.RemoveUser? ==> forall team :: team in s.teams ==> team in step.picks
  {
    match step
    case CreateLead(id, p, fallback, at) => Create(loc, s, id, p, fallback, at)
    case EditLead(id, p, at) => Update(loc, s, id, p, at)
    case Patch(id, status, at) => PatchStatus(loc, s, id, status, at)
    case Mark(id, reason, actor, at) => MarkNotAppropriate(s, id, reason, actor, at)
    case Seed(id) => Ok(SeedLog(s, id))
    case SetOutcome(id, o, at) => UpdateOutcome(s, id, o, at)
    case AssignLeads(a, fallback, mtl, at) => Assign(loc, s, a, fallback, mtl, at)
    case RemoveLeads(a) => DeleteLeads(loc, s, a)
    case MoveExecutive(t, at) => TransferExec(s, t, at)
    case RemoveUser(id, actor, picks, restricted, at) => DeleteUser(s, id, actor, picks, restricted, at)
  }

  ghost predicate StepTo(loc: Locale, s: State, step: Step, t: State) {
    Possible(s, step) && t == match Performed(loc, s, step) case Ok(next) => next case Err(_) => s
  }

  lemma StepKeeps(loc: Locale, s: State, step: Step, t: State)
    requires Invariant(s) && StepTo(loc, s, step, t)
    ensures Invariant(t)
  {
    hide Invariant, MtlFound, Create, Update, PatchStatus, MarkNotAppropriate, SeedLog, UpdateOutcome, Assign,
         DeleteLeads, TransferExec, DeleteUser, TrimSpace;
    if Performed(loc, s, step).Ok? {
      match step
      case CreateLead(id, p, fallback, at) => CreateKeeps(loc, s, id, p, fallback, at);
      case EditLead(id, p, at) => UpdateKeeps(loc, s, id, p, at);
      case Patch(id, status, at) => PatchKeeps(loc, s, id, status, at);
      case Mark(id, reason, actor, at) => MarkKeeps(s, id, reason, actor, at);
      case Seed(id) => SeedKeeps(s, id);
      case SetOutcome(id, o, at) => OutcomeKeeps(s, id, o, at);
      case AssignLeads(a, fallback, mtl, at) => AssignKeeps(loc, s, a, fallback, mtl, at);
      case RemoveLeads(a) => DeleteLeadsKeeps(loc, s, a);
      case MoveExecutive(transfer, at) => TransferKeeps(s, transfer, at);
      case RemoveUser(id, actor, picks, restricted, at) => DeleteUserKeeps(s, id, actor, picks, restricted, at);
    }
  }

  /** states[i] is the database after i steps. */
  ghost predicate Run(loc: Locale, states: seq<State>, steps: seq<Step>) {
    && |states| == |steps| + 1
    && forall i :: 0 <= i < |steps| ==> StepTo(loc, states[i], steps[i], states[i + 1])
  }

  /** Main result: the invariant holds in every state of every run that starts with it. */
  lemma {:induction false} RunKeepsInvariant(loc: Locale, states: seq<State>, steps: seq<Step>, i: nat)
    requires Run(loc, states, steps) && Invariant(states[0]) && i < |states|
    ensures Invariant(states[i])
  {
    hide Invariant, StepTo;
    if i > 0 {
      RunKeepsInvariant(loc, states, steps, i - 1);
      StepKeeps(loc, states[i - 1], steps[i - 1], states[i]);
    }
  }

  /** A database with users and teams but no leads yet has the invariant, so every state
      reached from one has it. */
  lemma EmptyDatabase(users: map<Id, User>, teams: map<Id, Team>)
    requires forall id :: id in users ==> users[id].id == id && id != "" && TrimSpace(id) == id && Known(users, users[id].managerId)
    requires forall id :: id in teams ==> TeamRefs(users, teams[id])
    ensures Invariant(State(map[], users, teams, [], map[], []))
  {
  }

  /** What a reader of any reachable state may rely on, spelt out. */
  lemma ReachableLead(loc: Locale, states: seq<State>, steps: seq<Step>, i: nat, id: Id)
    requires Run(loc, states, steps) && Invariant(states[0]) && i < |states| && id in states[i].leads
    ensures var s := states[i];
            var l, log := s.leads[id], LogOf(s, id);
      && (l.salesStage in CLOSED ==> l.closedAt.Some?)
      && (l.salesStage == "CLOSED_WON" ==> l.closedRevenue.Some? && l.closedRevenue.value > 0.0)
      && (l.salesStage == "PRE_SALES" ==> Unassigned(l))
      && (l.salesStage == "WITH_EXECUTIVE" ==> l.assignedSalesExecId.Some?)
      && (l.assignedSalesExecId.Some? ==> l.salesStage != "PRE_SALES" && l.salesStage != "WITH_TEAM_LEAD")
      && (l.execAssignedAt.Some? <==> l.assignedSalesExecId.Some?)
      && (l.assignedSalesExecId.Some? ==>
            l.assignedSalesExecId.value in s.users && l.teamId == s.users[l.assignedSalesExecId.value].teamId)
      && (log != [] ==> log[|log| - 1].to == l.qualificationStatus && l.qualificationEnteredAt == Some(log[|log| - 1].at))
      && Chain(log)
  {
    hide Invariant, Run;
    RunKeepsInvariant(loc, states, steps, i);
    StoredLeadOk(states[i], id);
    hide Chain, TrimSpace;
  }

  // ---------------------------------------------------------------- what one move does

  /** Main result: a transfer moves the executive and exactly their leads; no other lead
      changes in any column, and no lead appears or disappears. */
  lemma TransferMovesExactly(s: State, t: Transfer, now: Time)
    requires TransferExec(s, t, now).Ok?
    ensures var u, exec, to := TransferExec(s, t, now).value, TrimSpace(t.salesExecId), TrimSpace(t.toTeamId);
      && u.leads.Keys == s.leads.Keys
      && (forall id :: id in s.leads && id !in LeadsHeld(s, exec) ==> u.leads[id] == s.leads[id])
      && (forall id :: id in LeadsHeld(s, exec) ==>
            u.leads[id].teamId == Some(to) && u.leads[id].assignedSalesExecId == Some(exec)
            && u.leads[id].assignedMainTeamLeadId == Some(TrimSpace(s.teams[to].mainTeamLeadId))
            && u.leads[id].salesStage == s.leads[id].salesStage)
      && LeadsHeld(u, exec) == LeadsHeld(s, exec)
      && u.users[exec].teamId == Some(to)
      && (forall id :: id in s.users && id != exec ==> u.users[id] == s.users[id])
  {
    hide TrimSpace;
  }

  /** Moving back undoes the team pointers of the executive and of their leads. */
  lemma MovingBackRestoresTeams(s: State, t: Transfer, back: Transfer, now: Time, later: Time)
    requires Invariant(s) && TransferExec(s, t, now).Ok? && TransferExec(TransferExec(s, t, now).value, back, later).Ok?
    requires TrimSpace(back.salesExecId) == TrimSpace(t.salesExecId)
    requires s.users[TrimSpace(t.salesExecId)].teamId == Some(TrimSpace(back.toTeamId))
    ensures var v := TransferExec(TransferExec(s, t, now).value, back, later).value;
      && v.users == s.users
      && v.leads.Keys == s.leads.Keys
      && forall id :: id in s.leads ==> v.leads[id].teamId == s.leads[id].teamId
  {
    var u, exec := TransferExec(s, t, now).value, TrimSpace(t.salesExecId);
    TransferMovesExactly(s, t, now);
    TransferMovesExactly(u, back, later);
    var v := TransferExec(u, back, later).value;
    hide TrimSpace, TransferExec, StageOk, HistoryOk, LeadRefs, Keys, Stages, Histories, References;
    forall id | id in s.leads ensures v.leads[id].teamId == s.leads[id].teamId {
      if id in LeadsHeld(s, exec) {
        assert OnExecTeam(s.users, s.leads[id]);
      }
    }
    assert v.users == s.users by { BackToSameUsers(s, t, back, now, later); }
  }

  lemma BackToSameUsers(s: State, t: Transfer, back: Transfer, now: Time, later: Time)
    requires TransferExec(s, t, now).Ok? && TransferExec(TransferExec(s, t, now).value, back, later).Ok?
    requires TrimSpace(back.salesExecId) == TrimSpace(t.salesExecId)
    requires s.users[TrimSpace(t.salesExecId)].teamId == Some(TrimSpace(back.toTeamId))
    ensures TransferExec(TransferExec(s, t, now).value, back, later).value.users == s.users
  {
    hide TrimSpace, UpdateWhere;
    var exec := TrimSpace(t.salesExecId);
    var u, to := s.users[exec], TrimSpace(t.toTeamId);
    assert u.(teamId := Some(to)).(teamId := Some(TrimSpace(back.toTeamId))) == u;
  }

  /** Changing a role through the user form keeps "a lead is on its executive's team" exactly
      when the request does not promote to sales executive on another team, or the user holds
      no lead. */
  lemma ChangeRoleKeepsTeamsIff(s: State, id: Id, role: string, salesTeam: Option<Id>)
    requires ExecTeams(s) && id in s.users
    ensures ExecTeams(ChangeRole(s, id, role, salesTeam))
       <==> || !(role == SALES_EXECUTIVE && s.users[id].role != SALES_EXECUTIVE
                 && salesTeam.Some? && salesTeam != s.users[id].teamId)
            || LeadsHeld(s, id) == {}
  {
    var t := ChangeRole(s, id, role, salesTeam);
    if ExecTeams(t) && LeadsHeld(s, id) != {} {
      var l :| l in LeadsHeld(s, id);
      assert OnExecTeam(s.users, s.leads[l]) && OnExecTeam(t.users, t.leads[l]);
    }
    if LeadsHeld(s, id) == {} {
      forall l | l in t.leads ensures OnExecTeam(t.users, t.leads[l]) {
        assert OnExecTeam(s.users, s.leads[l]);
        assert l !in LeadsHeld(s, id);
      }
    }
    if t.users[id].teamId == s.users[id].teamId {
      forall l | l in t.leads ensures OnExecTeam(t.users, t.leads[l]) {
        assert OnExecTeam(s.users, s.leads[l]);
      }
    }
  }

  /** The run that gets there: an executive with leads is demoted, keeps them, and is promoted
      again with another team. */
  lemma DemoteAndPromoteLosesTeam(s: State, id: Id, team: Id)
    requires ExecTeams(s) && id in s.users && s.users[id].role == SALES_EXECUTIVE
    requires LeadsHeld(s, id) != {} && s.users[id].teamId != Some(team)
    ensures var demoted := ChangeRole(s, id, LEAD_ANALYST, None);
      ExecTeams(demoted) && !ExecTeams(ChangeRole(demoted, id, SALES_EXECUTIVE, Some(team)))
  {
    var demoted := ChangeRole(s, id, LEAD_ANALYST, None);
    ChangeRoleKeepsTeamsIff(s, id, LEAD_ANALYST, None);
    ChangeRoleKeepsTeamsIff(demoted, id, SALES_EXECUTIVE, Some(team));
    assert LeadsHeld(demoted, id) == LeadsHeld(s, id);
  }

  // ---------------------------------------------------------------- reads outside the transaction

  /** The UPDATE of an outcome request on the stored row: the columns it sets come from the
      row it read. */
  function WrittenFrom(read: Lead, row: Lead, o: Outcome, now: Time): Lead {
    var m := WithOutcome(read, o, now);
    row.(salesStage := if o.stage.Some? then m.salesStage else row.salesStage,
         closedAt := if o.stage.Some? then m.closedAt else row.closedAt,
         initialPayment := if o.payment.Some? then m.initialPayment else row.initialPayment,
         closedRevenue := if o.revenue.Some? then m.closedRevenue else row.closedRevenue,
         estimatedDealValue := if o.revenue.Some? then m.estimatedDealValue else row.estimatedDealValue,
         dealCurrency := if o.revenue.Some? then m.dealCurrency else row.dealCurrency,
         lostNotes := if o.notes.Some? then m.lostNotes else row.lostNotes,
         updatedAt := now)
  }

  predicate Wins(o: Outcome) { o.stage.Some? && TrimSpace(o.stage.value) == "CLOSED_WON" }

  predicate TakesRevenue(o: Outcome) {
    o.revenue.Some? && (o.revenue.value.None? || o.revenue.value.value <= 0.0)
  }

  /** One request closes the lead as won and relies on the stored revenue or stage that the
      other one replaces. */
  predicate Collide(a: Outcome, b: Outcome) {
    (Wins(b) && b.revenue.None? && TakesRevenue(a)) || (Wins(a) && b.stage.None? && TakesRevenue(b))
  }

  /** A request that read the row it writes is the outcome itself. */
  lemma WrittenAlone(l: Lead, o: Outcome, now: Time)
    ensures WrittenFrom(l, l, o, now) == WithOutcome(l, o, now)
  {
    hide TrimSpace;
  }

  /** Main result: two outcome requests that both read the same row, and were both accepted
      against it, leave a consistent row if and only if they do not collide. */
  lemma StaleOutcomesKeepStageIff(l: Lead, a: Outcome, b: Outcome, now: Time, later: Time)
    requires StageOk(l) && OutcomeError(l, a).None? && OutcomeError(l, b).None?
    ensures StageOk(WrittenFrom(l, WrittenFrom(l, l, a, now), b, later)) <==> !Collide(a, b)
  {
    hide TrimSpace;
  }

  /** The case in full: one request closes the lead as won on the stored revenue, the other
      removes the revenue.  Both checks pass, and the row ends as won without revenue, which
      the second check would have refused on the row as it then was. */
  lemma StaleChecksLoseRevenue(l: Lead, now: Time, later: Time)
    requires StageOk(l) && l.salesStage == "IN_NEGOTIATION" && l.closedRevenue.Some? && l.closedRevenue.value > 0.0
    ensures var win, clear := Outcome(Some("CLOSED_WON"), None, None, None), Outcome(None, None, Some(None), None);
      && OutcomeError(l, win).None? && OutcomeError(l, clear).None?
      && OutcomeError(WithOutcome(l, win, now), clear) == Some(RevenueRequired)
      && var both := WrittenFrom(l, WrittenFrom(l, l, win, now), clear, later);
         both.salesStage == "CLOSED_WON" && both.closedRevenue.None? && !StageOk(both)
  {
    TightIsTrimmed("CLOSED_WON", IsSpace);
    assert TrimSpace("CLOSED_WON") == "CLOSED_WON";
    hide TrimSpace;
  }

  /** Main result: two status patches that both read the same current status leave a chain if
      and only if one of them changes nothing; otherwise the second row does not start where
      the first one ended. */
  lemma StalePatchKeepsChainIff(l: Lead, log: seq<QualEntry>, first: string, second: string, now: Time, later: Time)
    requires HistoryOk(l, log) && first in ALLOWED && second in ALLOWED
    ensures var one := Logged(log, l.qualificationStatus, first, now, "patch_qual");
      && Chain(one)
      && (Chain(Logged(one, l.qualificationStatus, second, later, "patch_qual"))
          <==> first == l.qualificationStatus || second == l.qualificationStatus)
  {
    AllowedIsTrimmed(first);
    AllowedIsTrimmed(second);
    hide TrimSpace;
    var status := l.qualificationStatus;
    var one := Logged(log, status, first, now, "patch_qual");
    if first != status {
      LoggingKeepsHistory(l, log, first, now, "patch_qual", Requalified(l, first, now));
    }
    if first == status && second != status {
      LoggingKeepsHistory(l, log, second, later, "patch_qual", Requalified(l, second, later));
    }
    if first != status && second != status {
      var two := Logged(one, status, second, later, "patch_qual");
      assert two[|one|].from == (if status == "" then None else Some(status)) && two[|one| - 1].to == first;
    }
  }

  /** A mark reads the status before its transaction: the history row starts from that status,
      while the UPDATE works on the stored one. */
  function MarkLog(log: seq<QualEntry>, read: string, now: Time): seq<QualEntry> {
    if TrimSpace(read) != "IRRELEVANT" then Logged(log, read, "IRRELEVANT", now, "not_appropriate") else log
  }

  /** Main result: marking a lead whose status was read earlier keeps the history if and only if
      the status read is still the stored one.  A lead without history loses it only when the
      stored status has become IRRELEVANT at another time and the status read was not. */
  lemma StaleMarkKeepsHistoryIff(l: Lead, log: seq<QualEntry>, read: string, reason: string, actor: string, now: Time)
    requires HistoryOk(l, log)
    ensures HistoryOk(Flagged(l, reason, actor, now), MarkLog(log, read, now))
       <==> if log != [] then TrimSpace(read) == l.qualificationStatus
            else TrimSpace(read) == "IRRELEVANT" || l.qualificationStatus != "IRRELEVANT" || l.qualificationEnteredAt == Some(now)
  {
    TightIsTrimmed("IRRELEVANT", IsSpace);
    assert TrimSpace("IRRELEVANT") == "IRRELEVANT";
    TrimSpaceStable(read);
    var m, next := Flagged(l, reason, actor, now), MarkLog(log, read, now);
    FlaggedColumns(l, reason, actor, now);
    hide TrimSpace, Flagged;
    if TrimSpace(read) != "IRRELEVANT" {
      var from := if TrimSpace(read) == "" then None else Some(TrimSpace(read));
      assert next == log + [QualEntry(from, "IRRELEVANT", now, "not_appropriate")];
      if log != [] {
        assert next[|log| - 1] == log[|log| - 1];
        if from == Some(l.qualificationStatus) {
          forall i | 0 < i < |next| ensures next[i].from == Some(next[i - 1].to) {
            assert i < |log| ==> next[i] == log[i] && next[i - 1] == log[i - 1];
          }
        } else {
          assert next[|log|].from != Some(next[|log| - 1].to);
        }
      }
    }
  }

  lemma FlaggedColumns(l: Lead, reason: string, actor: string, now: Time)
    ensures var m := Flagged(l, reason, actor, now);
      && m.qualificationStatus == "IRRELEVANT"
      && m.qualificationEnteredAt == if l.qualificationStatus != "IRRELEVANT" then Some(now) else l.qualificationEnteredAt
  {
  }

  /** The leads after an assignment that read the assignee from `read` and writes in `s`. */
  function AssignedFrom(read: State, s: State, a: Assignment, mtl: Option<Id>, now: Time): State
    requires a.assigneeId in read.users
  {
    s.(leads := map id | id in s.leads ::
         if id in CleanIds(a.leadIds) then AssignedLead(read, a, mtl, s.leads[id], now) else s.leads[id])
  }

  /** Main result: an assignment whose assignee was read before its transaction keeps every lead
      on its executive's team if and only if it routes to a team lead, or the assignee still is
      on the team read. */
  lemma StaleAssignKeepsTeamsIff(read: State, s: State, a: Assignment, mtl: Option<Id>, now: Time)
    requires ExecTeams(s) && a.assigneeId in read.users && a.assigneeId in s.users
    requires CleanIds(a.leadIds) != [] && forall id :: id in CleanIds(a.leadIds) ==> id in s.leads
    ensures ExecTeams(AssignedFrom(read, s, a, mtl, now))
       <==> a.kind == "team-lead" || s.users[a.assigneeId].teamId == read.users[a.assigneeId].teamId
  {
    hide CleanIds;
    var t, first := AssignedFrom(read, s, a, mtl, now), CleanIds(a.leadIds)[0];
    assert first in t.leads;
    assert a.kind != "team-lead" && s.users[a.assigneeId].teamId != read.users[a.assigneeId].teamId
        ==> !OnExecTeam(t.users, t.leads[first]);
    forall id | id in t.leads && id !in CleanIds(a.leadIds) ensures OnExecTeam(t.users, t.leads[id]) {
      assert OnExecTeam(s.users, s.leads[id]);
    }
  }

  /** The case in full: the executive is moved between the read and the transaction. */
  lemma MoveBetweenBreaksTeams(s: State, move: Transfer, a: Assignment, mtl: Option<Id>, now: Time)
    requires Invariant(s) && TransferExec(s, move, now).Ok?
    requires a.kind == "member" && a.assigneeId == TrimSpace(move.salesExecId)
    requires CleanIds(a.leadIds) != [] && forall id :: id in CleanIds(a.leadIds) ==> id in s.leads
    ensures !ExecTeams(AssignedFrom(s, TransferExec(s, move, now).value, a, mtl, now))
  {
    TransferMovesExactly(s, move, now);
    TransferKeeps(s, move, now);
    MoveChangesTeam(s, move, now);
    hide TransferExec, CleanIds, TrimSpace, AssignedFrom, Keys, Stages, Histories, References;
    StaleAssignKeepsTeamsIff(s, TransferExec(s, move, now).value, a, mtl, now);
  }

  lemma MoveChangesTeam(s: State, move: Transfer, now: Time)
    requires Invariant(s) && TransferExec(s, move, now).Ok?
    ensures s.users[TrimSpace(move.salesExecId)].teamId != Some(TrimSpace(move.toTeamId))
  {
    TrimSpaceStable(move.toTeamId);
    hide TrimSpace, Invariant, LeadsHeld;
  }
}
