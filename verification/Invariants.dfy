/** What every run of the life cycle keeps. */
module LifecycleInvariants {
  import opened Wrappers
  import opened Model
  import opened Text
  import opened LeadQuery
  import opened Qualification
  import opened Crm
  import opened Routing

  // ---------------------------------------------------------------- stages

  /** The sales side of one lead. */
  predicate StageOk(l: Lead) {
    && (l.salesStage in CLOSED ==> l.closedAt.Some?)
    && (l.salesStage == "CLOSED_WON" ==> l.closedRevenue.Some? && l.closedRevenue.value > 0.0)
    && (l.salesStage == "WITH_EXECUTIVE" ==> l.assignedSalesExecId.Some?)
    && (l.assignedSalesExecId.Some? ==> l.salesStage != "PRE_SALES" && l.salesStage != "WITH_TEAM_LEAD")
    && (l.execAssignedAt.Some? <==> l.assignedSalesExecId.Some?)
    && (l.salesStage == "PRE_SALES" ==> Unassigned(l))
  }

  lemma FlagKeepsStage(l: Lead, reason: string, actor: string, now: Time)
    requires StageOk(l)
    ensures StageOk(Flagged(l, reason, actor, now))
  {
  }

  lemma OutcomeKeepsStage(l: Lead, o: Outcome, now: Time)
    requires StageOk(l) && OutcomeError(l, o).None?
    ensures StageOk(WithOutcome(l, o, now))
  {
  }

  lemma AssignKeepsStage(l: Lead, who: Id, team: Option<Id>, mtl: Option<Id>, now: Time)
    requires StageOk(l)
    ensures StageOk(Routed(l, who, team, now)) && StageOk(HandedTo(l, who, team, mtl, now))
  {
  }

  lemma RemapKeepsStage(l: Lead, id: Id, to: Id, mtl: Id, now: Time)
    requires StageOk(l) && HeldBy(l, id)
    ensures StageOk(Remapped(l, to, mtl, now))
  {
  }

  /** The pointers of m are those of l without the user; everything else that matters to
      an invariant is the same. */
  predicate SameButPointers(l: Lead, m: Lead) {
    && m.id == l.id && m.qualificationStatus == l.qualificationStatus && m.qualificationEnteredAt == l.qualificationEnteredAt
    && m.closedAt == l.closedAt && m.closedRevenue == l.closedRevenue && m.estimatedDealValue == l.estimatedDealValue
  }

  /** The columns the sales invariants look at. */
  predicate SameSales(l: Lead, m: Lead) {
    && m.assignedSalesExecId == l.assignedSalesExecId && m.execAssignedAt == l.execAssignedAt
    && m.teamId == l.teamId && m.salesStage == l.salesStage
  }

  lemma RecreatedColumns(l: Lead, id: Id, actor: string, now: Time)
    ensures var m := Recreated(l, id, actor, now);
      SameButPointers(l, m) && SameSales(l, m)
      && m.assignedMainTeamLeadId == l.assignedMainTeamLeadId && m.notAppropriateById == l.notAppropriateById
      && m.createdById == if actor != "" && l.createdById == Some(id) then Some(actor) else l.createdById
  {
  }

  lemma UnheldColumns(l: Lead, id: Id, now: Time)
    ensures var m := Unheld(l, id, now);
      SameButPointers(l, m) && m.createdById == l.createdById && m.notAppropriateById == l.notAppropriateById
      && (if HeldBy(l, id)
          then && m.assignedSalesExecId == None && m.execAssignedAt == None && m.teamId == m.assignedMainTeamLeadId == None
               && m.salesStage == Released(l, now).salesStage
          else m == l)
  {
  }

  lemma UnledColumns(l: Lead, id: Id, now: Time)
    ensures var m := Unled(l, id, now);
      SameButPointers(l, m) && SameSales(l, m) && m.createdById == l.createdById && m.notAppropriateById == l.notAppropriateById
      && m.assignedMainTeamLeadId == if l.assignedMainTeamLeadId == Some(id) then None else l.assignedMainTeamLeadId
  {
  }

  lemma UnflaggedColumns(l: Lead, id: Id, now: Time)
    ensures var m := Unflagged(l, id, now);
      SameButPointers(l, m) && SameSales(l, m) && m.createdById == l.createdById
      && m.assignedMainTeamLeadId == l.assignedMainTeamLeadId
      && m.notAppropriateById == if l.notAppropriateById == Some(id) then None else l.notAppropriateById
  {
  }

  lemma OrphanedColumns(l: Lead, id: Id)
    ensures var m := Orphaned(l, id);
      SameButPointers(l, m) && SameSales(l, m)
      && m.assignedMainTeamLeadId == l.assignedMainTeamLeadId && m.notAppropriateById == l.notAppropriateById
      && m.createdById == if l.createdById == Some(id) then None else l.createdById
  {
  }

  /** What the five statements leave of a lead's sales columns and pointers. */
  lemma DetachedSales(l: Lead, id: Id, actor: string, now: Time)
    ensures var d := Detached(l, id, actor, now);
      && SameButPointers(l, d)
      && d.assignedSalesExecId == (if HeldBy(l, id) then None else l.assignedSalesExecId)
      && d.execAssignedAt == (if HeldBy(l, id) then None else l.execAssignedAt)
      && d.teamId == (if HeldBy(l, id) then None else l.teamId)
      && d.salesStage == (if HeldBy(l, id) then Released(l, now).salesStage else l.salesStage)
      && d.assignedMainTeamLeadId ==
           (if HeldBy(l, id) || l.assignedMainTeamLeadId == Some(id) then None else l.assignedMainTeamLeadId)
      && d.notAppropriateById == (if l.notAppropriateById == Some(id) then None else l.notAppropriateById)
      && d.createdById == (if l.createdById != Some(id) then l.createdById
                           else if actor != "" && actor != id then Some(actor) else None)
  {
    hide Recreated, Unheld, Unled, Unflagged, Orphaned;
    var a := Recreated(l, id, actor, now);
    var b := Unheld(a, id, now);
    var c := Unled(b, id, now);
    var d := Unflagged(c, id, now);
    RecreatedColumns(l, id, actor, now);
    UnheldColumns(a, id, now);
    UnledColumns(b, id, now);
    UnflaggedColumns(c, id, now);
    OrphanedColumns(d, id);
    ReleasedStage(a, l, now);
  }

  lemma ReleasedStage(l: Lead, m: Lead, now: Time)
    requires l.salesStage == m.salesStage
    ensures Released(l, now).salesStage == Released(m, now).salesStage
  {
  }

  lemma DetachKeepsStage(l: Lead, id: Id, actor: string, now: Time)
    requires StageOk(l)
    ensures StageOk(Detached(l, id, actor, now))
  {
    DetachedSales(l, id, actor, now);
    hide Detached;
  }

  /** The converse of the first invariant is not kept: routing a closed lead to a team lead
      changes its stage and leaves the closing time. */
  lemma RoutingLeavesClosedAt(l: Lead, lead: Id, team: Option<Id>, now: Time)
    ensures (Routed(l, lead, team, now).closedAt.Some? ==> Routed(l, lead, team, now).salesStage in CLOSED) <==> l.closedAt.None?
  {
  }

  // ---------------------------------------------------------------- histories

  /** Each row starts from the status the row before it reached, and goes somewhere else. */
  ghost predicate Chain(log: seq<QualEntry>) {
    && (forall i :: 0 <= i < |log| ==> log[i].to != "" && log[i].from != Some(log[i].to))
    && (forall i :: 0 < i < |log| ==> log[i].from == Some(log[i - 1].to))
  }

  /** The history ends at the lead's status and at the time it was entered. */
  ghost predicate HistoryOk(l: Lead, log: seq<QualEntry>) {
    && TrimSpace(l.qualificationStatus) == l.qualificationStatus
    && Chain(log)
    && (log != [] ==> log[|log| - 1].to == l.qualificationStatus && l.qualificationEnteredAt == Some(log[|log| - 1].at))
  }

  lemma LoggingKeepsHistory(l: Lead, log: seq<QualEntry>, status: string, at: Time, source: string, m: Lead)
    requires HistoryOk(l, log)
    requires TrimSpace(status) == status && status != "" && status != l.qualificationStatus
    requires m.qualificationStatus == status && m.qualificationEnteredAt == Some(at)
    ensures HistoryOk(m, Logged(log, l.qualificationStatus, status, at, source))
  {
    var from := if l.qualificationStatus == "" then None else Some(l.qualificationStatus);
    var next := Logged(log, l.qualificationStatus, status, at, source);
    assert next == log + [QualEntry(from, status, at, source)];
    forall i | 0 < i < |next| ensures next[i].from == Some(next[i - 1].to) {
      if i == |log| {
        assert next[i - 1] == log[|log| - 1];
      } else {
        assert next[i] == log[i] && next[i - 1] == log[i - 1];
      }
    }
  }

  /** Marking keeps "the last row's time is qualificationEnteredAt" exactly when the stored
      status is not "IRRELEVANT" with space around it: then it stamps a time and writes no row. */
  lemma MarkKeepsTimeIff(l: Lead, log: seq<QualEntry>, reason: string, actor: string, now: Time)
    requires log != [] && l.qualificationEnteredAt == Some(log[|log| - 1].at) && now != log[|log| - 1].at
    ensures var status := l.qualificationStatus;
            var next := if TrimSpace(status) != "IRRELEVANT" then Logged(log, status, "IRRELEVANT", now, "not_appropriate") else log;
            Flagged(l, reason, actor, now).qualificationEnteredAt == Some(next[|next| - 1].at)
            <==> !(TrimSpace(status) == "IRRELEVANT" && status != "IRRELEVANT")
  {
    TightIsTrimmed("IRRELEVANT", IsSpace);
    assert TrimSpace("IRRELEVANT") == "IRRELEVANT";
    assert Flagged(l, reason, actor, now).qualificationEnteredAt
        == if l.qualificationStatus != "IRRELEVANT" then Some(now) else l.qualificationEnteredAt;
    hide TrimSpace, Flagged;
  }

  // ---------------------------------------------------------------- the whole database

  ghost predicate Keys(s: State) {
    && (forall id :: id in s.leads ==> s.leads[id].id == id && id != "" && TrimSpace(id) == id)
    && (forall id :: id in s.users ==> s.users[id].id == id && id != "" && TrimSpace(id) == id)
    && (forall id :: id in s.logs ==> id in s.leads)
  }

  ghost predicate Stages(s: State) { forall id :: id in s.leads ==> StageOk(s.leads[id]) }

  ghost predicate Histories(s: State) { forall id :: id in s.leads ==> HistoryOk(s.leads[id], LogOf(s, id)) }

  /** A lead held by an executive is on the executive's team. */
  predicate OnExecTeam(users: map<Id, User>, l: Lead) {
    l.assignedSalesExecId.Some? ==>
      l.assignedSalesExecId.value in users && l.teamId == users[l.assignedSalesExecId.value].teamId
  }

  ghost predicate ExecTeams(s: State) { forall id :: id in s.leads ==> OnExecTeam(s.users, s.leads[id]) }

  predicate Known(users: map<Id, User>, id: Option<Id>) { id.None? || id.value in users }

  predicate LeadRefs(users: map<Id, User>, l: Lead) {
    Known(users, l.createdById) && Known(users, l.assignedMainTeamLeadId) && Known(users, l.notAppropriateById)
  }

  predicate TeamRefs(users: map<Id, User>, t: Team) {
    t.mainTeamLeadId in users && TrimSpace(t.mainTeamLeadId) == t.mainTeamLeadId && Known(users, t.analystTeamLeadId)
  }

  ghost predicate References(s: State) {
    && (forall id :: id in s.leads ==> LeadRefs(s.users, s.leads[id]))
    && (forall id :: id in s.teams ==> TeamRefs(s.users, s.teams[id]))
    && (forall id :: id in s.users ==> Known(s.users, s.users[id].managerId))
  }

  ghost predicate Invariant(s: State) { Keys(s) && Stages(s) && Histories(s) && ExecTeams(s) && References(s) }

  /** Replacing one lead and its history. */
  function Put(s: State, l: Lead, log: seq<QualEntry>): State {
    s.(leads := s.leads[l.id := l], logs := s.logs[l.id := log])
  }

  lemma PutKeeps(s: State, l: Lead, log: seq<QualEntry>)
    requires Invariant(s) && l.id != "" && TrimSpace(l.id) == l.id
    requires StageOk(l) && HistoryOk(l, log) && OnExecTeam(s.users, l) && LeadRefs(s.users, l)
    ensures Invariant(Put(s, l, log))
  {
    hide Keys, Stages, Histories, ExecTeams, References;
    PutKeepsKeys(s, l, log);
    PutKeepsHistories(s, l, log);
    PutKeepsLeads(s, l, log);
  }

  lemma PutKeepsKeys(s: State, l: Lead, log: seq<QualEntry>)
    requires Keys(s) && l.id != "" && TrimSpace(l.id) == l.id
    ensures Keys(Put(s, l, log))
  {
    hide TrimSpace;
  }

  lemma PutKeepsLeads(s: State, l: Lead, log: seq<QualEntry>)
    requires Stages(s) && ExecTeams(s) && References(s)
    requires StageOk(l) && OnExecTeam(s.users, l) && LeadRefs(s.users, l)
    ensures Stages(Put(s, l, log)) && ExecTeams(Put(s, l, log)) && References(Put(s, l, log))
  {
    hide StageOk, OnExecTeam, LeadRefs, TeamRefs, Known;
  }

  lemma PutKeepsHistories(s: State, l: Lead, log: seq<QualEntry>)
    requires Histories(s) && HistoryOk(l, log)
    ensures Histories(Put(s, l, log))
  {
    hide HistoryOk;
    var t := Put(s, l, log);
    forall id | id in t.leads ensures HistoryOk(t.leads[id], LogOf(t, id)) {
      assert id != l.id ==> LogOf(t, id) == LogOf(s, id);
    }
  }

  // ---------------------------------------------------------------- one operation at a time

  lemma NewLeadOk(users: map<Id, User>, id: Id, profile: Profile, status: string, creator: Id, createdAt: Time, now: Time)
    requires status in ALLOWED && creator in users
    ensures var l := NewLead(id, profile, status, creator, createdAt, now);
      l.id == id && StageOk(l) && HistoryOk(l, Logged([], "", status, createdAt, "create"))
      && OnExecTeam(users, l) && LeadRefs(users, l)
  {
    AllowedIsTrimmed(status);
    assert TrimSpace("") == "";
    hide TrimSpace;
    assert Logged([], "", status, createdAt, "create") == [QualEntry(None, status, createdAt, "create")];
  }

  lemma CreateKeeps(loc: Locale, s: State, id: Id, profile: Profile, fallback: Option<Id>, now: Time)
    requires Invariant(s) && id !in s.leads && id != "" && TrimSpace(id) == id
    requires Create(loc, s, id, profile, fallback, now).Ok?
    ensures Invariant(Create(loc, s, id, profile, fallback, now).value)
  {
    hide TrimSpace, Normalize, NewLead, Logged, Invariant, StageOk, HistoryOk, OnExecTeam, LeadRefs, RangeError;
    var t := Create(loc, s, id, profile, fallback, now).value;
    var status := Normalize(loc, profile.status);
    var creator := CreatorOf(profile, fallback).value;
    var createdAt := if profile.createdAt.Some? then profile.createdAt.value else now;
    var l, log := NewLead(id, profile, status, creator, createdAt, now), Logged([], "", status, createdAt, "create");
    NewLeadOk(s.users, id, profile, status, creator, createdAt, now);
    PutKeeps(s, l, log);
    assert t.leads == Put(s, l, log).leads && t.logs == Put(s, l, log).logs;
    OnlyNews(Put(s, l, log), t);
  }

  /** Handoffs and moves are outside the invariant. */
  lemma OnlyNews(s: State, t: State)
    requires Invariant(s) && t.leads == s.leads && t.users == s.users && t.teams == s.teams && t.logs == s.logs
    ensures Invariant(t)
  {
    hide StageOk, HistoryOk, OnExecTeam, LeadRefs, TeamRefs, TrimSpace;
  }

  /** What the single-lead operations leave alone. */
  predicate SameAssignment(l: Lead, m: Lead) {
    && m.id == l.id && m.assignedSalesExecId == l.assignedSalesExecId && m.teamId == l.teamId
    && m.createdById == l.createdById && m.assignedMainTeamLeadId == l.assignedMainTeamLeadId
  }

  lemma EditKeeps(users: map<Id, User>, l: Lead, log: seq<QualEntry>, profile: Profile, status: string, now: Time)
    requires StageOk(l) && HistoryOk(l, log) && OnExecTeam(users, l) && LeadRefs(users, l)
    requires status in ALLOWED || status == l.qualificationStatus
    ensures var m := Edited(l, profile, status, now);
      m.id == l.id && StageOk(m) && OnExecTeam(users, m) && LeadRefs(users, m)
      && HistoryOk(m, if StatusChanged(l.qualificationStatus, status) then Logged(log, l.qualificationStatus, status, now, "update") else log)
  {
    var m := Edited(l, profile, status, now);
    if status in ALLOWED {
      AllowedIsTrimmed(status);
    }
    hide TrimSpace;
    assert SameAssignment(l, m) && StageOk(m);
    if StatusChanged(l.qualificationStatus, status) {
      LoggingKeepsHistory(l, log, status, now, "update", m);
    }
  }

  /** What the invariant says about one stored lead. */
  ghost predicate LeadOk(s: State, id: Id)
    requires id in s.leads
  {
    && s.leads[id].id == id && id != "" && TrimSpace(id) == id
    && StageOk(s.leads[id]) && HistoryOk(s.leads[id], LogOf(s, id))
    && OnExecTeam(s.users, s.leads[id]) && LeadRefs(s.users, s.leads[id])
  }

  lemma StoredLeadOk(s: State, id: Id)
    requires Invariant(s) && id in s.leads
    ensures LeadOk(s, id)
  {
    hide StageOk, HistoryOk, OnExecTeam, LeadRefs, TeamRefs, TrimSpace;
  }

  /** t is s with one lead replaced and its history grown. */
  ghost predicate Replaces(s: State, t: State, m: Lead, next: seq<QualEntry>) {
    && t.leads == s.leads[m.id := m] && t.users == s.users && t.teams == s.teams
    && (t.logs == s.logs[m.id := next] || (t.logs == s.logs && next == LogOf(s, m.id)))
  }

  lemma ReplacingKeeps(s: State, t: State, m: Lead, next: seq<QualEntry>)
    requires Invariant(s) && Replaces(s, t, m, next) && m.id in s.leads
    requires StageOk(m) && HistoryOk(m, next) && OnExecTeam(s.users, m) && LeadRefs(s.users, m)
    ensures Invariant(t)
  {
    hide Invariant, StageOk, HistoryOk, OnExecTeam, LeadRefs, TrimSpace;
    StoredLeadOk(s, m.id);
    PutKeeps(s, m, next);
    SameHistories(Put(s, m, next), t);
  }

  /** An absent history is an empty one. */
  lemma SameHistories(s: State, t: State)
    requires Invariant(s) && t.leads == s.leads && t.users == s.users && t.teams == s.teams
    requires forall id :: LogOf(t, id) == LogOf(s, id)
    requires forall id :: id in t.logs ==> id in s.logs
    ensures Invariant(t)
  {
    hide StageOk, HistoryOk, OnExecTeam, LeadRefs, TeamRefs, TrimSpace;
  }

  lemma UpdateKeeps(loc: Locale, s: State, id: Id, profile: Profile, now: Time)
    requires Invariant(s) && Update(loc, s, id, profile, now).Ok?
    ensures Invariant(Update(loc, s, id, profile, now).value)
  {
    hide TrimSpace, Normalize, Edited, Logged, Invariant, StageOk, HistoryOk, OnExecTeam, LeadRefs, RangeError, StatusChanged;
    StoredLeadOk(s, id);
    var l, log, code := s.leads[id], LogOf(s, id), Normalize(loc, profile.status);
    var status := if code in ALLOWED then code else profile.status;
    EditKeeps(s.users, l, log, profile, status, now);
    var next := if StatusChanged(l.qualificationStatus, status) then Logged(log, l.qualificationStatus, status, now, "update") else log;
    ReplacingKeeps(s, Update(loc, s, id, profile, now).value, Edited(l, profile, status, now), next);
  }

  lemma PatchKeeps(loc: Locale, s: State, id: Id, status: string, now: Time)
    requires Invariant(s) && PatchStatus(loc, s, id, status, now).Ok?
    ensures Invariant(PatchStatus(loc, s, id, status, now).value)
  {
    hide TrimSpace, Normalize, Logged, Invariant, StageOk, HistoryOk, OnExecTeam, LeadRefs;
    var key, code := TrimSpace(id), Normalize(loc, status);
    AllowedIsTrimmed(code);
    StoredLeadOk(s, key);
    var l := s.leads[key];
    if TrimSpace(l.qualificationStatus) != code {
      RequalifyKeeps(s.users, l, LogOf(s, key), code, now);
      ReplacingKeeps(s, PatchStatus(loc, s, id, status, now).value, Requalified(l, code, now),
                     Logged(LogOf(s, key), l.qualificationStatus, code, now, "patch_qual"));
    }
  }

  lemma RequalifyKeeps(users: map<Id, User>, l: Lead, log: seq<QualEntry>, status: string, now: Time)
    requires StageOk(l) && HistoryOk(l, log) && OnExecTeam(users, l) && LeadRefs(users, l)
    requires TrimSpace(status) == status && status != "" && TrimSpace(l.qualificationStatus) != status
    ensures var m := Requalified(l, status, now);
      StageOk(m) && OnExecTeam(users, m) && LeadRefs(users, m)
      && HistoryOk(m, Logged(log, l.qualificationStatus, status, now, "patch_qual"))
  {
    hide TrimSpace, Logged;
    LoggingKeepsHistory(l, log, status, now, "patch_qual", Requalified(l, status, now));
  }

  lemma FlaggedKeeps(users: map<Id, User>, l: Lead, log: seq<QualEntry>, reason: string, actor: string, now: Time)
    requires StageOk(l) && HistoryOk(l, log) && OnExecTeam(users, l) && LeadRefs(users, l)
    requires actor == "" || actor in users
    ensures var m := Flagged(l, reason, actor, now);
      m.id == l.id && StageOk(m) && OnExecTeam(users, m) && LeadRefs(users, m)
      && HistoryOk(m, if TrimSpace(l.qualificationStatus) != "IRRELEVANT"
                      then Logged(log, l.qualificationStatus, "IRRELEVANT", now, "not_appropriate") else log)
  {
    var m := Flagged(l, reason, actor, now);
    AllowedIsTrimmed("IRRELEVANT");
    FlagKeepsStage(l, reason, actor, now);
    hide TrimSpace, Logged, StageOk;
    assert SameAssignment(l, m);
    if TrimSpace(l.qualificationStatus) != "IRRELEVANT" {
      LoggingKeepsHistory(l, log, "IRRELEVANT", now, "not_appropriate", m);
    }
  }

  lemma MarkKeeps(s: State, id: Id, reason: string, actor: string, now: Time)
    requires Invariant(s) && MarkNotAppropriate(s, id, reason, actor, now).Ok?
    ensures Invariant(MarkNotAppropriate(s, id, reason, actor, now).value)
  {
    hide TrimSpace, Logged, Invariant, StageOk, HistoryOk, OnExecTeam, LeadRefs, Flagged;
    var key := TrimSpace(id);
    StoredLeadOk(s, key);
    var l := s.leads[key];
    if !l.notAppropriate {
      FlaggedKeeps(s.users, l, LogOf(s, key), TrimSpace(reason), TrimSpace(actor), now);
      var next := if TrimSpace(l.qualificationStatus) != "IRRELEVANT"
                  then Logged(LogOf(s, key), l.qualificationStatus, "IRRELEVANT", now, "not_appropriate") else LogOf(s, key);
      ReplacingKeeps(s, MarkNotAppropriate(s, id, reason, actor, now).value, Flagged(l, TrimSpace(reason), TrimSpace(actor), now), next);
    }
  }

  lemma SeedKeeps(s: State, id: Id)
    requires Invariant(s)
    ensures Invariant(SeedLog(s, id))
  {
    hide Invariant, StageOk, TrimSpace;
    if SeedLog(s, id) != s {
      StoredLeadOk(s, id);
      var l := s.leads[id];
      var m := l.(qualificationEnteredAt := Some(l.createdAt));
      assert SameAssignment(l, m) && StageOk(m) by { SeededStage(l); }
      var next := Logged([], "", TrimSpace(l.qualificationStatus), l.createdAt, "backfill");
      BlankTrims();
      assert next == [QualEntry(None, l.qualificationStatus, l.createdAt, "backfill")];
      ReplacingKeeps(s, SeedLog(s, id), m, next);
    }
  }

  lemma SeededStage(l: Lead)
    requires StageOk(l)
    ensures StageOk(l.(qualificationEnteredAt := Some(l.createdAt)))
  {
  }

  lemma OutcomeKeeps(s: State, id: Id, o: Outcome, now: Time)
    requires Invariant(s) && UpdateOutcome(s, id, o, now).Ok?
    ensures Invariant(UpdateOutcome(s, id, o, now).value)
  {
    hide Invariant, StageOk, HistoryOk, OnExecTeam, LeadRefs, WithOutcome, OutcomeError, TrimSpace;
    if o != Outcome(None, None, None, None) {
      StoredLeadOk(s, id);
      OutcomeRowKeeps(s.users, s.leads[id], LogOf(s, id), o, now);
      ReplacingKeeps(s, UpdateOutcome(s, id, o, now).value, WithOutcome(s.leads[id], o, now), LogOf(s, id));
    }
  }

  lemma OutcomeRowKeeps(users: map<Id, User>, l: Lead, log: seq<QualEntry>, o: Outcome, now: Time)
    requires StageOk(l) && HistoryOk(l, log) && OnExecTeam(users, l) && LeadRefs(users, l) && OutcomeError(l, o).None?
    ensures var m := WithOutcome(l, o, now);
      m.id == l.id && StageOk(m) && HistoryOk(m, log) && OnExecTeam(users, m) && LeadRefs(users, m)
  {
    OutcomeKeepsStage(l, o, now);
    var m := WithOutcome(l, o, now);
    assert SameAssignment(l, m) && m.notAppropriateById == l.notAppropriateById;
    assert m.qualificationStatus == l.qualificationStatus && m.qualificationEnteredAt == l.qualificationEnteredAt;
    hide WithOutcome, StageOk, TrimSpace;
  }

  // ---------------------------------------------------------------- many rows at once

  /** A changed row that keeps its part of the invariant under the new users. */
  ghost predicate RowKept(users: map<Id, User>, l: Lead, m: Lead) {
    && m.id == l.id && m.qualificationStatus == l.qualificationStatus && m.qualificationEnteredAt == l.qualificationEnteredAt
    && StageOk(m) && OnExecTeam(users, m) && LeadRefs(users, m)
  }

  ghost predicate UsersOk(s: State) {
    && (forall id :: id in s.users ==> s.users[id].id == id && id != "" && TrimSpace(id) == id)
    && (forall id :: id in s.users ==> Known(s.users, s.users[id].managerId))
    && (forall id :: id in s.teams ==> TeamRefs(s.users, s.teams[id]))
  }

  lemma RowsKeep(s: State, t: State)
    requires Invariant(s) && UsersOk(t) && t.logs == s.logs && t.leads.Keys == s.leads.Keys
    requires forall id :: id in s.leads ==> RowKept(t.users, s.leads[id], t.leads[id])
    ensures Invariant(t)
  {
    hide StageOk, Chain, OnExecTeam, LeadRefs, TeamRefs, TrimSpace, Known;
    assert forall id :: id in t.leads <==> id in s.leads by {
      forall id ensures id in t.leads <==> id in s.leads {
        assert id in t.leads.Keys <==> id in s.leads.Keys;
      }
    }
    forall id | id in t.leads ensures HistoryOk(t.leads[id], LogOf(t, id)) {
      assert HistoryOk(s.leads[id], LogOf(s, id)) && LogOf(t, id) == LogOf(s, id);
    }
  }

  lemma InvariantUsers(s: State)
    requires Invariant(s)
    ensures UsersOk(s)
  {
    hide StageOk, HistoryOk, OnExecTeam, LeadRefs, TeamRefs, TrimSpace, Known;
  }

  /** The team lead the database finds for a member assignment. */
  ghost predicate MtlFound(s: State, a: Assignment, mtl: Option<Id>) {
    if a.kind == "member" && a.assigneeId in s.users && s.users[a.assigneeId].teamId.Some?
    then OldestTeamLead(s.users, s.users[a.assigneeId].teamId.value, None, mtl)
    else mtl.None?
  }

  lemma AssignedRowKept(s: State, a: Assignment, mtl: Option<Id>, l: Lead, now: Time)
    requires StageOk(l) && LeadRefs(s.users, l) && a.assigneeId in s.users && Known(s.users, mtl)
    ensures RowKept(s.users, l, AssignedLead(s, a, mtl, l, now))
  {
    AssignKeepsStage(l, a.assigneeId, s.users[a.assigneeId].teamId, mtl, now);
    var m := AssignedLead(s, a, mtl, l, now);
    assert m.createdById == l.createdById && m.notAppropriateById == l.notAppropriateById;
    hide StageOk;
  }

  lemma AssignKeeps(loc: Locale, s: State, a: Assignment, fallback: Option<Id>, mtl: Option<Id>, now: Time)
    requires Invariant(s) && MtlFound(s, a, mtl) && Assign(loc, s, a, fallback, mtl, now).Ok?
    ensures Invariant(Assign(loc, s, a, fallback, mtl, now).value)
  {
    hide Invariant, InScope, Assignable, CleanIds, AssignedLead, AssignHandoffs, TrimSpace, RowKept, UsersOk, StageOk, OnExecTeam, LeadRefs, HistoryOk;
    var t := Assign(loc, s, a, fallback, mtl, now).value;
    InvariantUsers(s);
    forall id | id in s.leads ensures RowKept(s.users, s.leads[id], t.leads[id]) {
      StoredLeadOk(s, id);
      AssignedRowKept(s, a, mtl, s.leads[id], now);
      SameRowKept(s.users, s.leads[id]);
    }
    assert UsersOk(t) by { SameUsers(s, t); }
    RowsKeep(s, t);
  }

  lemma SameRowKept(users: map<Id, User>, l: Lead)
    requires StageOk(l) && OnExecTeam(users, l) && LeadRefs(users, l)
    ensures RowKept(users, l, l)
  {
  }

  lemma SameUsers(s: State, t: State)
    requires UsersOk(s) && t.users == s.users && t.teams == s.teams
    ensures UsersOk(t)
  {
  }

  lemma DeleteLeadsKeeps(loc: Locale, s: State, a: Assignment)
    requires Invariant(s) && DeleteLeads(loc, s, a).Ok?
    ensures Invariant(DeleteLeads(loc, s, a).value)
  {
    hide StageOk, HistoryOk, OnExecTeam, LeadRefs, TeamRefs, TrimSpace, Known, DeletedIds, KeepHandoffs, NonBlank;
  }

  lemma RemappedRowKept(s: State, exec: Id, to: Id, mtl: Id, l: Lead, now: Time)
    requires StageOk(l) && OnExecTeam(s.users, l) && LeadRefs(s.users, l) && exec in s.users
    requires HeldBy(l, exec) ==> mtl in s.users
    ensures var users := s.users[exec := s.users[exec].(teamId := Some(to))];
      RowKept(users, l, if HeldBy(l, exec) then Remapped(l, to, mtl, now) else l)
  {
    if HeldBy(l, exec) {
      RemapKeepsStage(l, exec, to, mtl, now);
    }
    hide StageOk;
  }

  lemma TransferKeeps(s: State, t: Transfer, now: Time)
    requires Invariant(s) && TransferExec(s, t, now).Ok?
    ensures Invariant(TransferExec(s, t, now).value)
  {
    hide Invariant, TrimSpace, RowKept, UsersOk, StageOk, OnExecTeam, LeadRefs, HistoryOk, Remapped, HeldBy;
    var u, exec, to := TransferExec(s, t, now).value, TrimSpace(t.salesExecId), TrimSpace(t.toTeamId);
    var mtl := TrimSpace(s.teams[to].mainTeamLeadId);
    InvariantUsers(s);
    forall id | id in s.leads ensures RowKept(u.users, s.leads[id], u.leads[id]) {
      StoredLeadOk(s, id);
      assert HeldBy(s.leads[id], exec) ==> id in LeadsHeld(s, exec);
      RemappedRowKept(s, exec, to, mtl, s.leads[id], now);
    }
    MovedUserOk(s, u, exec, Some(to));
    RowsKeep(s, u);
  }

  lemma MovedUserOk(s: State, t: State, exec: Id, team: Option<Id>)
    requires UsersOk(s) && exec in s.users && t.users == s.users[exec := s.users[exec].(teamId := team)] && t.teams == s.teams
    ensures UsersOk(t)
  {
    hide TrimSpace;
  }

  // ---------------------------------------------------------------- deleting a user

  /** The replacement the database finds for every team. */
  ghost predicate Replacements(s: State, id: Id, picks: map<Id, Option<Id>>) {
    forall team :: team in s.teams ==> team in picks && OldestTeamLead(s.users, team, Some(id), picks[team])
  }

  lemma DetachedRefs(users: map<Id, User>, l: Lead, id: Id, actor: string, now: Time)
    requires LeadRefs(users, l) && (actor == "" || l.createdById != Some(id) || (actor in users && actor != id))
    ensures var d := Detached(l, id, actor, now);
      && Known(users, d.createdById) && d.createdById != Some(id)
      && Known(users, d.assignedMainTeamLeadId) && d.assignedMainTeamLeadId != Some(id)
      && Known(users, d.notAppropriateById) && d.notAppropriateById != Some(id)
      && d.assignedSalesExecId != Some(id)
  {
    DetachedSales(l, id, actor, now);
    hide Detached;
  }

  predicate Points(l: Lead, id: Id) {
    || l.createdById == Some(id) || l.assignedSalesExecId == Some(id)
    || l.assignedMainTeamLeadId == Some(id) || l.notAppropriateById == Some(id)
  }

  lemma DetachedRowKept(users: map<Id, User>, l: Lead, id: Id, actor: string, now: Time)
    requires StageOk(l) && OnExecTeam(users, l) && LeadRefs(users, l)
    requires actor == "" || l.createdById != Some(id) || (actor in users && actor != id)
    ensures var rest := map u | u in users && u != id :: WithoutManager(users[u], id);
      RowKept(rest, l, Detached(l, id, actor, now))
    ensures !Points(Detached(l, id, actor, now), id)
  {
    DetachKeepsStage(l, id, actor, now);
    DetachedSales(l, id, actor, now);
    DetachedRefs(users, l, id, actor, now);
    DetachedId(l, id, actor, now);
    hide StageOk, Detached;
  }

  lemma DetachedId(l: Lead, id: Id, actor: string, now: Time)
    ensures Detached(l, id, actor, now).id == l.id
  {
    DetachedSales(l, id, actor, now);
    hide Detached;
  }

  lemma RemainingUsersOk(s: State, t: State, id: Id, picks: map<Id, Option<Id>>)
    requires UsersOk(s) && Replacements(s, id, picks)
    requires forall team :: team in s.teams && s.teams[team].mainTeamLeadId == id ==> picks[team].Some?
    requires t.users == map u | u in s.users && u != id :: WithoutManager(s.users[u], id)
    requires t.teams == map team | team in s.teams :: WithoutLead(s.teams[team], id, picks[team])
    ensures UsersOk(t)
  {
    hide TrimSpace;
    forall team | team in t.teams ensures TeamRefs(t.users, t.teams[team]) {
      assert OldestTeamLead(s.users, team, Some(id), picks[team]);
      assert TeamRefs(s.users, s.teams[team]);
    }
  }

  lemma DeleteUserKeeps(s: State, rawId: string, rawActor: string, picks: map<Id, Option<Id>>, restricted: bool, now: Time)
    requires Invariant(s) && Replacements(s, TrimSpace(rawId), picks)
    requires DeleteUser(s, rawId, rawActor, picks, restricted, now).Ok?
    ensures Invariant(DeleteUser(s, rawId, rawActor, picks, restricted, now).value)
  {
    hide Invariant, TrimSpace, RowKept, UsersOk, StageOk, OnExecTeam, LeadRefs, HistoryOk, Detached, CountRole, OldestTeamLead, WithoutManager, WithoutLead;
    var t := DeleteUser(s, rawId, rawActor, picks, restricted, now).value;
    InvariantUsers(s);
    forall l | l in s.leads ensures RowKept(t.users, s.leads[l], t.leads[l]) {
      StoredLeadOk(s, l);
      DetachedRowKept(s.users, s.leads[l], TrimSpace(rawId), TrimSpace(rawActor), now);
    }
    RemainingUsersOk(s, t, TrimSpace(rawId), picks);
    RowsKeep(s, t);
  }

  /** Main result: deleting a user keeps every lead.  On success nothing refers to the user
      any more and every team has an existing main team lead, a replacement being the
      oldest other one of that team. */
  lemma DeleteUserLeavesNoTrace(s: State, rawId: string, rawActor: string, picks: map<Id, Option<Id>>, restricted: bool, now: Time)
    requires Invariant(s) && Replacements(s, TrimSpace(rawId), picks)
    requires DeleteUser(s, rawId, rawActor, picks, restricted, now).Ok?
    ensures var t, id := DeleteUser(s, rawId, rawActor, picks, restricted, now).value, TrimSpace(rawId);
      && t.leads.Keys == s.leads.Keys
      && id !in t.users && t.users.Keys == s.users.Keys - {id}
      && (forall l :: l in t.leads ==> !Points(t.leads[l], id))
      && (forall u :: u in t.users ==> t.users[u].managerId != Some(id))
      && t.teams.Keys == s.teams.Keys
      && (forall team :: team in t.teams ==>
            && t.teams[team].mainTeamLeadId in t.users && t.teams[team].analystTeamLeadId != Some(id)
            && (s.teams[team].mainTeamLeadId == id ==> IsLeadOf(t.users[t.teams[team].mainTeamLeadId], team))
            && (s.teams[team].mainTeamLeadId != id ==> t.teams[team].mainTeamLeadId == s.teams[team].mainTeamLeadId))
  {
    hide TrimSpace, StageOk, HistoryOk, OnExecTeam, LeadRefs, Detached, CountRole, Points, Keys, Stages, Histories, ExecTeams;
    var t, id := DeleteUser(s, rawId, rawActor, picks, restricted, now).value, TrimSpace(rawId);
    forall l | l in t.leads ensures !Points(t.leads[l], id) {
      StoredLeadOk(s, l);
      DetachedRowKept(s.users, s.leads[l], id, TrimSpace(rawActor), now);
    }
    forall team | team in t.teams
      ensures t.teams[team].mainTeamLeadId in t.users && t.teams[team].analystTeamLeadId != Some(id)
    {
      assert OldestTeamLead(s.users, team, Some(id), picks[team]);
      assert TeamRefs(s.users, s.teams[team]);
    }
  }

  /** A team without another main team lead stops the deletion, and so does everything the
      deletion checks before; the database is then what it was. */
  lemma DeleteUserBlocked(s: State, rawId: string, rawActor: string, picks: map<Id, Option<Id>>, restricted: bool, now: Time, team: Id)
    requires Replacements(s, TrimSpace(rawId), picks)
    requires team in s.teams && s.teams[team].mainTeamLeadId == TrimSpace(rawId)
    requires forall id :: id in s.users && id != TrimSpace(rawId) ==> !IsLeadOf(s.users[id], team)
    ensures DeleteUser(s, rawId, rawActor, picks, restricted, now).Err?
  {
    hide TrimSpace, CountRole;
    assert OldestTeamLead(s.users, team, Some(TrimSpace(rawId)), picks[team]);
  }
}
