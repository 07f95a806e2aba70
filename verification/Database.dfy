/** The store methods, statement by statement on the tables.  Each one is proved to do what
    its specification function says, or to leave the tables as they were. */
module Database {
  import opened Wrappers
  import opened Model
  import opened Text
  import opened LeadQuery
  import opened Qualification
  import opened Crm
  import opened Routing

  /** A call ended as its specification says: the new tables, or an error and no change. */
  ghost predicate Ended(spec: Result<State, Error>, before: State, after: State, error: Option<Error>) {
    match spec
    case Ok(next) => after == next && error.None?
    case Err(e) => after == before && error == Some(e)
  }

  class Store {
    const loc: Locale
    var leads: map<Id, Lead>
    var users: map<Id, User>
    var teams: map<Id, Team>
    var handoffs: seq<Handoff>
    var logs: map<Id, seq<QualEntry>>
    var moves: seq<TeamMove>

    constructor (loc: Locale, s: State)
      ensures this.loc == loc && Rows() == s
    {
      this.loc, leads, users, teams, handoffs, logs, moves := loc, s.leads, s.users, s.teams, s.handoffs, s.logs, s.moves;
    }

    function Rows(): State
      reads this
    {
      State(leads, users, teams, handoffs, logs, moves)
    }

    /** INSERT INTO "LeadQualificationStatusLog" .. unless there is nothing to record. */
    method InsertQualificationLog(rawId: string, fromStatus: string, toStatus: string, at: Time, source: string)
      requires TrimSpace(rawId) != ""
      modifies this`logs
      ensures var before, id := old(Rows()), TrimSpace(rawId);
        logs == if Records(fromStatus, toStatus) then old(logs)[id := Logged(LogOf(before, id), fromStatus, toStatus, at, source)]
                else old(logs)
    {
      var id, to, from := TrimSpace(rawId), TrimSpace(toStatus), TrimSpace(fromStatus);
      if to == "" || (from != "" && from == to) {
        return;
      }
      var rows := if id in logs then logs[id] else [];
      logs := logs[id := rows + [QualEntry(if from == "" then None else Some(from), to, at, source)]];
    }

    method CreateLead(id: Id, profile: Profile, fallback: Option<Id>, now: Time) returns (error: Option<Error>)
      requires id !in leads && id !in logs && TrimSpace(id) == id && id != ""
      modifies this
      ensures Ended(Create(loc, old(Rows()), id, profile, fallback, now), old(Rows()), Rows(), error)
    {
      assert TrimSpace("") == "";
      hide TrimSpace, NewLead, Normalize, Logged, CreateError;
      var status, creator;
      error, status, creator := RefuseCreate(profile, fallback);
      if error.Some? { return; }
      var createdAt := if profile.createdAt.Some? then profile.createdAt.value else now;
      leads := leads[id := NewLead(id, profile, status, creator, createdAt, now)];
      var detail := "Created via LeadFlow UI";
      if users[creator].name != "" {
        detail := "Created by " + users[creator].name;
      }
      handoffs := handoffs + [Handoff(id, "LEAD_CREATED", Some(creator), Some(detail), createdAt)];
      CanonicalIsRecorded("", status);
      InsertQualificationLog(id, "", status, createdAt, "create");
    }

    method RefuseCreate(profile: Profile, fallback: Option<Id>) returns (error: Option<Error>, status: string, creator: Id)
      ensures error == CreateError(loc, Rows(), profile, fallback)
      ensures error.None? ==> status == Normalize(loc, profile.status) && status in ALLOWED
      ensures error.None? ==> CreatorOf(profile, fallback) == Some(creator) && creator in users
    {
      hide TrimSpace;
      status, creator := "", TrimSpace(profile.createdById);
      if |TrimSpace(profile.fullName)| > MAX_NAME { return Some(NameTooLong), status, creator; }
      if profile.source !in SOURCES { return Some(InvalidSource), status, creator; }
      status := NormalizeQualification(loc, profile.status);
      if status !in ALLOWED { return Some(InvalidStatus), status, creator; }
      if profile.leadScore.Some? && (profile.leadScore.value < 0 || profile.leadScore.value > 100) {
        return Some(InvalidScore), status, creator;
      }
      if profile.firstResponseMinutes.Some?
         && (profile.firstResponseMinutes.value < 0 || profile.firstResponseMinutes.value > MAX_RESPONSE) {
        return Some(InvalidResponse), status, creator;
      }
      if creator == "" {
        if fallback.None? { return Some(NoCreator), status, creator; }
        creator := fallback.value;
      }
      error := if creator !in users then Some(ForeignKey) else None;
    }

    method UpdateLead(id: Id, profile: Profile, now: Time) returns (error: Option<Error>)
      requires forall k :: k in leads ==> TrimSpace(k) == k
      modifies this
      ensures Ended(Update(loc, old(Rows()), id, profile, now), old(Rows()), Rows(), error)
    {
      hide TrimSpace, Edited, Logged, Normalize;
      if TrimSpace(id) == "" { return Some(LeadIdRequired); }
      if |TrimSpace(profile.fullName)| > MAX_NAME { return Some(NameTooLong); }
      if id !in leads { return Some(LeadNotFound); }
      var current := leads[id];
      if profile.source !in SOURCES && profile.source != current.source { return Some(InvalidSource); }
      var status := NormalizeQualification(loc, profile.status);
      if status !in ALLOWED {
        if profile.status != current.qualificationStatus { return Some(InvalidStatus); }
        status := profile.status;
      }
      if profile.leadScore.Some? && (profile.leadScore.value < 0 || profile.leadScore.value > 100) { return Some(InvalidScore); }
      if profile.firstResponseMinutes.Some? && (profile.firstResponseMinutes.value < 0 || profile.firstResponseMinutes.value > MAX_RESPONSE) {
        return Some(InvalidResponse);
      }
      var changed := TrimSpace(status) != TrimSpace(current.qualificationStatus);
      leads := leads[id := Edited(current, profile, status, now)];
      if changed {
        CanonicalIsRecorded(current.qualificationStatus, status);
        InsertQualificationLog(id, current.qualificationStatus, status, now, "update");
      }
      error := None;
    }

    method UpdateQualificationStatus(rawId: string, rawStatus: string, now: Time) returns (error: Option<Error>)
      modifies this
      ensures Ended(PatchStatus(loc, old(Rows()), rawId, rawStatus, now), old(Rows()), Rows(), error)
    {
      var id := TrimSpace(rawId);
      TrimSpaceStable(rawId);
      hide TrimSpace, Logged;
      var status := NormalizeQualification(loc, rawStatus);
      if id == "" { return Some(LeadIdRequired); }
      if status !in ALLOWED { return Some(InvalidStatus); }
      if id !in leads { return Some(LeadNotFound); }
      var current := leads[id].qualificationStatus;
      if TrimSpace(current) == status { return None; }
      leads := leads[id := leads[id].(qualificationStatus := status, qualificationEnteredAt := Some(now), updatedAt := now)];
      CanonicalIsRecorded(current, status);
      InsertQualificationLog(id, current, status, now, "patch_qual");
      error := None;
    }

    method MarkLeadNotAppropriate(rawId: string, rawReason: string, rawActor: string, now: Time) returns (error: Option<Error>)
      modifies this
      ensures Ended(MarkNotAppropriate(old(Rows()), rawId, rawReason, rawActor, now), old(Rows()), Rows(), error)
    {
      var id, reason, actor := TrimSpace(rawId), TrimSpace(rawReason), TrimSpace(rawActor);
      TrimSpaceStable(rawId);
      hide TrimSpace, Logged, Flagged;
      if id == "" { return Some(LeadIdRequired); }
      if reason == "" { return Some(ReasonRequired); }
      if |reason| < MIN_REASON { return Some(ReasonTooShort); }
      if |reason| > MAX_REASON { return Some(ReasonTooLong); }
      if id !in leads { return Some(LeadNotFound); }
      var l := leads[id];
      if l.notAppropriate {
        if l.notAppropriateReason.Some? && TrimSpace(l.notAppropriateReason.value) == reason { return None; }
        return Some(AlreadyMarked);
      }
      if actor != "" && actor !in users { return Some(ForeignKey); }
      leads := leads[id := Flagged(l, reason, actor, now)];
      if TrimSpace(l.qualificationStatus) != "IRRELEVANT" {
        CanonicalIsRecorded(l.qualificationStatus, "IRRELEVANT");
        InsertQualificationLog(id, l.qualificationStatus, "IRRELEVANT", now, "not_appropriate");
      }
      error := None;
    }

    /** ensureQualificationLogSeeded over recordQualificationChange. */
    method EnsureLogSeeded(id: Id)
      requires id in leads && TrimSpace(id) == id && id != ""
      modifies this
      ensures Rows() == SeedLog(old(Rows()), id)
    {
      var status := TrimSpace(leads[id].qualificationStatus);
      TrimSpaceStable(leads[id].qualificationStatus);
      assert TrimSpace("") == "";
      hide TrimSpace, Logged;
      if status == "" || (id in logs && logs[id] != []) {
        return;
      }
      ghost var before := Rows();
      assert LogOf(before, id) == [];
      InsertQualificationLog(id, "", status, leads[id].createdAt, "backfill");
      leads := leads[id := leads[id].(qualificationEnteredAt := Some(leads[id].createdAt))];
    }

    method UpdateSalesOutcome(id: Id, o: Outcome, now: Time) returns (error: Option<Error>)
      modifies this
      ensures Ended(UpdateOutcome(old(Rows()), id, o, now), old(Rows()), Rows(), error)
    {
      hide TrimSpace;
      if TrimSpace(id) == "" { return Some(LeadIdRequired); }
      if id !in leads { return Some(LeadNotFound); }
      if o.stage.None? && o.payment.None? && o.revenue.None? && o.notes.None? { return None; }
      var l := leads[id];
      var stage := l.salesStage;
      if o.stage.Some? {
        stage := TrimSpace(o.stage.value);
        if stage !in OUTCOMES { return Some(InvalidOutcome); }
      }
      if o.payment.Some? && o.payment.value.Some? && o.payment.value.value < 0.0 { return Some(NegativePayment); }
      if o.revenue.Some? && o.revenue.value.Some? && o.revenue.value.value < 0.0 { return Some(NegativeRevenue); }
      var revenue := l.closedRevenue;
      if o.revenue.Some? {
        revenue := o.revenue.value;
      }
      if stage == "CLOSED_WON" && (revenue.None? || revenue.value <= 0.0) { return Some(RevenueRequired); }
      var row := OutcomeColumns(l, o, now);
      hide WithOutcome;
      leads := leads[id := row];
      error := None;
    }

    /** The SET list, grown part by part. */
    method OutcomeColumns(l: Lead, o: Outcome, now: Time) returns (row: Lead)
      ensures row == WithOutcome(l, o, now)
    {
      row := l.(updatedAt := now);
      if o.stage.Some? {
        var stage := TrimSpace(o.stage.value);
        row := row.(salesStage := stage);
        if stage == "CLOSED_WON" || stage == "CLOSED_LOST" {
          row := row.(closedAt := if l.closedAt.Some? then l.closedAt else Some(now));
        } else {
          row := row.(closedAt := None);
        }
      }
      hide TrimSpace;
      if o.payment.Some? {
        row := row.(initialPayment := o.payment.value);
      }
      if o.revenue.Some? {
        row := row.(closedRevenue := o.revenue.value, estimatedDealValue := o.revenue.value, dealCurrency := "AUD");
      }
      if o.notes.Some? {
        row := row.(lostNotes := o.notes.value);
      }
    }

    /** The dedupe loop with its `seen` map. */
    method Clean(ids: seq<string>) returns (clean: seq<Id>)
      ensures clean == CleanIds(ids)
    {
      clean := [];
      var seen: set<Id> := {};
      for i := 0 to |ids|
        invariant clean == CleanIds(ids[..i])
        invariant forall id :: id in seen <==> id in clean
      {
        assert ids[..i + 1][..i] == ids[..i];
        var id := TrimSpace(ids[i]);
        if id == "" || id in seen {
          continue;
        }
        seen := seen + {id};
        clean := clean + [id];
      }
      assert ids[..|ids|] == ids;
    }

    method AssignLeads(a: Assignment, fallback: Option<Id>, mtl: Option<Id>, now: Time)
      returns (error: Option<Error>, updated: nat)
      modifies this
      ensures Ended(Assign(loc, old(Rows()), a, fallback, mtl, now), old(Rows()), Rows(), error)
      ensures updated == if error.None? then |CleanIds(a.leadIds)| else 0
    {
      hide TrimSpace, BTrim, Normalize, CleanIds, InScope, AssignedLead, AssignHandoffs;
      updated := 0;
      var e, clean := RefuseRequest(a, fallback);
      if e.Some? { return e, 0; }
      var found := FoundStatuses(a, clean);
      if |found| != |clean| { return Some(LeadsNotFound), 0; }
      var ok := AllQualify(clean, found);
      if !ok { return Some(NotQualified), 0; }
      var actor := if TrimSpace(a.actorId) != "" then TrimSpace(a.actorId) else fallback.value;
      CleanIdsDistinct(a.leadIds);
      error := AssignEach(a, clean, actor, mtl, now);
      updated := if error.None? then |clean| else 0;
    }

    /** The checks of the request and the assignee. */
    method RefuseRequest(a: Assignment, fallback: Option<Id>) returns (error: Option<Error>, clean: seq<Id>)
      ensures error == AssignRequestError(Rows(), a, fallback)
      ensures error.None? ==> clean == CleanIds(a.leadIds)
    {
      hide TrimSpace, CleanIds;
      clean := [];
      if |a.leadIds| == 0 { return Some(NoLeadsSelected), []; }
      if TrimSpace(a.assigneeId) == "" { return Some(AssigneeRequired), []; }
      if a.kind != "team-lead" && a.kind != "member" { return Some(InvalidKind), []; }
      clean := Clean(a.leadIds);
      if |clean| == 0 { return Some(NoLeadsSelected), []; }
      if |clean| > MAX_BULK { return Some(TooManyLeads), []; }
      if TrimSpace(a.actorId) == "" && fallback.None? { return Some(NoActor), []; }
      if a.assigneeId !in users { return Some(AssigneeNotFound), []; }
      var u := users[a.assigneeId];
      var scope := TrimSpace(a.teamId);
      if scope != "" {
        if u.teamId.None? || TrimSpace(u.teamId.value) != scope { return Some(NotOnYourTeam), []; }
      }
      if a.kind == "team-lead" {
        if u.role != MAIN_TEAM_LEAD && u.role != ANALYST_TEAM_LEAD { return Some(NotATeamLead), []; }
      } else {
        if u.role != SALES_EXECUTIVE { return Some(NotAMember), []; }
      }
      error := None;
    }

    /** SELECT id, "qualificationStatus" .. WHERE id = ANY($1) AND the scope FOR UPDATE.
        As many rows as distinct ids means that every id was found. */
    method FoundStatuses(a: Assignment, clean: seq<Id>) returns (found: map<Id, string>)
      requires clean == CleanIds(a.leadIds)
      ensures |found| == |clean| <==> forall id :: id in clean ==> id in leads && InScope(loc, users, a, leads[id])
      ensures |found| == |clean| ==> forall id :: id in clean ==> id in found && found[id] == leads[id].qualificationStatus
    {
      hide InScope, CleanIds;
      found := map id | id in clean && id in leads && InScope(loc, users, a, leads[id]) :: leads[id].qualificationStatus;
      CleanIdsDistinct(a.leadIds);
      AllFound(clean, found.Keys);
    }

    /** Both tests of the status, the second one repeated by each UPDATE. */
    method AllQualify(clean: seq<Id>, found: map<Id, string>) returns (ok: bool)
      requires forall id :: id in clean ==> id in found
      ensures ok <==> forall id :: id in clean ==> Normalize(loc, found[id]) in ASSIGNABLE
    {
      hide TrimSpace;
      for i := 0 to |clean|
        invariant forall j :: 0 <= j < i ==> Normalize(loc, found[clean[j]]) in ASSIGNABLE
      {
        var code := NormalizeQualification(loc, found[clean[i]]);
        if code !in ASSIGNABLE { return false; }
      }
      ok := true;
    }

    /** The transaction: one UPDATE and one handoff row per lead, all undone when an UPDATE
        matches no row. */
    method AssignEach(a: Assignment, clean: seq<Id>, actor: Id, mtl: Option<Id>, now: Time) returns (error: Option<Error>)
      requires a.assigneeId in users
      requires forall id :: id in clean ==> id in leads
      requires forall i, j :: 0 <= i < j < |clean| ==> clean[i] != clean[j]
      modifies this
      ensures var s := old(Rows());
        if exists id :: id in clean && Map(loc.upper, BTrim(s.leads[id].qualificationStatus)) !in ASSIGNABLE
        then Rows() == s && error == Some(NotQualified)
        else error.None? && Rows() == s.(leads := AssignedRows(s, a, mtl, clean, now),
                                         handoffs := s.handoffs + AssignHandoffs(s, a, mtl, actor, clean, now))
    {
      hide AssignedLead, AssignHandoff, AssignedRows, AssignHandoffs, BTrim;
      var s := Rows();
      var savedLeads, savedHandoffs := leads, handoffs;
      AssignedNone(s, a, mtl, actor, now);
      for i := 0 to |clean|
        invariant users == s.users && teams == s.teams && logs == s.logs && moves == s.moves
        invariant leads == AssignedRows(s, a, mtl, clean[..i], now)
        invariant handoffs == s.handoffs + AssignHandoffs(s, a, mtl, actor, clean[..i], now)
        invariant forall j :: 0 <= j < i ==> Map(loc.upper, BTrim(s.leads[clean[j]].qualificationStatus)) in ASSIGNABLE
      {
        var id := clean[i];
        AssignedNext(s, a, mtl, clean, i, actor, now);
        if Map(loc.upper, BTrim(leads[id].qualificationStatus)) !in ASSIGNABLE {
          leads, handoffs := savedLeads, savedHandoffs;
          assert id in clean;
          return Some(NotQualified);
        }
        leads := leads[id := AssignedLead(s, a, mtl, leads[id], now)];
        handoffs := handoffs + [AssignHandoff(s, a, mtl, actor, id, now)];
      }
      assert clean[..|clean|] == clean;
      error := None;
    }

    /** The handoffs first, then the leads, with the same scope; histories cascade. */
    method DeleteSelectedLeads(a: Assignment) returns (error: Option<Error>, deleted: nat)
      modifies this
      ensures Ended(DeleteLeads(loc, old(Rows()), a), old(Rows()), Rows(), error)
      ensures deleted == if error.None? then |DeletedIds(loc, old(Rows()), a)| else 0
    {
      hide TrimSpace, InScope;
      var clean: seq<Id> := [];
      for i := 0 to |a.leadIds|
        invariant clean == NonBlank(a.leadIds[..i])
      {
        assert a.leadIds[..i + 1][..i] == a.leadIds[..i];
        var id := TrimSpace(a.leadIds[i]);
        if id != "" {
          clean := clean + [id];
        }
      }
      assert a.leadIds[..|a.leadIds|] == a.leadIds;
      if |clean| == 0 { return Some(NoLeadsSelected), 0; }
      if |clean| > MAX_BULK { return Some(TooManyLeads), 0; }
      var gone := set id | id in clean && id in leads && InScope(loc, users, a, leads[id]);
      assert gone == DeletedIds(loc, Rows(), a);
      handoffs := KeepHandoffs(handoffs, gone);
      leads := leads - gone;
      logs := logs - gone;
      return None, |gone|;
    }

    /** One transaction: the user row, the two team rows in id order, then the updates. */
    method TransferSalesExec(t: Transfer, now: Time) returns (error: Option<Error>, leadsMoved: nat)
      modifies this
      ensures Ended(TransferExec(old(Rows()), t, now), old(Rows()), Rows(), error)
      ensures error.None? ==> leadsMoved == |LeadsHeld(old(Rows()), TrimSpace(t.salesExecId))|
    {
      hide TrimSpace, Remapped;
      leadsMoved := 0;
      var exec, to, actor := TrimSpace(t.salesExecId), TrimSpace(t.toTeamId), TrimSpace(t.actorId);
      if exec == "" { return Some(UserNotFound), 0; }
      if to == "" { return Some(TeamNotFound), 0; }
      if actor == "" { return Some(ActorRequired), 0; }
      if exec !in users { return Some(UserNotFound), 0; }
      if users[exec].role != SALES_EXECUTIVE { return Some(NotSalesExecutive), 0; }
      var from := if users[exec].teamId.Some? then TrimSpace(users[exec].teamId.value) else "";
      var expected := TrimSpace(t.expectedTeamId);
      if expected != "" && from != expected { return Some(TeamConflict), 0; }
      if t.actorRole == MAIN_TEAM_LEAD {
        var actorTeam := if t.actorTeamId.Some? then TrimSpace(t.actorTeamId.value) else "";
        if actorTeam == "" || users[exec].teamId.None? || from != actorTeam { return Some(TransferForbidden), 0; }
        if to == actorTeam { return Some(SameTeam), 0; }
      } else if t.actorRole != SUPERADMIN && t.actorRole != ANALYST_TEAM_LEAD {
        return Some(TransferForbidden), 0;
      }
      if from == to { return Some(SameTeam), 0; }
      if to !in teams || (from != "" && from !in teams) { return Some(TeamNotFound), 0; }
      var mtl := TrimSpace(teams[to].mainTeamLeadId);
      if mtl == "" { return Some(NoMainTeamLead), 0; }
      var held := LeadsHeld(Rows(), exec);
      if mtl !in users && held != {} { return Some(ForeignKey), 0; }
      users := users[exec := users[exec].(teamId := Some(to))];
      leads := UpdateWhere(leads, l => HeldBy(l, exec), l => Remapped(l, to, mtl, now));
      moves := moves + [TeamMove(exec, if from == "" then None else Some(from), to, actor, now)];
      return None, |held|;
    }

    method DeleteUserAccount(rawId: string, rawActor: string, picks: map<Id, Option<Id>>, restricted: bool, now: Time)
      returns (error: Option<Error>)
      requires forall team :: team in teams ==> team in picks
      modifies this
      ensures Ended(DeleteUser(old(Rows()), rawId, rawActor, picks, restricted, now), old(Rows()), Rows(), error)
    {
      hide TrimSpace, Detached, WithoutManager, WithoutLead, DeleteRequestError;
      var id, actor := TrimSpace(rawId), TrimSpace(rawActor);
      error := RefuseDeletion(id, actor);
      if error.Some? { return; }
      error := RemoveAccount(id, actor, picks, restricted, now);
    }

    method RefuseDeletion(id: Id, actor: Id) returns (error: Option<Error>)
      ensures error == DeleteRequestError(Rows(), id, actor)
    {
      hide CountRole;
      if id == "" { return Some(UserNotFound); }
      if id == actor { return Some(CannotDeleteSelf); }
      if id !in users { return Some(UserNotFound); }
      if users[id].role == SUPERADMIN {
        var n := CountRole(users, SUPERADMIN);
        if n <= 1 { return Some(LastSuperadmin); }
      }
      if actor != "" {
        if actor !in users && exists l :: l in leads && leads[l].createdById == Some(id) { return Some(ForeignKey); }
      }
      error := None;
    }

    /** The transaction.  `picks` is what the query for another main team lead returns for
        each team; an early return undoes every write. */
    method RemoveAccount(id: Id, actor: Id, picks: map<Id, Option<Id>>, restricted: bool, now: Time)
      returns (error: Option<Error>)
      requires forall team :: team in teams ==> team in picks
      modifies this
      ensures var s := old(Rows());
        if (exists team :: team in s.teams && s.teams[team].mainTeamLeadId == id && picks[team].None?) || restricted
        then error == Some(DeleteBlocked) && Rows() == s
        else error.None? && Rows() == s.(leads := map l | l in s.leads :: Detached(s.leads[l], id, actor, now),
                                         users := map u | u in s.users && u != id :: WithoutManager(s.users[u], id),
                                         teams := map t | t in s.teams :: WithoutLead(s.teams[t], id, picks[t]))
    {
      hide Disowned, Orphaned, WithoutManager, WithoutLead;
      ghost var s := Rows();
      var savedLeads, savedUsers, savedTeams := leads, users, teams;
      DetachLeads(id, actor, now);
      users := map u | u in users :: WithoutManager(users[u], id);
      var replaced := DetachTeams(id, picks);
      if !replaced || restricted {
        leads, users, teams := savedLeads, savedUsers, savedTeams;
        return Some(DeleteBlocked);
      }
      ghost var disowned, unmanaged := leads, users;
      DropUser(id);
      error := None;
      RemainingUsers(s.users, unmanaged, id);
      DetachedLeads(s.leads, disowned, id, actor, now);
    }

    /** DELETE FROM "User", whose foreign keys on Lead are ON DELETE SET NULL. */
    method DropUser(id: Id)
      modifies this`users, this`leads
      ensures users == old(users) - {id}
      ensures leads == map l | l in old(leads) :: Orphaned(old(leads)[l], id)
    {
      users := users - {id};
      leads := map l | l in leads :: Orphaned(leads[l], id);
    }

    method DetachTeams(id: Id, picks: map<Id, Option<Id>>) returns (ok: bool)
      requires forall team :: team in teams ==> team in picks
      modifies this`teams
      ensures ok <==> forall t :: t in old(teams) && old(teams)[t].mainTeamLeadId == id ==> picks[t].Some?
      ensures ok ==> teams == map t | t in old(teams) :: WithoutLead(old(teams)[t], id, picks[t])
    {
      ok := ReplaceTeamLead(id, picks);
      teams := map t | t in teams :: if teams[t].analystTeamLeadId == Some(id) then teams[t].(analystTeamLeadId := None) else teams[t];
    }

    /** The four UPDATE "Lead" statements. */
    method DetachLeads(id: Id, actor: string, now: Time)
      modifies this`leads
      ensures leads == map l | l in old(leads) :: Disowned(old(leads)[l], id, actor, now)
    {
      hide Recreated, Unheld, Unled, Unflagged;
      leads := map l | l in leads :: Recreated(leads[l], id, actor, now);
      leads := map l | l in leads :: Unheld(leads[l], id, now);
      leads := map l | l in leads :: Unled(leads[l], id, now);
      leads := map l | l in leads :: Unflagged(leads[l], id, now);
    }

    /** Team."mainTeamLeadId" is NOT NULL: every team the user leads needs another one. */
    method ReplaceTeamLead(id: Id, picks: map<Id, Option<Id>>) returns (ok: bool)
      requires forall team :: team in teams ==> team in picks
      modifies this`teams
      ensures ok <==> forall t :: t in LedBy(old(teams), id) ==> picks[t].Some?
      ensures ok ==> teams == Reassigned(old(teams), LedBy(old(teams), id), picks)
    {
      ghost var before := teams;
      var todo := LedBy(teams, id);
      ghost var led, done := todo, {};
      assert teams == Reassigned(before, done, picks);
      while todo != {}
        invariant done == led - todo && todo <= led
        invariant forall t :: t in done ==> picks[t].Some?
        invariant teams == Reassigned(before, done, picks)
        decreases |todo|
      {
        var team :| team in todo;
        if picks[team].None? {
          assert team in led;
          return false;
        }
        ReassignedNext(before, done, picks, team);
        teams := teams[team := teams[team].(mainTeamLeadId := picks[team].value)];
        todo := todo - {team};
        done := done + {team};
      }
      assert done == led;
      ok := true;
    }
  }

  function LedBy(teams: map<Id, Team>, id: Id): set<Id> { set t | t in teams && teams[t].mainTeamLeadId == id }

  /** The teams of `done` have their replacement. */
  function Reassigned(teams: map<Id, Team>, done: set<Id>, picks: map<Id, Option<Id>>): map<Id, Team>
    requires forall team :: team in teams ==> team in picks
  {
    map t | t in teams :: if t in done && picks[t].Some? then teams[t].(mainTeamLeadId := picks[t].value) else teams[t]
  }

  lemma ReassignedNext(teams: map<Id, Team>, done: set<Id>, picks: map<Id, Option<Id>>, team: Id)
    requires forall t :: t in teams ==> t in picks
    requires team in teams && team !in done && picks[team].Some?
    ensures Reassigned(teams, done, picks)[team] == teams[team]
    ensures Reassigned(teams, done + {team}, picks)
         == Reassigned(teams, done, picks)[team := teams[team].(mainTeamLeadId := picks[team].value)]
  {
  }

  lemma RemainingUsers(users: map<Id, User>, unmanaged: map<Id, User>, id: Id)
    requires unmanaged == map u | u in users :: WithoutManager(users[u], id)
    ensures unmanaged - {id} == map u | u in users && u != id :: WithoutManager(users[u], id)
  {
    hide WithoutManager;
  }

  lemma DetachedLeads(leads: map<Id, Lead>, disowned: map<Id, Lead>, id: Id, actor: Id, now: Time)
    requires disowned == map l | l in leads :: Disowned(leads[l], id, actor, now)
    ensures (map l | l in disowned :: Orphaned(disowned[l], id)) == map l | l in leads :: Detached(leads[l], id, actor, now)
  {
    hide Disowned, Orphaned;
  }

  function AssignedRows(s: State, a: Assignment, mtl: Option<Id>, done: seq<Id>, now: Time): map<Id, Lead>
    requires a.assigneeId in s.users
  {
    map id | id in s.leads :: if id in done then AssignedLead(s, a, mtl, s.leads[id], now) else s.leads[id]
  }

  lemma AssignedNone(s: State, a: Assignment, mtl: Option<Id>, actor: Id, now: Time)
    requires a.assigneeId in s.users
    ensures AssignedRows(s, a, mtl, [], now) == s.leads && AssignHandoffs(s, a, mtl, actor, [], now) == []
  {
    hide AssignedLead;
  }

  lemma AssignedNext(s: State, a: Assignment, mtl: Option<Id>, clean: seq<Id>, i: nat, actor: Id, now: Time)
    requires a.assigneeId in s.users && i < |clean| && clean[i] in s.leads && clean[i] !in clean[..i]
    ensures var rows := AssignedRows(s, a, mtl, clean[..i], now);
      && clean[i] in rows && rows[clean[i]] == s.leads[clean[i]]
      && AssignedRows(s, a, mtl, clean[..i + 1], now) == rows[clean[i] := AssignedLead(s, a, mtl, s.leads[clean[i]], now)]
    ensures AssignHandoffs(s, a, mtl, actor, clean[..i + 1], now)
         == AssignHandoffs(s, a, mtl, actor, clean[..i], now) + [AssignHandoff(s, a, mtl, actor, clean[i], now)]
  {
    hide AssignedLead, AssignHandoff;
    assert clean[..i + 1] == clean[..i] + [clean[i]];
  }

  lemma {:induction false} SetOfDistinct(ids: seq<Id>)
    requires forall i, j :: 0 <= i < j < |ids| ==> ids[i] != ids[j]
    ensures |set id | id in ids| == |ids|
  {
    if ids != [] {
      SetOfDistinct(ids[1..]);
      assert (set id | id in ids) == (set id | id in ids[1..]) + {ids[0]};
    }
  }

  lemma AllFound(clean: seq<Id>, found: set<Id>)
    requires forall i, j :: 0 <= i < j < |clean| ==> clean[i] != clean[j]
    requires forall id :: id in found ==> id in clean
    ensures |found| == |clean| <==> forall id :: id in clean ==> id in found
  {
    SetOfDistinct(clean);
    var all := set id | id in clean;
    assert found <= all;
    if |found| == |clean| {
      SubsetOfSameSize(found, all);
    }
    if forall id :: id in clean ==> id in found {
      assert found == all;
    }
  }

  lemma SubsetOfSameSize<T>(a: set<T>, b: set<T>)
    requires a <= b && |a| == |b|
    ensures a == b
  {
    assert b == a + (b - a);
    assert |b - a| == 0;
  }

  predicate Records(fromStatus: string, toStatus: string) {
    TrimSpace(toStatus) != "" && !(TrimSpace(fromStatus) != "" && TrimSpace(fromStatus) == TrimSpace(toStatus))
  }

  lemma CanonicalIsRecorded(current: string, status: string)
    ensures status in ALLOWED && TrimSpace(current) != status ==> Records(current, status)
    ensures status in ALLOWED ==> TrimSpace(status) == status && status != ""
  {
    if status in ALLOWED {
      AllowedIsTrimmed(status);
    }
  }
}
