/** What accepted operations change and leave alone, one at a time and over whole runs. */
module LifecycleEffects {
  import opened Wrappers
  import opened Model
  import opened Text
  import opened LeadQuery
  import Qualification
  import opened Crm
  import opened Routing
  import opened LifecycleInvariants
  import opened LifecycleRuns

  /** The contact and qualification side of a lead, which assignments and outcomes leave alone. */
  predicate SameProfile(l: Lead, m: Lead) {
    && m.id == l.id && m.leadName == l.leadName && m.phone == l.phone && m.leadEmail == l.leadEmail
    && m.country == l.country && m.city == l.city && m.source == l.source && m.portalWebsite == l.portalWebsite
    && m.notes == l.notes && m.leadScore == l.leadScore && m.createdById == l.createdById && m.createdAt == l.createdAt
    && m.qualificationStatus == l.qualificationStatus && m.qualificationEnteredAt == l.qualificationEnteredAt
    && m.notAppropriate == l.notAppropriate
  }

  /** The closing of a deal, which only outcomes change. */
  predicate SameDeal(l: Lead, m: Lead) {
    m.closedAt == l.closedAt && m.closedRevenue == l.closedRevenue && m.estimatedDealValue == l.estimatedDealValue
  }

  predicate StillClosed(l: Lead, m: Lead) { m.salesStage in CLOSED <==> l.salesStage in CLOSED }

  predicate DealIsRevenue(l: Lead) { l.estimatedDealValue == l.closedRevenue }

  /** The sales side, which edits and qualification changes leave alone. */
  predicate SameSalesSide(l: Lead, m: Lead) {
    && m.id == l.id && m.salesStage == l.salesStage && m.teamId == l.teamId
    && m.assignedMainTeamLeadId == l.assignedMainTeamLeadId && m.assignedSalesExecId == l.assignedSalesExecId
    && m.execAssignedAt == l.execAssignedAt && SameDeal(l, m) && m.initialPayment == l.initialPayment
    && m.createdById == l.createdById
  }

  /** An edit or a status patch touches one lead, on its profile side only. */
  lemma EditTouchesOneProfile(loc: Locale, s: State, id: Id, profile: Profile, now: Time)
    requires Update(loc, s, id, profile, now).Ok?
    ensures var t := Update(loc, s, id, profile, now).value;
      && t.leads.Keys == s.leads.Keys && id in s.leads
      && SameSalesSide(s.leads[id], t.leads[id])
      && (forall k :: k in s.leads && k != id ==> t.leads[k] == s.leads[k] && LogOf(t, k) == LogOf(s, k))
      && LogOf(s, id) <= LogOf(t, id)
      && (LogOf(t, id) != LogOf(s, id) ==> TrimSpace(t.leads[id].qualificationStatus) != TrimSpace(s.leads[id].qualificationStatus))
      && t.handoffs == s.handoffs && t.users == s.users
  {
    hide TrimSpace, RangeError, Edited, SameSalesSide, Logged, Qualification.Normalize;
    var l, code := s.leads[id], Qualification.Normalize(loc, profile.status);
    var status := if code in Qualification.ALLOWED then code else profile.status;
    EditedSides(l, profile, status, now);
    LoggedExtends(LogOf(s, id), l.qualificationStatus, status, now, "update");
  }

  lemma EditedSides(l: Lead, profile: Profile, status: string, now: Time)
    ensures SameSalesSide(l, Edited(l, profile, status, now)) && Edited(l, profile, status, now).qualificationStatus == status
  {
  }

  lemma LoggedExtends(log: seq<QualEntry>, from: string, to: string, at: Time, source: string)
    ensures log <= Logged(log, from, to, at, source)
  {
  }

  lemma PatchTouchesOneProfile(loc: Locale, s: State, id: Id, status: string, now: Time)
    requires PatchStatus(loc, s, id, status, now).Ok?
    ensures var t, key := PatchStatus(loc, s, id, status, now).value, TrimSpace(id);
      && t.leads.Keys == s.leads.Keys && key in s.leads
      && SameSalesSide(s.leads[key], t.leads[key])
      && TrimSpace(t.leads[key].qualificationStatus) == Qualification.Normalize(loc, status)
      && (forall k :: k in s.leads && k != key ==> t.leads[k] == s.leads[k] && LogOf(t, k) == LogOf(s, k))
      && LogOf(s, key) <= LogOf(t, key)
  {
    hide TrimSpace, Qualification.Normalize;
    Qualification.AllowedIsTrimmed(Qualification.Normalize(loc, status));
  }

  /** What an assignment makes of one lead. */
  predicate AssignedTo(s: State, a: Assignment, mtl: Option<Id>, now: Time, l: Lead, m: Lead)
    requires a.assigneeId in s.users
  {
    && SameProfile(l, m) && SameDeal(l, m)
    && m.teamId == s.users[a.assigneeId].teamId
    && (a.kind == "team-lead" ==>
          && m.assignedMainTeamLeadId == Some(a.assigneeId) && m.assignedSalesExecId.None? && m.execAssignedAt.None?
          && m.salesStage == "WITH_TEAM_LEAD")
    && (a.kind == "member" ==>
          && m.assignedSalesExecId == Some(a.assigneeId) && m.execAssignedAt == Some(now)
          && m.assignedMainTeamLeadId == (if mtl.Some? then mtl else l.assignedMainTeamLeadId)
          && (l.salesStage in ["IN_NEGOTIATION", "NO_RESPONSE_FROM_CLIENT", "CLOSED_WON", "CLOSED_LOST", "WITH_EXECUTIVE"] ==>
                m.salesStage == l.salesStage)
          && (l.salesStage in ["PRE_SALES", "WITH_TEAM_LEAD", "NOT_CONNECTED"] ==> m.salesStage == "WITH_EXECUTIVE")
          && StillClosed(l, m))
  }

  /** Main result: an accepted assignment changes every selected lead and no other one, and
      logs one handoff per selected lead, in the order of the request. */
  lemma AssignEffect(loc: Locale, s: State, a: Assignment, fallback: Option<Id>, mtl: Option<Id>, now: Time)
    requires Assign(loc, s, a, fallback, mtl, now).Ok?
    ensures var t, clean := Assign(loc, s, a, fallback, mtl, now).value, CleanIds(a.leadIds);
      && a.assigneeId in s.users && (a.kind == "team-lead" || a.kind == "member") && clean != [] && |clean| <= MAX_BULK
      && t.leads.Keys == s.leads.Keys
      && (forall id :: id in clean ==> id in s.leads && AssignedTo(s, a, mtl, now, s.leads[id], t.leads[id]))
      && (forall id :: id in s.leads && id !in clean ==> t.leads[id] == s.leads[id])
      && |t.handoffs| == |s.handoffs| + |clean| && s.handoffs <= t.handoffs
      && (forall i :: 0 <= i < |clean| ==>
            && t.handoffs[|s.handoffs| + i].leadId == clean[i]
            && t.handoffs[|s.handoffs| + i].action ==
                 if a.kind == "team-lead" then "ROUTED_TO_MAIN_TEAM" else "DIRECT_ASSIGNED_TO_EXECUTIVE_BY_ATL")
      && t.users == s.users && t.teams == s.teams && t.logs == s.logs
  {
    hide TrimSpace, BTrim, Assignable, InScope, CleanIds, SameProfile, AssignedTo, AssignedLead;
    var t, clean := Assign(loc, s, a, fallback, mtl, now).value, CleanIds(a.leadIds);
    forall id | id in clean ensures id in s.leads && AssignedTo(s, a, mtl, now, s.leads[id], t.leads[id]) {
      AssignedLeadEffect(s, a, mtl, now, s.leads[id]);
    }
  }

  lemma AssignedLeadEffect(s: State, a: Assignment, mtl: Option<Id>, now: Time, l: Lead)
    requires a.assigneeId in s.users && (a.kind == "team-lead" || a.kind == "member")
    ensures AssignedTo(s, a, mtl, now, l, AssignedLead(s, a, mtl, l, now))
  {
  }

  lemma {:induction false} KeptHandoffs(handoffs: seq<Handoff>, gone: set<Id>)
    ensures forall h :: h in KeepHandoffs(handoffs, gone) <==> h in handoffs && h.leadId !in gone
  {
    if handoffs != [] {
      KeptHandoffs(handoffs[1..], gone);
      assert forall h :: h in handoffs <==> h == handoffs[0] || h in handoffs[1..];
    }
  }

  lemma {:induction false} NonBlankMembers(ids: seq<string>)
    ensures forall id :: id in NonBlank(ids) <==> id != "" && exists raw :: raw in ids && TrimSpace(raw) == id
  {
    hide TrimSpace;
    if ids != [] {
      NonBlankMembers(ids[..|ids| - 1]);
      assert forall raw :: raw in ids <==> raw in ids[..|ids| - 1] || raw == ids[|ids| - 1];
    }
  }

  /** Main result: deleting leads removes exactly the selected leads in scope, with exactly
      their handoffs and histories. */
  lemma DeleteLeadsEffect(loc: Locale, s: State, a: Assignment)
    requires DeleteLeads(loc, s, a).Ok?
    ensures var t := DeleteLeads(loc, s, a).value;
      && (forall id :: id in t.leads <==>
            id in s.leads && !(InScope(loc, s.users, a, s.leads[id]) && id != "" && exists raw :: raw in a.leadIds && TrimSpace(raw) == id))
      && (forall id :: id in t.leads ==> t.leads[id] == s.leads[id] && LogOf(t, id) == LogOf(s, id))
      && (forall h :: h in t.handoffs <==> h in s.handoffs && h.leadId !in s.leads.Keys - t.leads.Keys)
      && t.users == s.users && t.teams == s.teams
  {
    hide TrimSpace, InScope, NonBlank;
    NonBlankMembers(a.leadIds);
    KeptHandoffs(s.handoffs, DeletedIds(loc, s, a));
    var t := DeleteLeads(loc, s, a).value;
    assert s.leads.Keys - t.leads.Keys == DeletedIds(loc, s, a);
  }

  // ---------------------------------------------------------------- over runs

  /** What one step means for the closing of a lead: an accepted request closes it, another
      stage reopens it, everything else is neither. */
  datatype Event = Closing(at: Time) | Reopening | Neither

  function EventOf(s: State, step: Step, id: Id): Event {
    if step.SetOutcome? && step.leadId == id && step.outcome.stage.Some? && UpdateOutcome(s, id, step.outcome, step.at).Ok?
    then if TrimSpace(step.outcome.stage.value) in CLOSED then Closing(step.at) else Reopening
    else Neither
  }

  function TimeAfter(closedAt: Option<Time>, e: Event): Option<Time> {
    match e
    case Closing(at) => if closedAt.Some? then closedAt else Some(at)
    case Reopening => None
    case Neither => closedAt
  }

  /** The leads an assignment request routes to a team lead. */
  function RoutedIds(a: Assignment): seq<Id> { if a.kind == "team-lead" then CleanIds(a.leadIds) else [] }

  /** The leads an accepted step routes to a team lead. */
  function RoutedBy(loc: Locale, s: State, step: Step): seq<Id> {
    if step.AssignLeads? && Assign(loc, s, step.assignment, step.fallback, step.mtl, step.at).Ok?
    then RoutedIds(step.assignment) else []
  }

  /** What one step does to the closing, the deal value and the history of a lead that stays. */
  ghost predicate LeadStep(loc: Locale, s: State, step: Step, t: State, id: Id)
    requires id in s.leads && id in t.leads
  {
    && LogOf(s, id) <= LogOf(t, id)
    && t.leads[id].closedAt == TimeAfter(s.leads[id].closedAt, EventOf(s, step, id))
    && (DealIsRevenue(s.leads[id]) ==> DealIsRevenue(t.leads[id]))
    && StageStep(loc, s, step, t, id)
  }

  predicate StageStep(loc: Locale, s: State, step: Step, t: State, id: Id)
    requires id in s.leads && id in t.leads
  {
    match EventOf(s, step, id)
    case Closing(_) => t.leads[id].salesStage in CLOSED
    case Reopening => true
    case Neither =>
      if id in RoutedBy(loc, s, step) then t.leads[id].salesStage !in CLOSED else StillClosed(s.leads[id], t.leads[id])
  }

  /** No deal changes; the stages stay closed or open, except that a routed lead's is open. */
  ghost predicate KeepsDeals(s: State, t: State, routed: seq<Id>) {
    forall id :: id in t.leads ==>
      if id in s.leads
      then && SameDeal(s.leads[id], t.leads[id]) && LogOf(s, id) <= LogOf(t, id)
           && (if id in routed then t.leads[id].salesStage !in CLOSED else StillClosed(s.leads[id], t.leads[id]))
      else DealIsRevenue(t.leads[id])
  }

  lemma EditKeepsDeals(loc: Locale, s: State, id: Id, profile: Profile, now: Time)
    requires Update(loc, s, id, profile, now).Ok?
    ensures KeepsDeals(s, Update(loc, s, id, profile, now).value, [])
  {
    hide Update, SameSalesSide, TrimSpace;
    EditTouchesOneProfile(loc, s, id, profile, now);
    var t := Update(loc, s, id, profile, now).value;
    SalesSideDeal(s.leads[id], t.leads[id]);
  }

  lemma SalesSideDeal(l: Lead, m: Lead)
    requires SameSalesSide(l, m)
    ensures SameDeal(l, m) && StillClosed(l, m)
  {
  }

  lemma PatchKeepsDeals(loc: Locale, s: State, id: Id, status: string, now: Time)
    requires PatchStatus(loc, s, id, status, now).Ok?
    ensures KeepsDeals(s, PatchStatus(loc, s, id, status, now).value, [])
  {
    hide PatchStatus, SameSalesSide, TrimSpace;
    PatchTouchesOneProfile(loc, s, id, status, now);
    var t, key := PatchStatus(loc, s, id, status, now).value, TrimSpace(id);
    SalesSideDeal(s.leads[key], t.leads[key]);
  }

  lemma FlaggedDeal(l: Lead, reason: string, actor: string, now: Time)
    ensures SameDeal(l, Flagged(l, reason, actor, now)) && StillClosed(l, Flagged(l, reason, actor, now))
  {
  }

  lemma OneLeadKeepsDeals(s: State, t: State, key: Id, m: Lead, next: seq<QualEntry>)
    requires key in s.leads && SameDeal(s.leads[key], m) && StillClosed(s.leads[key], m) && LogOf(s, key) <= next
    requires t.leads == s.leads[key := m] && (t.logs == s.logs || t.logs == s.logs[key := next])
    ensures KeepsDeals(s, t, [])
  {
  }

  lemma MarkKeepsDeals(s: State, id: Id, reason: string, actor: string, now: Time)
    requires MarkNotAppropriate(s, id, reason, actor, now).Ok?
    ensures KeepsDeals(s, MarkNotAppropriate(s, id, reason, actor, now).value, [])
  {
    hide TrimSpace, Logged, Flagged, SameDeal, StillClosed, DealIsRevenue, LogOf, KeepsDeals;
    var key := TrimSpace(id);
    var l, log := s.leads[key], LogOf(s, key);
    LoggedExtends(log, l.qualificationStatus, "IRRELEVANT", now, "not_appropriate");
    var next := Logged(log, l.qualificationStatus, "IRRELEVANT", now, "not_appropriate");
    var t := MarkNotAppropriate(s, id, reason, actor, now).value;
    if l.notAppropriate {
      assert t.leads == s.leads[key := l];
      SameDealWithItself(l);
      OneLeadKeepsDeals(s, t, key, l, next);
    } else {
      var m := Flagged(l, TrimSpace(reason), TrimSpace(actor), now);
      FlaggedDeal(l, TrimSpace(reason), TrimSpace(actor), now);
      OneLeadKeepsDeals(s, t, key, m, next);
    }
  }

  lemma SameDealWithItself(l: Lead)
    ensures SameDeal(l, l) && StillClosed(l, l)
  {
  }

  lemma SeedKeepsDeals(s: State, id: Id)
    ensures KeepsDeals(s, SeedLog(s, id), [])
  {
    hide TrimSpace, Logged;
  }

  lemma CreateKeepsDeals(loc: Locale, s: State, id: Id, profile: Profile, fallback: Option<Id>, now: Time)
    requires id !in s.leads && Create(loc, s, id, profile, fallback, now).Ok?
    ensures KeepsDeals(s, Create(loc, s, id, profile, fallback, now).value, [])
  {
    hide TrimSpace, Logged, CreateError, Qualification.Normalize;
  }

  lemma AssignKeepsDeals(loc: Locale, s: State, a: Assignment, fallback: Option<Id>, mtl: Option<Id>, now: Time)
    requires Assign(loc, s, a, fallback, mtl, now).Ok?
    ensures KeepsDeals(s, Assign(loc, s, a, fallback, mtl, now).value, RoutedIds(a))
  {
    hide Assign, AssignedTo, CleanIds;
    AssignEffect(loc, s, a, fallback, mtl, now);
    var t := Assign(loc, s, a, fallback, mtl, now).value;
    forall id | id in CleanIds(a.leadIds)
      ensures SameDeal(s.leads[id], t.leads[id])
      ensures if a.kind == "team-lead" then t.leads[id].salesStage !in CLOSED else StillClosed(s.leads[id], t.leads[id])
    {
      AssignedToDeal(s, a, mtl, now, s.leads[id], t.leads[id]);
    }
  }

  lemma AssignedToDeal(s: State, a: Assignment, mtl: Option<Id>, now: Time, l: Lead, m: Lead)
    requires a.assigneeId in s.users && AssignedTo(s, a, mtl, now, l, m) && (a.kind == "team-lead" || a.kind == "member")
    ensures SameDeal(l, m) && if a.kind == "team-lead" then m.salesStage !in CLOSED else StillClosed(l, m)
  {
  }

  lemma DeleteLeadsKeepsDeals(loc: Locale, s: State, a: Assignment)
    requires DeleteLeads(loc, s, a).Ok?
    ensures KeepsDeals(s, DeleteLeads(loc, s, a).value, [])
  {
    hide DeleteLeads, TrimSpace, InScope;
    DeleteLeadsEffect(loc, s, a);
  }

  lemma TransferKeepsDeals(s: State, t: Transfer, now: Time)
    requires TransferExec(s, t, now).Ok?
    ensures KeepsDeals(s, TransferExec(s, t, now).value, [])
  {
    hide TrimSpace, TransferError;
  }

  lemma DeleteUserKeepsDeals(s: State, id: string, actor: string, picks: map<Id, Option<Id>>, restricted: bool, now: Time)
    requires forall team :: team in s.teams ==> team in picks
    requires DeleteUser(s, id, actor, picks, restricted, now).Ok?
    ensures KeepsDeals(s, DeleteUser(s, id, actor, picks, restricted, now).value, [])
  {
    hide TrimSpace, DeleteUserError, Detached;
    forall l | l in s.leads
      ensures var d := Detached(s.leads[l], TrimSpace(id), TrimSpace(actor), now);
        SameDeal(s.leads[l], d) && StillClosed(s.leads[l], d)
    {
      DetachedSales(s.leads[l], TrimSpace(id), TrimSpace(actor), now);
    }
  }

  lemma OutcomeLeadStep(loc: Locale, s: State, step: Step, t: State, id: Id)
    requires step.SetOutcome? && id in s.leads && id in t.leads
    requires t == match UpdateOutcome(s, step.leadId, step.outcome, step.at) case Ok(next) => next case Err(_) => s
    ensures LeadStep(loc, s, step, t, id)
  {
    hide TrimSpace;
  }

  lemma OtherStepKeepsDeals(loc: Locale, s: State, step: Step, t: State)
    requires StepTo(loc, s, step, t) && !step.SetOutcome?
    ensures KeepsDeals(s, t, RoutedBy(loc, s, step))
  {
    hide Create, Update, PatchStatus, MarkNotAppropriate, SeedLog, UpdateOutcome, Assign, DeleteLeads, TransferExec,
         DeleteUser, TrimSpace, MtlFound, OldestTeamLead;
    if Performed(loc, s, step).Ok? {
      match step
      case CreateLead(key, p, fallback, at) => CreateKeepsDeals(loc, s, key, p, fallback, at);
      case EditLead(key, p, at) => EditKeepsDeals(loc, s, key, p, at);
      case Patch(key, status, at) => PatchKeepsDeals(loc, s, key, status, at);
      case Mark(key, reason, actor, at) => MarkKeepsDeals(s, key, reason, actor, at);
      case Seed(key) => SeedKeepsDeals(s, key);
      case AssignLeads(a, fallback, mtl, at) => AssignKeepsDeals(loc, s, a, fallback, mtl, at);
      case RemoveLeads(a) => DeleteLeadsKeepsDeals(loc, s, a);
      case MoveExecutive(transfer, at) => TransferKeepsDeals(s, transfer, at);
      case RemoveUser(user, actor, picks, restricted, at) => DeleteUserKeepsDeals(s, user, actor, picks, restricted, at);
    }
  }

  lemma StepOnLead(loc: Locale, s: State, step: Step, t: State, id: Id)
    requires StepTo(loc, s, step, t) && id in s.leads && id in t.leads
    ensures LeadStep(loc, s, step, t, id)
  {
    if step.SetOutcome? {
      hide UpdateOutcome;
      OutcomeLeadStep(loc, s, step, t, id);
    } else {
      hide StepTo, LogOf;
      OtherStepKeepsDeals(loc, s, step, t);
    }
  }

  lemma NewLeadDeal(loc: Locale, s: State, step: Step, t: State, id: Id)
    requires StepTo(loc, s, step, t) && id in t.leads && id !in s.leads
    ensures DealIsRevenue(t.leads[id])
  {
    if step.SetOutcome? {
      hide TrimSpace, WithOutcome, OutcomeError;
    } else {
      hide StepTo;
      OtherStepKeepsDeals(loc, s, step, t);
    }
  }

  /** The lead is there from the first of these states to the last. */
  ghost predicate Stays(states: seq<State>, id: Id) { forall i :: 0 <= i < |states| ==> id in states[i].leads }

  /** Main result: a history is append-only; whatever happens, what was recorded for a lead
      stays the beginning of its history as long as the lead is there. */
  lemma {:induction false} HistoryOnlyGrows(loc: Locale, states: seq<State>, steps: seq<Step>, id: Id, i: nat, k: nat)
    requires Run(loc, states, steps) && Stays(states, id) && i <= k < |states|
    ensures LogOf(states[i], id) <= LogOf(states[k], id)
    decreases k
  {
    hide StepTo;
    if i < k {
      HistoryOnlyGrows(loc, states, steps, id, i, k - 1);
      StepOnLead(loc, states[k - 1], steps[k - 1], states[k], id);
    }
  }

  function Events(states: seq<State>, steps: seq<Step>, id: Id): (events: seq<Event>)
    requires |steps| <= |states|
  {
    seq(|steps|, i requires 0 <= i < |steps| => EventOf(states[i], steps[i], id))
  }

  /** Every closing before event k was followed by a reopening before it. */
  ghost predicate OpenBefore(events: seq<Event>, k: nat)
    requires k <= |events|
  {
    forall c :: 0 <= c < k && events[c].Closing? ==> exists r :: c < r < k && events[r].Reopening?
  }

  /** Event j is the first closing since the lead was last open, and no event before k reopens it. */
  ghost predicate ClosedSince(events: seq<Event>, j: nat, k: nat)
    requires j < k <= |events|
  {
    events[j].Closing? && OpenBefore(events, j) && forall r :: j < r < k ==> !events[r].Reopening?
  }

  lemma OpenBeforeStep(events: seq<Event>, k: nat)
    requires k < |events|
    ensures OpenBefore(events, k + 1) <==> events[k].Reopening? || (events[k].Neither? && OpenBefore(events, k))
  {
    if OpenBefore(events, k + 1) && events[k].Neither? {
      forall c | 0 <= c < k && events[c].Closing? ensures exists r :: c < r < k && events[r].Reopening? {
        var r :| c < r < k + 1 && events[r].Reopening?;
      }
    }
  }

  lemma ClosedSinceStep(events: seq<Event>, j: nat, k: nat)
    requires j <= k < |events| && ClosedSince(events, j, k + 1)
    ensures if j == k then events[k].Closing? && OpenBefore(events, k) else !events[k].Reopening? && ClosedSince(events, j, k)
  {
    hide OpenBefore;
  }

  lemma {:induction false} TimesFollowEvents(times: seq<Option<Time>>, events: seq<Event>, k: nat)
    requires |times| == |events| + 1 && times[0].None? && k <= |events|
    requires forall i :: 0 <= i < |events| ==> times[i + 1] == TimeAfter(times[i], events[i])
    ensures times[k].None? <==> OpenBefore(events, k)
    ensures forall j: nat :: j < k && ClosedSince(events, j, k) ==> times[k] == Some(events[j].at)
  {
    if k == 0 {
    } else {
      hide OpenBefore, ClosedSince;
      TimesFollowEvents(times, events, k - 1);
      OpenBeforeStep(events, k - 1);
      assert times[k - 1 + 1] == TimeAfter(times[k - 1], events[k - 1]);
      forall j: nat | j < k && ClosedSince(events, j, k) ensures times[k] == Some(events[j].at) {
        ClosedSinceStep(events, j, k - 1);
      }
    }
  }

  function ClosingTimes(states: seq<State>, id: Id): seq<Option<Time>>
    requires Stays(states, id)
  {
    seq(|states|, i requires 0 <= i < |states| => states[i].leads[id].closedAt)
  }

  lemma StepOnClosingTime(loc: Locale, states: seq<State>, steps: seq<Step>, id: Id, i: nat)
    requires Run(loc, states, steps) && Stays(states, id) && i < |steps|
    ensures states[i + 1].leads[id].closedAt == TimeAfter(states[i].leads[id].closedAt, EventOf(states[i], steps[i], id))
  {
    hide StepTo, EventOf, TimeAfter, LogOf;
    StepOnLead(loc, states[i], steps[i], states[i + 1], id);
  }

  /** Main result: after any run of outcomes, assignments, moves, edits and deletions, the
      closing time of a lead that was open at the start is the time of the first closing since
      it was last reopened, and absent exactly when every closing was followed by a reopening. */
  lemma ClosedAtIsFirstClosing(loc: Locale, states: seq<State>, steps: seq<Step>, id: Id, k: nat)
    requires Run(loc, states, steps) && Stays(states, id) && k < |states| && states[0].leads[id].closedAt.None?
    ensures var events, closedAt := Events(states, steps, id), states[k].leads[id].closedAt;
      && (closedAt.None? <==> OpenBefore(events, k))
      && (forall j: nat :: j < k && ClosedSince(events, j, k) ==> closedAt == Some(events[j].at))
  {
    hide StepTo, EventOf, TimeAfter, OpenBefore, ClosedSince;
    var times, events := ClosingTimes(states, id), Events(states, steps, id);
    forall i | 0 <= i < |events| ensures times[i + 1] == TimeAfter(times[i], events[i]) {
      StepOnClosingTime(loc, states, steps, id, i);
    }
    TimesFollowEvents(times, events, k);
  }

  /** Main result: closed revenue is the deal value of its lead in every state of every run:
      the sort and the totals by deal value see what was closed. */
  lemma {:induction false} RunKeepsDealValue(loc: Locale, states: seq<State>, steps: seq<Step>, k: nat, id: Id)
    requires Run(loc, states, steps) && k < |states| && id in states[k].leads
    requires forall l :: l in states[0].leads ==> DealIsRevenue(states[0].leads[l])
    ensures DealIsRevenue(states[k].leads[id])
  {
    hide StepTo, DealIsRevenue, LeadStep;
    if k > 0 {
      var s, step, t := states[k - 1], steps[k - 1], states[k];
      if id in s.leads {
        RunKeepsDealValue(loc, states, steps, k - 1, id);
        StepOnLead(loc, s, step, t, id);
        LeadStepDeal(loc, s, step, t, id);
      } else {
        NewLeadDeal(loc, s, step, t, id);
      }
    }
  }

  lemma LeadStepDeal(loc: Locale, s: State, step: Step, t: State, id: Id)
    requires id in s.leads && id in t.leads && LeadStep(loc, s, step, t, id) && DealIsRevenue(s.leads[id])
    ensures DealIsRevenue(t.leads[id])
  {
    hide EventOf, TimeAfter, LogOf;
  }

  // ---------------------------------------------------------------- closing times on open leads

  /** A closing time left on a lead that is not closed any more. */
  predicate StaleClosing(l: Lead) { l.closedAt.Some? && l.salesStage !in CLOSED }

  /** Which steps route the lead to a team lead. */
  function Routings(loc: Locale, states: seq<State>, steps: seq<Step>, id: Id): (routed: seq<bool>)
    requires |steps| <= |states|
  {
    seq(|steps|, i requires 0 <= i < |steps| => id in RoutedBy(loc, states[i], steps[i]))
  }

  /** Some step before k routes the lead while it is closed, and no outcome follows before k. */
  ghost predicate RoutedWhileClosed(events: seq<Event>, routed: seq<bool>, k: nat)
    requires k <= |events| == |routed|
  {
    exists j :: 0 <= j < k && routed[j] && !OpenBefore(events, j) && forall r :: j < r < k ==> events[r].Neither?
  }

  lemma RoutedWhileClosedStep(events: seq<Event>, routed: seq<bool>, k: nat)
    requires k < |events| == |routed| && (routed[k] ==> events[k].Neither?)
    ensures RoutedWhileClosed(events, routed, k + 1)
       <==> events[k].Neither? && (RoutedWhileClosed(events, routed, k) || (routed[k] && !OpenBefore(events, k)))
  {
    hide OpenBefore;
    if RoutedWhileClosed(events, routed, k + 1) {
      var j :| 0 <= j < k + 1 && routed[j] && !OpenBefore(events, j) && forall r :: j < r < k + 1 ==> events[r].Neither?;
    }
  }

  lemma {:induction false} StaleFollowsRoutings(times: seq<Option<Time>>, events: seq<Event>, routed: seq<bool>, stale: seq<bool>, k: nat)
    requires |times| == |stale| == |events| + 1 && |routed| == |events| && k <= |events|
    requires times[0].None? && !stale[0]
    requires forall i :: 0 <= i < |events| ==> times[i + 1] == TimeAfter(times[i], events[i])
    requires forall i :: 0 <= i < |events| ==> routed[i] ==> events[i].Neither?
    requires forall i :: 0 <= i < |events| ==>
      (stale[i + 1] <==> events[i].Neither? && (stale[i] || (routed[i] && times[i].Some?)))
    ensures stale[k] <==> RoutedWhileClosed(events, routed, k)
  {
    if k > 0 {
      hide OpenBefore, RoutedWhileClosed, TimeAfter;
      StaleFollowsRoutings(times, events, routed, stale, k - 1);
      TimesFollowEvents(times, events, k - 1);
      RoutedWhileClosedStep(events, routed, k - 1);
      assert stale[k - 1 + 1] <==> events[k - 1].Neither? && (stale[k - 1] || (routed[k - 1] && times[k - 1].Some?));
    }
  }

  lemma StaleClosingStep(loc: Locale, s: State, step: Step, t: State, id: Id)
    requires id in s.leads && id in t.leads && LeadStep(loc, s, step, t, id)
    ensures StaleClosing(t.leads[id])
       <==> && EventOf(s, step, id).Neither?
            && (StaleClosing(s.leads[id]) || (id in RoutedBy(loc, s, step) && s.leads[id].closedAt.Some?))
  {
    hide LogOf, EventOf, RoutedBy;
  }

  lemma RoutingSetsNoStage(loc: Locale, s: State, step: Step, id: Id)
    requires id in RoutedBy(loc, s, step)
    ensures EventOf(s, step, id).Neither?
  {
    hide Assign, RoutedIds;
  }

  function StaleClosings(states: seq<State>, id: Id): seq<bool>
    requires Stays(states, id)
  {
    seq(|states|, i requires 0 <= i < |states| => StaleClosing(states[i].leads[id]))
  }

  lemma StepOnStaleClosing(loc: Locale, states: seq<State>, steps: seq<Step>, id: Id, i: nat)
    requires Run(loc, states, steps) && Stays(states, id) && i < |steps|
    ensures id in RoutedBy(loc, states[i], steps[i]) ==> EventOf(states[i], steps[i], id).Neither?
    ensures StaleClosing(states[i + 1].leads[id])
       <==> && EventOf(states[i], steps[i], id).Neither?
            && (StaleClosing(states[i].leads[id])
                || (id in RoutedBy(loc, states[i], steps[i]) && states[i].leads[id].closedAt.Some?))
  {
    hide StepTo, EventOf, RoutedBy, LeadStep, StaleClosing;
    StepOnLead(loc, states[i], steps[i], states[i + 1], id);
    StaleClosingStep(loc, states[i], steps[i], states[i + 1], id);
    if id in RoutedBy(loc, states[i], steps[i]) { RoutingSetsNoStage(loc, states[i], steps[i], id); }
  }

  /** Main result: after any run, a lead that was open at the start carries a closing time on an
      open stage if and only if some accepted assignment routed it to a team lead while it was
      closed, and no accepted outcome has set its stage since. */
  lemma StaleClosingIff(loc: Locale, states: seq<State>, steps: seq<Step>, id: Id, k: nat)
    requires Run(loc, states, steps) && Stays(states, id) && k < |states| && states[0].leads[id].closedAt.None?
    ensures StaleClosing(states[k].leads[id])
       <==> RoutedWhileClosed(Events(states, steps, id), Routings(loc, states, steps, id), k)
  {
    hide StepTo, EventOf, RoutedBy, TimeAfter, RoutedWhileClosed;
    var times, events := ClosingTimes(states, id), Events(states, steps, id);
    var routed, stale := Routings(loc, states, steps, id), StaleClosings(states, id);
    forall i | 0 <= i < |events|
      ensures times[i + 1] == TimeAfter(times[i], events[i])
      ensures routed[i] ==> events[i].Neither?
      ensures stale[i + 1] <==> events[i].Neither? && (stale[i] || (routed[i] && times[i].Some?))
    {
      StepOnClosingTime(loc, states, steps, id, i);
      StepOnStaleClosing(loc, states, steps, id, i);
    }
    StaleFollowsRoutings(times, events, routed, stale, k);
  }
}
