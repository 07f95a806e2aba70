/** The append functions: each one grows the clause list and the argument vector of a
    builder, and what it appended denotes one test of the direct predicate. */
module WhereBuilding {
  import opened Wrappers
  import opened Model
  import opened Text
  import opened Sql
  import opened Calendar
  import opened LeadQuery
  import opened LeadWhere
  import opened SearchWhere

  // ---------------------------------------------------------------- the remaining clauses

  /** column ILIKE '%CDR%' */
  function MentionsLiteral(fragment: string): Clause { ILikeEsc(Col(Portal), Lit("%" + fragment + "%")) }

  predicate PlainText(s: string) { forall c :: c in s ==> !IsMeta(c) }

  lemma MentionsLiteralMeaning(loc: Locale, db: Db, full: seq<Value>, l: Lead, fragment: string)
    requires FoldOk(loc.fold) && PlainText(fragment)
    ensures Eval(loc, db, full, l, NoRow, MentionsLiteral(fragment)) == Yes
       <==> l.portalWebsite.Some? && HasText(loc, l.portalWebsite.value, fragment)
  {
    if l.portalWebsite.Some? {
      NothingToEscape(fragment);
      EscapedILikeIsContains(loc.fold, l.portalWebsite.value, fragment);
    }
  }

  /** One or two brand names, joined by OR. */
  function BrandClause(fragments: seq<string>): Clause
    requires |fragments| == 1 || |fragments| == 2
  {
    if |fragments| == 1 then MentionsLiteral(fragments[0])
    else Or(MentionsLiteral(fragments[0]), MentionsLiteral(fragments[1]))
  }

  lemma BrandCompiles(loc: Locale, lo: nat, fragments: seq<string>)
    requires FoldOk(loc.fold) && (|fragments| == 1 || |fragments| == 2)
    requires forall f :: f in fragments ==> PlainText(f)
    ensures Compiles(loc, lo, BrandClause(fragments), [], PortalMentions(fragments))
  {
    var c := BrandClause(fragments);
    forall full: seq<Value>, db: Db, l: Lead
      ensures Eval(loc, db, full, l, NoRow, c) == Yes <==> Matches(loc, db, l, PortalMentions(fragments))
    {
      MentionsLiteralMeaning(loc, db, full, l, fragments[0]);
      if |fragments| == 2 {
        MentionsLiteralMeaning(loc, db, full, l, fragments[1]);
        OrMeaning(loc, db, full, l, NoRow, MentionsLiteral(fragments[0]), MentionsLiteral(fragments[1]));
      }
    }
  }

  const NO_REASON := "No reason recorded"

  predicate AsksNoReason(loc: Locale, reason: string) { EqualFold(loc, reason, NO_REASON) || IsNone(loc, reason) }

  lemma ReasonMeaning(loc: Locale, db: Db, full: seq<Value>, l: Lead, t: Term, reason: string)
    ensures TermValue(loc, full, l, NoRow, t) == Some(if AsksNoReason(loc, reason) then NO_REASON else reason)
         ==> (Eval(loc, db, full, l, NoRow, Eq(Col(Reason), t)) == Yes <==> Matches(loc, db, l, ReasonIs(reason)))
  {
    assert TermValue(loc, full, l, NoRow, Col(Reason)) == Some(ReasonText(loc, l));
  }

  lemma NoReasonCompiles(loc: Locale, lo: nat, reason: string)
    requires AsksNoReason(loc, reason)
    ensures Compiles(loc, lo, Eq(Col(Reason), Lit(NO_REASON)), [], ReasonIs(reason))
  {
    var c := Eq(Col(Reason), Lit(NO_REASON));
    forall full: seq<Value>, db: Db, l: Lead
      ensures Eval(loc, db, full, l, NoRow, c) == Yes <==> Matches(loc, db, l, ReasonIs(reason))
    {
      ReasonMeaning(loc, db, full, l, Lit(NO_REASON), reason);
    }
  }

  lemma ReasonCompiles(loc: Locale, lo: nat, reason: string)
    requires !AsksNoReason(loc, reason)
    ensures Compiles(loc, lo, Eq(Col(Reason), Param(lo + 1)), [TextValue(reason)], ReasonIs(reason))
  {
    var c, values := Eq(Col(Reason), Param(lo + 1)), [TextValue(reason)];
    forall full: seq<Value>, db: Db, l: Lead | Binds(full, lo, values)
      ensures Eval(loc, db, full, l, NoRow, c) == Yes <==> Matches(loc, db, l, ReasonIs(reason))
    {
      BindsAt(full, lo, values, 0);
      ReasonMeaning(loc, db, full, l, Param(lo + 1), reason);
    }
  }

  /** "createdAt" >= $n, the instant of local midnight. */
  lemma FromCompiles(loc: Locale, lo: nat, day: int)
    ensures Compiles(loc, lo, CreatedFrom(lo + 1), [TimeValue(DayStart(day))], AddedOnOrAfter(day))
  {
    var c, values := CreatedFrom(lo + 1), [TimeValue(DayStart(day))];
    forall full: seq<Value>, db: Db, l: Lead | Binds(full, lo, values)
      ensures Eval(loc, db, full, l, NoRow, c) == Yes <==> Matches(loc, db, l, AddedOnOrAfter(day))
    {
      BindsAt(full, lo, values, 0);
      WindowIsDayRange(l.createdAt, day, day);
    }
  }

  /** "createdAt" < $n, midnight of the day after the last one. */
  lemma BeforeCompiles(loc: Locale, lo: nat, day: int)
    ensures Compiles(loc, lo, CreatedBefore(lo + 1), [TimeValue(DayStart(day + 1))], AddedOnOrBefore(day))
  {
    var c, values := CreatedBefore(lo + 1), [TimeValue(DayStart(day + 1))];
    forall full: seq<Value>, db: Db, l: Lead | Binds(full, lo, values)
      ensures Eval(loc, db, full, l, NoRow, c) == Yes <==> Matches(loc, db, l, AddedOnOrBefore(day))
    {
      BindsAt(full, lo, values, 0);
      WindowIsDayRange(l.createdAt, day, day);
    }
  }

  lemma FlagCompiles(loc: Locale, lo: nat)
    ensures Compiles(loc, lo, IsNotAppropriate, [], FlaggedNotAppropriate)
  {
  }

  lemma NeverCompiles(loc: Locale, lo: nat, f: Field, q: string)
    requires f == IpField || f == DuplicateCheckField
    ensures Compiles(loc, lo, Const(false), [], Mentions(loc, f, q))
  {
    FindsCompiles(loc, lo, Const(false), [], f, q);
  }

  // ---------------------------------------------------------------- the builder

  class WhereBuilder {
    const loc: Locale
    var where: seq<Clause>
    var args: seq<Value>

    /** `reserved` placeholders are taken by the surrounding query. */
    constructor (loc: Locale, reserved: nat)
      ensures this.loc == loc && where == [] && |args| == reserved
    {
      this.loc := loc;
      where := [];
      args := seq(reserved, i => NullValue);
    }

    method AppendClause(c: Clause, values: seq<Value>, ghost t: Test)
      requires Compiles(loc, |args|, c, values, t)
      modifies this
      ensures Adds(loc, old(where), old(args), where, args, t)
    {
      AddOne(loc, where, args, c, values, t);
      args := args + values;
      where := where + [c];
    }

    method AppendEqual(column: LeadColumn, value: string)
      requires NeverNull(column)
      modifies this
      ensures Adds(loc, old(where), old(args), where, args, ColumnIn(column, [value]))
    {
      EqCompiles(loc, |args|, column, value);
      AppendClause(Eq(Col(column), Param(|args| + 1)), [TextValue(value)], ColumnIn(column, [value]));
    }

    /** The IN lists: one argument and one placeholder per value, in step. */
    method AppendIn(column: LeadColumn, values: seq<string>)
      requires NeverNull(column)
      modifies this
      ensures Adds(loc, old(where), old(args), where, args, ColumnIn(column, values))
    {
      var start := |args| + 1;
      var placeholders: seq<Term> := [];
      for i := 0 to |values|
        invariant where == old(where)
        invariant args == old(args) + Texts(values[..i])
        invariant placeholders == Placeholders(start, i)
      {
        assert Texts(values[..i + 1]) == Texts(values[..i]) + [TextValue(values[i])];
        args := args + [TextValue(values[i])];
        placeholders := placeholders + [Param(start + i)];
      }
      assert values[..|values|] == values;
      InCompiles(loc, |old(args)|, column, values);
      AddOne(loc, where, old(args), In(Col(column), placeholders), Texts(values), ColumnIn(column, values));
      where := where + [In(Col(column), placeholders)];
    }

    method AppendQualifiedStatuses()
      modifies this
      ensures Adds(loc, old(where), old(args), where, args, StatusIn(ASSIGNABLE))
    {
      AppendIn(Status, ASSIGNABLE);
    }

    method AppendQualifiedStages(stages: seq<string>)
      modifies this
      ensures Adds(loc, old(where), old(args), where, args, Conj(StatusIn(ASSIGNABLE), StageIn(stages)))
    {
      AppendQualifiedStatuses();
      ghost var w, a := where, args;
      AppendIn(Stage, stages);
      AddsTrans(loc, old(where), old(args), w, a, where, args, StatusIn(ASSIGNABLE), StageIn(stages));
    }

    method AppendQualifiedStage(stage: string)
      modifies this
      ensures Adds(loc, old(where), old(args), where, args, Conj(StatusIn(ASSIGNABLE), StageIn([stage])))
    {
      AppendQualifiedStatuses();
      ghost var w, a := where, args;
      AppendEqual(Stage, stage);
      AddsTrans(loc, old(where), old(args), w, a, where, args, StatusIn(ASSIGNABLE), StageIn([stage]));
    }

    method AppendLeadFilter(p: Preset)
      modifies this
      ensures Adds(loc, old(where), old(args), where, args, PresetTest(p))
    {
      match p
      case AllLeads => AddNothing(loc, where, args);
      case NewLeads => AppendEqual(Status, "NOT_QUALIFIED");
      case NotQualifiedLeads => AppendEqual(Status, "NOT_QUALIFIED");
      case QualifiedLeads => AppendQualifiedStatuses();
      case Pipeline => AppendQualifiedStatuses();
      case IrrelevantLeads => AppendEqual(Status, "IRRELEVANT");
      case NotAppropriateLeads =>
        FlagCompiles(loc, |args|);
        AppendClause(IsNotAppropriate, [], FlaggedNotAppropriate);
      case OpenLeads =>
        OpenCompiles(loc, |args|);
        AppendClause(OpenClause(|args|), Texts(CLOSED), StillOpen);
      case ContactedLeads => AppendIn(Stage, CONTACTED);
      case ConvertedLeads => AppendEqual(Stage, "CLOSED_WON");
      case LostLeads => AppendEqual(Stage, "CLOSED_LOST");
      case PassedLeads =>
        HandedOffCompiles(loc, |args|, PASSED_ACTIONS);
        AppendClause(HandedOffClause(|args|, |PASSED_ACTIONS|), Texts(PASSED_ACTIONS), HandedOff(PASSED_ACTIONS));
      case PassedSeTl => AppendQualifiedStages(WITH_LEAD_OR_EXEC);
      case PipelineAssigned => AppendQualifiedStages(WITH_LEAD_OR_EXEC);
      case NotPassed => AppendEqual(Stage, "PRE_SALES");
      case WithTeamLead => AppendEqual(Stage, "WITH_TEAM_LEAD");
      case WithSalesExec => AppendEqual(Stage, "WITH_EXECUTIVE");
      case AssignedLeads => AppendIn(Stage, WITH_LEAD_OR_EXEC);
      case InProgress => AppendIn(Stage, WORKING);
      case PipelineInProgress => AppendQualifiedStages(WORKING);
      case PipelineWon => AppendQualifiedStage("CLOSED_WON");
      case PipelineLost => AppendQualifiedStage("CLOSED_LOST");
    }

    method AppendNullableID(column: LeadColumn, value: string)
      requires IsIdColumn(column)
      modifies this
      ensures Adds(loc, old(where), old(args), where, args, Given(value, IdFacet(column, TrimSpace(value))))
    {
      var id := TrimSpace(value);
      if id == "" {
        AddNothing(loc, where, args);
      } else if IsNone(loc, id) {
        NullIdCompiles(loc, |args|, column, id);
        AppendClause(IsNull(Col(column)), [], IdFacet(column, id));
      } else {
        IdCompiles(loc, |args|, column, id);
        AppendClause(Eq(Col(column), Param(|args| + 1)), [TextValue(id)], IdFacet(column, id));
      }
    }

    method AppendBlankOrEqual(column: LeadColumn, value: string)
      modifies this
      ensures Adds(loc, old(where), old(args), where, args, Given(value, TextFacet(column, TrimSpace(value))))
    {
      var text := TrimSpace(value);
      if text == "" {
        AddNothing(loc, where, args);
      } else if IsNone(loc, text) {
        BlankCompiles(loc, |args|, column, text);
        AppendClause(BlankClause(column), [], TextFacet(column, text));
      } else {
        TextCompiles(loc, |args|, column, text);
        AppendClause(TrimEqualClause(Col(column), |args| + 1), [TextValue(text)], TextFacet(column, text));
      }
    }

    method AppendPlace(column: LeadColumn, value: string)
      modifies this
      ensures Adds(loc, old(where), old(args), where, args, Given(value, GeoFacet(column, TrimSpace(value))))
    {
      var place := TrimSpace(value);
      if place == "" {
        AddNothing(loc, where, args);
      } else if IsBlankGeoLabel(loc, place) {
        BlankGeoCompiles(loc, |args|, column, place);
        AppendClause(BlankGeoClause(column), [], GeoFacet(column, place));
      } else {
        PlaceCompiles(loc, |args|, column, place);
        AppendClause(TrimEqualClause(Col(column), |args| + 1), [TextValue(place)], GeoFacet(column, place));
      }
    }

    method AppendManager(value: string)
      modifies this
      ensures Adds(loc, old(where), old(args), where, args, Given(value, ManagedBy(TrimSpace(value))))
    {
      var manager := TrimSpace(value);
      if manager == "" {
        AddNothing(loc, where, args);
      } else {
        ManagerCompiles(loc, |args|, manager);
        AppendClause(ManagerClause(|args| + 1), [TextValue(manager)], ManagedBy(manager));
      }
    }

    method AppendAnalystTeamScope(atlID: string, teamName: string)
      modifies this
      ensures Adds(loc, old(where), old(args), where, args, Given(atlID, CreatedByTeamOf(TrimSpace(atlID), TrimSpace(teamName))))
    {
      var atl, team := TrimSpace(atlID), TrimSpace(teamName);
      if atl == "" {
        AddNothing(loc, where, args);
      } else {
        AnalystScopeCompiles(loc, |args|, atl, team);
        AppendClause(AnalystScopeClause(|args|, team), AnalystScopeValues(atl, team), CreatedByTeamOf(atl, team));
      }
    }

    method AppendServiceLine(line: string)
      requires FoldOk(loc.fold)
      modifies this
      ensures Adds(loc, old(where), old(args), where, args, ServiceLineTest(loc, line))
    {
      var brand := Map(loc.upper, TrimSpace(line));
      if brand == "CDR" || brand == "PTE" || brand == "ACS" {
        BrandCompiles(loc, |args|, [brand]);
        AppendClause(BrandClause([brand]), [], PortalMentions([brand]));
      } else if brand == "CCL" {
        BrandCompiles(loc, |args|, ["CCL", "NAATI"]);
        AppendClause(BrandClause(["CCL", "NAATI"]), [], PortalMentions(["CCL", "NAATI"]));
      } else {
        AddNothing(loc, where, args);
      }
    }

    method AppendUpper(column: LeadColumn, value: string)
      requires NeverNull(column)
      modifies this
      ensures Adds(loc, old(where), old(args), where, args, Given(value, ColumnIn(column, [Map(loc.upper, TrimSpace(value))])))
    {
      if TrimSpace(value) == "" {
        AddNothing(loc, where, args);
      } else {
        AppendEqual(column, Map(loc.upper, TrimSpace(value)));
      }
    }

    method AppendFrom(day: Option<int>)
      modifies this
      ensures Adds(loc, old(where), old(args), where, args, if day.Some? then AddedOnOrAfter(day.value) else Always)
    {
      if day.None? {
        AddNothing(loc, where, args);
      } else {
        FromCompiles(loc, |args|, day.value);
        AppendClause(CreatedFrom(|args| + 1), [TimeValue(DayStart(day.value))], AddedOnOrAfter(day.value));
      }
    }

    method AppendTo(day: Option<int>)
      modifies this
      ensures Adds(loc, old(where), old(args), where, args, if day.Some? then AddedOnOrBefore(day.value) else Always)
    {
      if day.None? {
        AddNothing(loc, where, args);
      } else {
        BeforeCompiles(loc, |args|, day.value);
        AppendClause(CreatedBefore(|args| + 1), [TimeValue(DayStart(day.value + 1))], AddedOnOrBefore(day.value));
      }
    }

    method AppendAdded(from: Option<int>, to: Option<int>)
      modifies this
      ensures Adds(loc, old(where), old(args), where, args, AddedTest(from, to))
    {
      var first, last := from, to;
      if from.Some? && to.Some? && from.value > to.value {
        first, last := to, from;
      }
      AppendFrom(first);
      ghost var w, a := where, args;
      AppendTo(last);
      AddsTrans(loc, old(where), old(args), w, a, where, args,
                if first.Some? then AddedOnOrAfter(first.value) else Always,
                if last.Some? then AddedOnOrBefore(last.value) else Always);
    }

    method AppendReason(value: string)
      modifies this
      ensures Adds(loc, old(where), old(args), where, args, Given(value, ReasonIs(TrimSpace(value))))
    {
      var reason := TrimSpace(value);
      if reason == "" {
        AddNothing(loc, where, args);
      } else if AsksNoReason(loc, reason) {
        NoReasonCompiles(loc, |args|, reason);
        AppendClause(Eq(Col(Reason), Lit(NO_REASON)), [], ReasonIs(reason));
      } else {
        ReasonCompiles(loc, |args|, reason);
        AppendClause(Eq(Col(Reason), Param(|args| + 1)), [TextValue(reason)], ReasonIs(reason));
      }
    }

    method AppendGeoFacets(p: LeadListParams)
      modifies this
      ensures Adds(loc, old(where), old(args), where, args, GeoTest(p))
    {
      AppendPlace(Country, p.country);
      ghost var w, a := where, args;
      AppendPlace(City, p.city);
      AddsTrans(loc, old(where), old(args), w, a, where, args,
                Given(p.country, GeoFacet(Country, TrimSpace(p.country))), Given(p.city, GeoFacet(City, TrimSpace(p.city))));
    }

    method AppendScopeFacets(p: LeadListParams)
      modifies this
      ensures Adds(loc, old(where), old(args), where, args, ScopeTest(p))
    {
      ghost var t1 := Given(p.teamId, IdFacet(TeamId, TrimSpace(p.teamId)));
      ghost var t2 := Given(p.analystId, IdFacet(CreatedById, TrimSpace(p.analystId)));
      ghost var t3 := Given(p.salesExecId, IdFacet(SalesExecId, TrimSpace(p.salesExecId)));
      ghost var t4 := Given(p.managerId, ManagedBy(TrimSpace(p.managerId)));
      ghost var t5 := Given(p.analystTeamLeadId, CreatedByTeamOf(TrimSpace(p.analystTeamLeadId), TrimSpace(p.analystTeamName)));
      ghost var w0, a0 := where, args;
      AppendNullableID(TeamId, p.teamId);
      ghost var w1, a1 := where, args;
      AppendNullableID(CreatedById, p.analystId);
      AddsTrans(loc, w0, a0, w1, a1, where, args, t1, t2);
      w1, a1 := where, args;
      AppendNullableID(SalesExecId, p.salesExecId);
      AddsTrans(loc, w0, a0, w1, a1, where, args, Conj(t1, t2), t3);
      w1, a1 := where, args;
      AppendManager(p.managerId);
      AddsTrans(loc, w0, a0, w1, a1, where, args, Conj(Conj(t1, t2), t3), t4);
      w1, a1 := where, args;
      AppendAnalystTeamScope(p.analystTeamLeadId, p.analystTeamName);
      AddsTrans(loc, w0, a0, w1, a1, where, args, Conj(Conj(Conj(t1, t2), t3), t4), t5);
    }

    method AppendChannelFacets(p: LeadListParams)
      requires FoldOk(loc.fold)
      modifies this
      ensures Adds(loc, old(where), old(args), where, args, ChannelTest(loc, p))
    {
      ghost var t1 := Given(p.source, TextFacet(Source, TrimSpace(p.source)));
      ghost var t2 := Given(p.portal, TextFacet(Portal, TrimSpace(p.portal)));
      ghost var t3 := Given(p.metaProfile, TextFacet(MetaProfile, TrimSpace(p.metaProfile)));
      ghost var t4 := if TrimSpace(p.portal) == "" then ServiceLineTest(loc, p.serviceLine) else Always;
      ghost var w0, a0 := where, args;
      AppendBlankOrEqual(Source, p.source);
      ghost var w1, a1 := where, args;
      AppendBlankOrEqual(Portal, p.portal);
      AddsTrans(loc, w0, a0, w1, a1, where, args, t1, t2);
      w1, a1 := where, args;
      AppendBlankOrEqual(MetaProfile, p.metaProfile);
      AddsTrans(loc, w0, a0, w1, a1, where, args, Conj(t1, t2), t3);
      w1, a1 := where, args;
      if TrimSpace(p.portal) == "" {
        AppendServiceLine(p.serviceLine);
      } else {
        AddNothing(loc, where, args);
      }
      AddsTrans(loc, w0, a0, w1, a1, where, args, Conj(Conj(t1, t2), t3), t4);
    }

    method AppendProgressFacets(p: LeadListParams)
      modifies this
      ensures Adds(loc, old(where), old(args), where, args, ProgressTest(loc, p))
    {
      ghost var t1 := Given(p.status, StatusIn([Map(loc.upper, TrimSpace(p.status))]));
      ghost var t2 := Given(p.stage, StageIn([Map(loc.upper, TrimSpace(p.stage))]));
      ghost var t3 := AddedTest(p.addedFrom, p.addedTo);
      ghost var t4 := Given(p.reason, ReasonIs(TrimSpace(p.reason)));
      ghost var w0, a0 := where, args;
      AppendUpper(Status, p.status);
      ghost var w1, a1 := where, args;
      AppendUpper(Stage, p.stage);
      AddsTrans(loc, w0, a0, w1, a1, where, args, t1, t2);
      w1, a1 := where, args;
      AppendAdded(p.addedFrom, p.addedTo);
      AddsTrans(loc, w0, a0, w1, a1, where, args, Conj(t1, t2), t3);
      w1, a1 := where, args;
      AppendReason(p.reason);
      AddsTrans(loc, w0, a0, w1, a1, where, args, Conj(Conj(t1, t2), t3), t4);
    }

    method AppendLeadFacets(p: LeadListParams)
      requires FoldOk(loc.fold)
      modifies this
      ensures Adds(loc, old(where), old(args), where, args, FacetsTest(loc, p))
    {
      ghost var w0, a0 := where, args;
      AppendGeoFacets(p);
      ghost var w1, a1 := where, args;
      AppendScopeFacets(p);
      AddsTrans(loc, w0, a0, w1, a1, where, args, GeoTest(p), ScopeTest(p));
      w1, a1 := where, args;
      AppendChannelFacets(p);
      AddsTrans(loc, w0, a0, w1, a1, where, args, Conj(GeoTest(p), ScopeTest(p)), ChannelTest(loc, p));
      w1, a1 := where, args;
      AppendProgressFacets(p);
      AddsTrans(loc, w0, a0, w1, a1, where, args,
                Conj(Conj(GeoTest(p), ScopeTest(p)), ChannelTest(loc, p)), ProgressTest(loc, p));
    }

    method AppendLeadSearch(query: string, field: Field)
      requires FoldOk(loc.fold)
      modifies this
      ensures Adds(loc, old(where), old(args), where, args,
                   if |TrimSpace(query)| < 2 then Always else Mentions(loc, field, TrimSpace(query)))
    {
      var q := TrimSpace(query);
      if |q| < 2 {
        AddNothing(loc, where, args);
        return;
      }
      match field
      case TagField =>
        TagCompiles(loc, |args|, q);
        AppendClause(OrAll(TagClauses(loc, q)), [], Mentions(loc, field, q));
      case ClosedField =>
        ClosedCompiles(loc, |args|, q);
        AppendClause(ClosedClause(loc, q), [], Mentions(loc, field, q));
      case PhoneField =>
        PhoneCompiles(loc, |args|, q);
        AppendClause(PhoneClause(|args|, q), WithDigits(Pattern(q), q, 2), Mentions(loc, field, q));
      case ContactField =>
        ContactCompiles(loc, |args|, q);
        AppendClause(ContactClause(|args|, q), WithDigits(Pattern(q), q, 2), Mentions(loc, field, q));
      case IpField =>
        NeverCompiles(loc, |args|, field, q);
        AppendClause(Const(false), [], Mentions(loc, field, q));
      case DuplicateCheckField =>
        NeverCompiles(loc, |args|, field, q);
        AppendClause(Const(false), [], Mentions(loc, field, q));
      case AllFields =>
        DocumentCompiles(loc, |args|, q);
        AppendClause(DocumentClause(|args|, q), WithDigits(Pattern(Fold(loc, q)), q, 4), Mentions(loc, field, q));
      case _ =>
        PatternCompiles(loc, |args|, field, q);
        AppendClause(PatternClause(field, |args| + 1), [TextValue(Pattern(q))], Mentions(loc, field, q));
    }
  }

  // ---------------------------------------------------------------- whole WHERE lists

  /** Main result: behind any `reserved` arguments and in front of any further ones, the
      compiled clauses use exactly $reserved+1 .. $reserved+|args| and select exactly
      the leads of the direct predicate. */
  method BuildLeadListWhere(loc: Locale, p: LeadListParams, reserved: nat)
    returns (where: seq<Clause>, args: seq<Value>)
    requires FoldOk(loc.fold)
    ensures Denotes(loc, reserved, where, args, ListTest(loc, p))
  {
    var b := new WhereBuilder(loc, reserved);
    ghost var w0, a0 := b.where, b.args;
    if TrimSpace(p.status) == "" {
      b.AppendLeadFilter(p.filter);
    } else {
      AddNothing(loc, w0, a0);
    }
    ghost var w1, a1 := b.where, b.args;
    b.AppendLeadFacets(p);
    AddsTrans(loc, w0, a0, w1, a1, b.where, b.args, BaseTest(p), FacetsTest(loc, p));
    w1, a1 := b.where, b.args;
    b.AppendLeadSearch(p.query, p.field);
    AddsTrans(loc, w0, a0, w1, a1, b.where, b.args, ScopeOnlyTest(loc, p), SearchTest(loc, p));
    where, args := b.where, b.args[reserved..];
    assert b.where[|w0|..] == b.where;
  }

  /** leadScopeWhere: the same query without the search box; `presetTest` is off for
      callers that bring their own. */
  method LeadScopeWhere(loc: Locale, p: LeadListParams, applyPreset: bool, reserved: nat)
    returns (where: seq<Clause>, args: seq<Value>)
    requires FoldOk(loc.fold)
    ensures Denotes(loc, reserved, where, args, Conj(if applyPreset then BaseTest(p) else Always, FacetsTest(loc, p)))
  {
    var b := new WhereBuilder(loc, reserved);
    ghost var w0, a0 := b.where, b.args;
    if applyPreset && TrimSpace(p.status) == "" {
      b.AppendLeadFilter(p.filter);
    } else {
      AddNothing(loc, w0, a0);
    }
    ghost var w1, a1 := b.where, b.args;
    b.AppendLeadFacets(p);
    AddsTrans(loc, w0, a0, w1, a1, b.where, b.args, if applyPreset then BaseTest(p) else Always, FacetsTest(loc, p));
    where, args := b.where, b.args[reserved..];
    assert b.where[|w0|..] == b.where;
  }

  /** Appending more arguments (a cursor, a limit, a status) changes no meaning. */
  lemma MoreArgumentsKeepMeaning(loc: Locale, where: seq<Clause>, args: seq<Value>, t: Test, more: seq<Value>, db: Db, l: Lead)
    requires Denotes(loc, 0, where, args, t)
    ensures Holds(loc, db, args + more, l, where) <==> Matches(loc, db, l, t)
    ensures Holds(loc, db, args + more, l, where) <==> Holds(loc, db, args, l, where)
  {
    assert (args + more)[0..|args|] == args && args[0..|args|] == args;
    assert Binds(args + more, 0, args) && Binds(args, 0, args);
  }
}
