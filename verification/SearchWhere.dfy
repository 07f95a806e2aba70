/** The clauses of the search box, one per searched field. */
module SearchWhere {
  import opened Wrappers
  import opened Model
  import opened Text
  import opened Sql
  import opened LeadQuery
  import opened LeadWhere

  function Pattern(q: string): string { "%" + EscapeLike(q) + "%" }

  function DigitPattern(q: string): string { "%" + DigitsOnly(q) + "%" }

  /** expr ILIKE $n ESCAPE '\' */
  function ILikeParam(t: Term, n: nat): Clause { ILikeEsc(t, Param(n)) }

  ghost predicate PatternAt(full: seq<Value>, n: nat, q: string) {
    1 <= n <= |full| && full[n - 1] == TextValue(Pattern(q))
  }

  lemma ILikeMeaning(loc: Locale, db: Db, full: seq<Value>, l: Lead, row: Row, t: Term, n: nat, q: string)
    requires FoldOk(loc.fold) && PatternAt(full, n, q)
    ensures var v := TermValue(loc, full, l, row, t);
            Eval(loc, db, full, l, row, ILikeParam(t, n)) == if v.None? then Unknown else Known(HasText(loc, v.value, q))
  {
    var v := TermValue(loc, full, l, row, t);
    if v.Some? {
      EscapedILikeIsContains(loc.fold, v.value, q);
    }
  }

  /** COALESCE(column, '') */
  function OrEmpty(c: LeadColumn): Term { Coalesce(Col(c), "") }

  /** column ILIKE $n OR replace(lower(column), '_', ' ') ILIKE $n */
  function CodeClause(t: Term, n: nat): Clause {
    Or(ILikeParam(t, n), ILikeParam(Spaced(Lower(t)), n))
  }

  lemma CodeMeaning(loc: Locale, db: Db, full: seq<Value>, l: Lead, row: Row, t: Term, n: nat, q: string)
    requires FoldOk(loc.fold) && PatternAt(full, n, q)
    requires TermValue(loc, full, l, row, t).Some?
    ensures var v := TermValue(loc, full, l, row, t).value;
            Eval(loc, db, full, l, row, CodeClause(t, n)) == Known(HasText(loc, v, q) || HasText(loc, Spaces(Fold(loc, v)), q))
  {
    var v := TermValue(loc, full, l, row, t).value;
    assert TermValue(loc, full, l, row, Lower(t)) == Some(Fold(loc, v));
    assert TermValue(loc, full, l, row, Spaced(Lower(t))) == Some(Spaces(Fold(loc, v)));
    ILikeMeaning(loc, db, full, l, row, t, n, q);
    ILikeMeaning(loc, db, full, l, row, Spaced(Lower(t)), n, q);
  }

  /** One pattern, two or three texts. */
  function EitherClause(t: Term, u: Term, n: nat): Clause { Or(ILikeParam(t, n), ILikeParam(u, n)) }

  function AnyClause(t: Term, u: Term, v: Term, n: nat): Clause { Or(EitherClause(t, u, n), ILikeParam(v, n)) }

  lemma EitherMeaning(loc: Locale, db: Db, full: seq<Value>, l: Lead, row: Row, t: Term, u: Term, n: nat, q: string)
    requires FoldOk(loc.fold) && PatternAt(full, n, q)
    requires TermValue(loc, full, l, row, t).Some? && TermValue(loc, full, l, row, u).Some?
    ensures Eval(loc, db, full, l, row, EitherClause(t, u, n))
         == Known(HasText(loc, TermValue(loc, full, l, row, t).value, q) || HasText(loc, TermValue(loc, full, l, row, u).value, q))
  {
    ILikeMeaning(loc, db, full, l, row, t, n, q);
    ILikeMeaning(loc, db, full, l, row, u, n, q);
  }

  lemma AnyMeaning(loc: Locale, db: Db, full: seq<Value>, l: Lead, row: Row, t: Term, u: Term, v: Term, n: nat, q: string)
    requires FoldOk(loc.fold) && PatternAt(full, n, q)
    requires TermValue(loc, full, l, row, t).Some? && TermValue(loc, full, l, row, u).Some? && TermValue(loc, full, l, row, v).Some?
    ensures Eval(loc, db, full, l, row, AnyClause(t, u, v, n))
         == Known(|| HasText(loc, TermValue(loc, full, l, row, t).value, q)
                  || HasText(loc, TermValue(loc, full, l, row, u).value, q)
                  || HasText(loc, TermValue(loc, full, l, row, v).value, q))
  {
    assert Eval(loc, db, full, l, row, AnyClause(t, u, v, n))
        == Either(Eval(loc, db, full, l, row, EitherClause(t, u, n)), Eval(loc, db, full, l, row, ILikeParam(v, n)));
    EitherMeaning(loc, db, full, l, row, t, u, n, q);
    ILikeMeaning(loc, db, full, l, row, v, n, q);
  }

  /** The fields whose clause takes one pattern and nothing else. */
  predicate IsPatternField(f: Field) {
    f !in {AllFields, TagField, PhoneField, ClosedField, IpField, DuplicateCheckField, ContactField}
  }

  function DateClause(column: DateStyle -> LeadColumn, n: nat): Clause {
    AnyClause(Col(column(UsDate)), Col(column(IsoDate)), Col(column(LongDate)), n)
  }

  function NameClause(link: Link, n: nat): Clause { Exists(link, ILikeParam(Sub(UserName), n)) }

  function PatternClause(f: Field, n: nat): Clause
    requires IsPatternField(f)
  {
    match f
    case SourceField => ILikeParam(Col(Source), n)
    case PortalField => ILikeParam(OrEmpty(Portal), n)
    case LeadField => ILikeParam(Col(LeadName), n)
    case AnalystField => Exists(Creator, EitherClause(Sub(UserName), Coalesce(Sub(UserEmail), ""), n))
    case EmailField => ILikeParam(OrEmpty(LeadEmail), n)
    case ClientProfileField => ILikeParam(OrEmpty(ClientProfile), n)
    case LocationField => AnyClause(OrEmpty(City), OrEmpty(Country), Joined(OrEmpty(City), ", ", OrEmpty(Country)), n)
    case AnalystNotesField => ILikeParam(OrEmpty(Notes), n)
    case StatusField => CodeClause(Col(Status), n)
    case ScoreField => ILikeParam(OrEmpty(Score), n)
    case StageField => CodeClause(Col(Stage), n)
    case ClosedDateField => And(Not(ClosedAtIsNull), DateClause(s => ClosedText(s), n))
    case ExecutiveNotesField => ILikeParam(OrEmpty(LostNotes), n)
    case AddedField => DateClause(s => CreatedText(s), n)
    case TeamField => Or(Exists(LeadTeam, ILikeParam(Sub(TeamName), n)), NameClause(MainTeamLead, n))
    case HandoffField => Exists(Handoffs, HandoffCondition(n))
    case DealValueField => EitherClause(OrEmpty(DealValue), OrEmpty(DealCurrency), n)
    case SalesExecutiveField => NameClause(SalesExec, n)
  }

  lemma TextTerm(loc: Locale, full: seq<Value>, l: Lead, row: Row, c: LeadColumn)
    ensures TermValue(loc, full, l, row, OrEmpty(c)) == Some(Opt(ColumnValue(loc, l, c)))
  {
  }

  /** The fields searched in one text column. */
  function PlainColumn(f: Field): Option<LeadColumn> {
    match f
    case SourceField => Some(Source)
    case PortalField => Some(Portal)
    case LeadField => Some(LeadName)
    case EmailField => Some(LeadEmail)
    case ClientProfileField => Some(ClientProfile)
    case AnalystNotesField => Some(Notes)
    case ScoreField => Some(Score)
    case ExecutiveNotesField => Some(LostNotes)
    case _ => None
  }

  lemma PlainMentions(loc: Locale, db: Db, l: Lead, f: Field, q: string)
    requires PlainColumn(f).Some?
    ensures FieldMentions(loc, db, l, f, q) == HasText(loc, Opt(ColumnValue(loc, l, PlainColumn(f).value)), q)
  {
  }

  lemma SimpleField(loc: Locale, db: Db, full: seq<Value>, l: Lead, f: Field, n: nat, q: string)
    requires FoldOk(loc.fold) && PatternAt(full, n, q)
    requires IsPatternField(f) && PlainColumn(f).Some?
    ensures Eval(loc, db, full, l, NoRow, PatternClause(f, n)) == Yes <==> FieldMentions(loc, db, l, f, q)
  {
    var column := PlainColumn(f).value;
    var t := PatternClause(f, n).t;
    assert t == OrEmpty(column) || (t == Col(column) && (column == Source || column == LeadName));
    PlainMentions(loc, db, l, f, q);
    TextTerm(loc, full, l, NoRow, column);
    ILikeMeaning(loc, db, full, l, NoRow, t, n, q);
  }

  lemma CodeFields(loc: Locale, db: Db, full: seq<Value>, l: Lead, n: nat, q: string)
    requires FoldOk(loc.fold) && PatternAt(full, n, q)
    ensures Eval(loc, db, full, l, NoRow, PatternClause(StatusField, n)) == Yes <==> FieldMentions(loc, db, l, StatusField, q)
    ensures Eval(loc, db, full, l, NoRow, PatternClause(StageField, n)) == Yes <==> FieldMentions(loc, db, l, StageField, q)
  {
    CodeMeaning(loc, db, full, l, NoRow, Col(Status), n, q);
    CodeMeaning(loc, db, full, l, NoRow, Col(Stage), n, q);
  }

  lemma DealValueMeaning(loc: Locale, db: Db, full: seq<Value>, l: Lead, n: nat, q: string)
    requires FoldOk(loc.fold) && PatternAt(full, n, q)
    ensures Eval(loc, db, full, l, NoRow, PatternClause(DealValueField, n)) == Yes <==> FieldMentions(loc, db, l, DealValueField, q)
  {
    TextTerm(loc, full, l, NoRow, DealValue);
    TextTerm(loc, full, l, NoRow, DealCurrency);
    assert FieldMentions(loc, db, l, DealValueField, q) ==
      (HasText(loc, Opt(ColumnValue(loc, l, DealValue)), q) || HasText(loc, Opt(ColumnValue(loc, l, DealCurrency)), q));
    hide Eval, TermValue, HasText, FieldMentions, ColumnValue;
    EitherMeaning(loc, db, full, l, NoRow, OrEmpty(DealValue), OrEmpty(DealCurrency), n, q);
  }

  lemma LocationMeaning(loc: Locale, db: Db, full: seq<Value>, l: Lead, n: nat, q: string)
    requires FoldOk(loc.fold) && PatternAt(full, n, q)
    ensures Eval(loc, db, full, l, NoRow, PatternClause(LocationField, n)) == Yes <==> FieldMentions(loc, db, l, LocationField, q)
  {
    var place := Joined(OrEmpty(City), ", ", OrEmpty(Country));
    TextTerm(loc, full, l, NoRow, City);
    TextTerm(loc, full, l, NoRow, Country);
    assert TermValue(loc, full, l, NoRow, place) == Some(Opt(l.city) + ", " + Opt(l.country));
    AnyMeaning(loc, db, full, l, NoRow, OrEmpty(City), OrEmpty(Country), place, n, q);
  }

  lemma AddedMeaning(loc: Locale, db: Db, full: seq<Value>, l: Lead, n: nat, q: string)
    requires FoldOk(loc.fold) && PatternAt(full, n, q)
    ensures Eval(loc, db, full, l, NoRow, PatternClause(AddedField, n)) == Yes <==> FieldMentions(loc, db, l, AddedField, q)
  {
    AnyMeaning(loc, db, full, l, NoRow, Col(CreatedText(UsDate)), Col(CreatedText(IsoDate)), Col(CreatedText(LongDate)), n, q);
  }

  lemma ClosedDateMeaning(loc: Locale, db: Db, full: seq<Value>, l: Lead, n: nat, q: string)
    requires FoldOk(loc.fold) && PatternAt(full, n, q)
    ensures Eval(loc, db, full, l, NoRow, PatternClause(ClosedDateField, n)) == Yes <==> FieldMentions(loc, db, l, ClosedDateField, q)
  {
    assert Eval(loc, db, full, l, NoRow, Not(ClosedAtIsNull)) == Known(l.closedAt.Some?);
    if l.closedAt.Some? {
      AnyMeaning(loc, db, full, l, NoRow, Col(ClosedText(UsDate)), Col(ClosedText(IsoDate)), Col(ClosedText(LongDate)), n, q);
    }
  }

  lemma NameMeaning(loc: Locale, db: Db, full: seq<Value>, l: Lead, link: Link, n: nat, q: string)
    requires FoldOk(loc.fold) && PatternAt(full, n, q)
    requires link == Creator || link == SalesExec || link == MainTeamLead
    ensures Eval(loc, db, full, l, NoRow, NameClause(link, n)) == Known(NameMentions(loc, db, LinkedUserId(l, link), q))
  {
    var u := FindUser(db, LinkedUserId(l, link));
    ExistsUserMeaning(loc, db, full, l, link, ILikeParam(Sub(UserName), n));
    if u.Some? {
      ILikeMeaning(loc, db, full, l, UserRow(u.value), Sub(UserName), n, q);
    }
  }

  lemma AnalystMeaning(loc: Locale, db: Db, full: seq<Value>, l: Lead, n: nat, q: string)
    requires FoldOk(loc.fold) && PatternAt(full, n, q)
    ensures Eval(loc, db, full, l, NoRow, PatternClause(AnalystField, n)) == Yes <==> FieldMentions(loc, db, l, AnalystField, q)
  {
    var u := FindUser(db, l.createdById);
    var inner := EitherClause(Sub(UserName), Coalesce(Sub(UserEmail), ""), n);
    ExistsUserMeaning(loc, db, full, l, Creator, inner);
    if u.Some? {
      var row := UserRow(u.value);
      assert TermValue(loc, full, l, row, Coalesce(Sub(UserEmail), "")) == Some(u.value.email);
      EitherMeaning(loc, db, full, l, row, Sub(UserName), Coalesce(Sub(UserEmail), ""), n, q);
    }
  }

  lemma TeamMeaning(loc: Locale, db: Db, full: seq<Value>, l: Lead, n: nat, q: string)
    requires FoldOk(loc.fold) && PatternAt(full, n, q)
    ensures Eval(loc, db, full, l, NoRow, PatternClause(TeamField, n)) == Yes <==> FieldMentions(loc, db, l, TeamField, q)
  {
    NameMeaning(loc, db, full, l, MainTeamLead, n, q);
    var inner := ILikeParam(Sub(TeamName), n);
    var found := l.teamId.Some? && l.teamId.value in db.teams;
    if found {
      var row := TeamRow(db.teams[l.teamId.value]);
      assert Linked(db, l, LeadTeam, row);
      ILikeMeaning(loc, db, full, l, row, Sub(TeamName), n, q);
    }
    assert Eval(loc, db, full, l, NoRow, Exists(LeadTeam, inner))
        == Known(found && HasText(loc, db.teams[l.teamId.value].name, q));
  }

  function HandoffSaid(n: nat): Clause {
    Or(CodeClause(Sub(HandoffAction), n), ILikeParam(Coalesce(Sub(HandoffDetail), ""), n))
  }

  lemma SaidMeaning(loc: Locale, db: Db, full: seq<Value>, l: Lead, h: Handoff, n: nat, q: string)
    requires FoldOk(loc.fold) && PatternAt(full, n, q)
    ensures Eval(loc, db, full, l, HandoffRow(h), HandoffSaid(n))
         == Known(HasText(loc, h.action, q) || HasText(loc, Spaces(Fold(loc, h.action)), q) || HasText(loc, Opt(h.detail), q))
  {
    var detail := Coalesce(Sub(HandoffDetail), "");
    CodeMeaning(loc, db, full, l, HandoffRow(h), Sub(HandoffAction), n, q);
    assert TermValue(loc, full, l, HandoffRow(h), detail) == Some(Opt(h.detail));
    ILikeMeaning(loc, db, full, l, HandoffRow(h), detail, n, q);
  }

  /** h.action <> 'LEAD_CREATED' AND (..) */
  function HandoffCondition(n: nat): Clause {
    And(Not(Eq(Sub(HandoffAction), Lit("LEAD_CREATED"))), HandoffSaid(n))
  }

  lemma ConditionMeaning(loc: Locale, db: Db, full: seq<Value>, l: Lead, h: Handoff, n: nat, q: string)
    requires FoldOk(loc.fold) && PatternAt(full, n, q)
    ensures Eval(loc, db, full, l, HandoffRow(h), HandoffCondition(n)) == Known(HandoffMentions(loc, h, q))
  {
    var created := Eq(Sub(HandoffAction), Lit("LEAD_CREATED"));
    SaidMeaning(loc, db, full, l, h, n, q);
    assert Eval(loc, db, full, l, HandoffRow(h), created) == Known(h.action == "LEAD_CREATED");
    assert Eval(loc, db, full, l, HandoffRow(h), Not(created)) == Known(h.action != "LEAD_CREATED");
  }

  lemma HandoffMeaning(loc: Locale, db: Db, full: seq<Value>, l: Lead, n: nat, q: string)
    requires FoldOk(loc.fold) && PatternAt(full, n, q)
    ensures Eval(loc, db, full, l, NoRow, PatternClause(HandoffField, n)) == Yes <==> FieldMentions(loc, db, l, HandoffField, q)
  {
    forall h: Handoff ensures Eval(loc, db, full, l, HandoffRow(h), HandoffCondition(n)) == Known(HandoffMentions(loc, h, q)) {
      ConditionMeaning(loc, db, full, l, h, n, q);
    }
    if h :| h in db.handoffs && h.leadId == l.id && HandoffMentions(loc, h, q) {
      assert Linked(db, l, Handoffs, HandoffRow(h));
    }
  }

  lemma PatternMeaning(loc: Locale, db: Db, full: seq<Value>, l: Lead, f: Field, n: nat, q: string)
    requires FoldOk(loc.fold) && PatternAt(full, n, q) && IsPatternField(f)
    ensures Eval(loc, db, full, l, NoRow, PatternClause(f, n)) == Yes <==> FieldMentions(loc, db, l, f, q)
  {
    match f
    case AnalystField => AnalystMeaning(loc, db, full, l, n, q);
    case LocationField => LocationMeaning(loc, db, full, l, n, q);
    case StatusField => CodeFields(loc, db, full, l, n, q);
    case StageField => CodeFields(loc, db, full, l, n, q);
    case DealValueField => DealValueMeaning(loc, db, full, l, n, q);
    case AddedField => AddedMeaning(loc, db, full, l, n, q);
    case ClosedDateField => ClosedDateMeaning(loc, db, full, l, n, q);
    case TeamField => TeamMeaning(loc, db, full, l, n, q);
    case HandoffField => HandoffMeaning(loc, db, full, l, n, q);
    case SalesExecutiveField => NameMeaning(loc, db, full, l, SalesExec, n, q);
    case _ => SimpleField(loc, db, full, l, f, n, q);
  }

  // ---------------------------------------------------------------- numbering

  lemma NameParams(link: Link, n: nat)
    ensures ClauseParams(NameClause(link, n)) == {n}
  {
    assert ClauseParams(ILikeParam(Sub(UserName), n)) == {n};
  }

  lemma CodeParams(t: Term, n: nat)
    requires TermParams(t) == {}
    ensures ClauseParams(CodeClause(t, n)) == {n}
  {
    assert TermParams(Lower(t)) == {};
    assert ClauseParams(ILikeParam(Spaced(Lower(t)), n)) == {n};
    assert ClauseParams(ILikeParam(t, n)) == {n};
  }

  lemma AnyParams(t: Term, u: Term, v: Term, n: nat)
    requires TermParams(t) == TermParams(u) == TermParams(v) == {}
    ensures ClauseParams(EitherClause(t, u, n)) == {n}
    ensures ClauseParams(AnyClause(t, u, v, n)) == {n}
  {
    assert ClauseParams(ILikeParam(t, n)) == {n};
    assert ClauseParams(ILikeParam(u, n)) == {n};
    assert ClauseParams(ILikeParam(v, n)) == {n};
  }

  lemma HandoffParams(n: nat)
    ensures ClauseParams(PatternClause(HandoffField, n)) == {n}
  {
    CodeParams(Sub(HandoffAction), n);
    assert ClauseParams(ILikeParam(Coalesce(Sub(HandoffDetail), ""), n)) == {n};
    assert ClauseParams(HandoffSaid(n)) == {n};
    assert ClauseParams(Eq(Sub(HandoffAction), Lit("LEAD_CREATED"))) == {};
    assert ClauseParams(Not(Eq(Sub(HandoffAction), Lit("LEAD_CREATED")))) == {};
    assert ClauseParams(HandoffCondition(n)) == {n};
  }

  lemma PlainParams(f: Field, n: nat)
    requires IsPatternField(f) && PlainColumn(f).Some?
    ensures ClauseParams(PatternClause(f, n)) == {n}
  {
    assert TermParams(PatternClause(f, n).t) == {};
  }

  /** A pattern clause uses its one placeholder, however often, and no other. */
  lemma PatternParams(f: Field, n: nat)
    requires IsPatternField(f)
    ensures ClauseParams(PatternClause(f, n)) == {n}
  {
    match f
    case AnalystField =>
      AnyParams(Sub(UserName), Coalesce(Sub(UserEmail), ""), Sub(UserName), n);
    case LocationField =>
      assert TermParams(OrEmpty(City)) == {} && TermParams(OrEmpty(Country)) == {};
      AnyParams(OrEmpty(City), OrEmpty(Country), Joined(OrEmpty(City), ", ", OrEmpty(Country)), n);
    case StatusField => CodeParams(Col(Status), n);
    case StageField => CodeParams(Col(Stage), n);
    case DealValueField => AnyParams(OrEmpty(DealValue), OrEmpty(DealCurrency), OrEmpty(DealCurrency), n);
    case AddedField => AnyParams(Col(CreatedText(UsDate)), Col(CreatedText(IsoDate)), Col(CreatedText(LongDate)), n);
    case ClosedDateField => AnyParams(Col(ClosedText(UsDate)), Col(ClosedText(IsoDate)), Col(ClosedText(LongDate)), n);
    case TeamField =>
      NameParams(MainTeamLead, n);
      assert ClauseParams(ILikeParam(Sub(TeamName), n)) == {n};
    case HandoffField => HandoffParams(n);
    case SalesExecutiveField => NameParams(SalesExec, n);
    case _ => PlainParams(f, n);
  }

  /** The clause selects the leads whose field mentions the query. */
  ghost predicate Finds(loc: Locale, db: Db, full: seq<Value>, l: Lead, c: Clause, f: Field, q: string) {
    Eval(loc, db, full, l, NoRow, c) == Yes <==> FieldMentions(loc, db, l, f, q)
  }

  lemma FindsCompiles(loc: Locale, lo: nat, c: Clause, values: seq<Value>, f: Field, q: string)
    requires forall n: nat :: n in ClauseParams(c) <==> lo < n <= lo + |values|
    requires forall full: seq<Value>, db: Db, l: Lead :: Binds(full, lo, values) ==> Finds(loc, db, full, l, c, f, q)
    ensures Compiles(loc, lo, c, values, Mentions(loc, f, q))
  {
    forall full: seq<Value>, db: Db, l: Lead | Binds(full, lo, values)
      ensures Eval(loc, db, full, l, NoRow, c) == Yes <==> Matches(loc, db, l, Mentions(loc, f, q))
    {
      assert Finds(loc, db, full, l, c, f, q);
    }
  }

  lemma PatternCompiles(loc: Locale, lo: nat, f: Field, q: string)
    requires FoldOk(loc.fold) && IsPatternField(f)
    ensures Compiles(loc, lo, PatternClause(f, lo + 1), [TextValue(Pattern(q))], Mentions(loc, f, q))
  {
    var c := PatternClause(f, lo + 1);
    PatternParams(f, lo + 1);
    forall full: seq<Value>, db: Db, l: Lead | Binds(full, lo, [TextValue(Pattern(q))])
      ensures Finds(loc, db, full, l, c, f, q)
    {
      BindsAt(full, lo, [TextValue(Pattern(q))], 0);
      PatternMeaning(loc, db, full, l, f, lo + 1, q);
    }
    FindsCompiles(loc, lo, c, [TextValue(Pattern(q))], f, q);
  }

  // ---------------------------------------------------------------- phone numbers

  /** The digit pattern is only searched when there are at least `least` digits. */
  function WithDigits(first: string, q: string, least: nat): seq<Value> {
    [TextValue(first)] + if |DigitsOnly(q)| >= least then [TextValue(DigitPattern(q))] else []
  }

  function OrDigits(c: Clause, t: Term, lo: nat, q: string, least: nat): Clause {
    if |DigitsOnly(q)| >= least then Or(c, LikeEsc(t, Param(lo + 2))) else c
  }

  lemma OrDigitsMeaning(loc: Locale, db: Db, full: seq<Value>, l: Lead, c: Clause, t: Term, lo: nat, first: string, q: string, least: nat)
    requires Binds(full, lo, WithDigits(first, q, least))
    requires TermValue(loc, full, l, NoRow, t).Some?
    ensures full[lo] == TextValue(first)
    ensures Eval(loc, db, full, l, NoRow, OrDigits(c, t, lo, q, least)) == Yes
       <==> || Eval(loc, db, full, l, NoRow, c) == Yes
            || (|DigitsOnly(q)| >= least && Contains(TermValue(loc, full, l, NoRow, t).value, DigitsOnly(q)))
  {
    var values := WithDigits(first, q, least);
    BindsAt(full, lo, values, 0);
    if |DigitsOnly(q)| >= least {
      BindsAt(full, lo, values, 1);
      assert OrDigits(c, t, lo, q, least) == Or(c, LikeEsc(t, Param(lo + 2)));
      assert Eval(loc, db, full, l, NoRow, LikeEsc(t, Param(lo + 2)))
          == Known(Contains(TermValue(loc, full, l, NoRow, t).value, DigitsOnly(q))) by {
        DigitsMeaning(loc, db, full, l, t, lo + 2, q);
      }
      OrMeaning(loc, db, full, l, NoRow, c, LikeEsc(t, Param(lo + 2)));
    }
  }

  lemma DigitsMeaning(loc: Locale, db: Db, full: seq<Value>, l: Lead, t: Term, n: nat, q: string)
    requires 1 <= n <= |full| && full[n - 1] == TextValue(DigitPattern(q))
    requires TermValue(loc, full, l, NoRow, t).Some?
    ensures Eval(loc, db, full, l, NoRow, LikeEsc(t, Param(n)))
         == Known(Contains(TermValue(loc, full, l, NoRow, t).value, DigitsOnly(q)))
  {
    DigitLikeIsContains(TermValue(loc, full, l, NoRow, t).value, q);
  }

  function PhoneClause(lo: nat, q: string): Clause {
    OrDigits(ILikeParam(OrEmpty(Phone), lo + 1), Stripped(OrEmpty(Phone)), lo, q, 2)
  }

  lemma PhoneMeaning(loc: Locale, db: Db, full: seq<Value>, l: Lead, lo: nat, q: string)
    requires FoldOk(loc.fold) && Binds(full, lo, WithDigits(Pattern(q), q, 2))
    ensures Eval(loc, db, full, l, NoRow, PhoneClause(lo, q)) == Yes <==> PhoneMentions(loc, l, q)
    ensures full[lo] == TextValue(Pattern(q))
  {
    var t := Stripped(OrEmpty(Phone));
    TextTerm(loc, full, l, NoRow, Phone);
    assert TermValue(loc, full, l, NoRow, t) == Some(StripSeparators(Opt(l.phone)));
    PhoneTerms(lo);
    OrDigitsMeaning(loc, db, full, l, ILikeParam(OrEmpty(Phone), lo + 1), t, lo, Pattern(q), q, 2);
    ILikeMeaning(loc, db, full, l, NoRow, OrEmpty(Phone), lo + 1, q);
  }

  lemma PhoneTerms(lo: nat)
    ensures TermParams(Stripped(OrEmpty(Phone))) == {}
    ensures ClauseParams(ILikeParam(OrEmpty(Phone), lo + 1)) == {lo + 1}
  {
    assert TermParams(OrEmpty(Phone)) == {};
  }

  lemma PhoneParams(lo: nat, q: string)
    ensures forall n: nat :: n in ClauseParams(PhoneClause(lo, q)) <==> lo < n <= lo + |WithDigits(Pattern(q), q, 2)|
  {
    PhoneTerms(lo);
    assert ClauseParams(LikeEsc(Stripped(OrEmpty(Phone)), Param(lo + 2))) == {lo + 2};
  }

  lemma PhoneCompiles(loc: Locale, lo: nat, q: string)
    requires FoldOk(loc.fold)
    ensures Compiles(loc, lo, PhoneClause(lo, q), WithDigits(Pattern(q), q, 2), Mentions(loc, PhoneField, q))
  {
    PhoneParams(lo, q);
    forall full: seq<Value>, db: Db, l: Lead | Binds(full, lo, WithDigits(Pattern(q), q, 2))
      ensures Finds(loc, db, full, l, PhoneClause(lo, q), PhoneField, q)
    {
      PhoneMeaning(loc, db, full, l, lo, q);
      assert FieldMentions(loc, db, l, PhoneField, q) == PhoneMentions(loc, l, q);
    }
    FindsCompiles(loc, lo, PhoneClause(lo, q), WithDigits(Pattern(q), q, 2), PhoneField, q);
  }

  /** phone, digits, city or country */
  function ContactClause(lo: nat, q: string): Clause {
    Or(Or(PhoneClause(lo, q), ILikeParam(OrEmpty(City), lo + 1)), ILikeParam(OrEmpty(Country), lo + 1))
  }

  lemma ContactParams(lo: nat, q: string)
    ensures forall n: nat :: n in ClauseParams(ContactClause(lo, q)) <==> lo < n <= lo + |WithDigits(Pattern(q), q, 2)|
  {
    PhoneParams(lo, q);
    var phone := PhoneClause(lo, q);
    assert ClauseParams(ILikeParam(OrEmpty(City), lo + 1)) == {lo + 1};
    assert ClauseParams(ILikeParam(OrEmpty(Country), lo + 1)) == {lo + 1};
    assert ClauseParams(Or(phone, ILikeParam(OrEmpty(City), lo + 1))) == ClauseParams(phone) + {lo + 1};
  }

  lemma ContactCompiles(loc: Locale, lo: nat, q: string)
    requires FoldOk(loc.fold)
    ensures Compiles(loc, lo, ContactClause(lo, q), WithDigits(Pattern(q), q, 2), Mentions(loc, ContactField, q))
  {
    ContactParams(lo, q);
    forall full: seq<Value>, db: Db, l: Lead | Binds(full, lo, WithDigits(Pattern(q), q, 2))
      ensures Finds(loc, db, full, l, ContactClause(lo, q), ContactField, q)
    {
      ContactMeaning(loc, db, full, l, lo, q);
    }
    FindsCompiles(loc, lo, ContactClause(lo, q), WithDigits(Pattern(q), q, 2), ContactField, q);
  }

  lemma ContactMeaning(loc: Locale, db: Db, full: seq<Value>, l: Lead, lo: nat, q: string)
    requires FoldOk(loc.fold) && Binds(full, lo, WithDigits(Pattern(q), q, 2))
    ensures Eval(loc, db, full, l, NoRow, ContactClause(lo, q)) == Yes <==> FieldMentions(loc, db, l, ContactField, q)
  {
    PhoneMeaning(loc, db, full, l, lo, q);
    TextTerm(loc, full, l, NoRow, City);
    TextTerm(loc, full, l, NoRow, Country);
    ILikeMeaning(loc, db, full, l, NoRow, OrEmpty(City), lo + 1, q);
    ILikeMeaning(loc, db, full, l, NoRow, OrEmpty(Country), lo + 1, q);
    OrMeaning(loc, db, full, l, NoRow, PhoneClause(lo, q), ILikeParam(OrEmpty(City), lo + 1));
  }

  // ---------------------------------------------------------------- the search document

  function DocumentClause(lo: nat, q: string): Clause {
    OrDigits(LikeEsc(Document, Param(lo + 1)), Document, lo, q, 4)
  }

  lemma DocumentCompiles(loc: Locale, lo: nat, q: string)
    ensures Compiles(loc, lo, DocumentClause(lo, q), WithDigits(Pattern(Fold(loc, q)), q, 4), Mentions(loc, AllFields, q))
  {
    var c := LikeEsc(Document, Param(lo + 1));
    var values := WithDigits(Pattern(Fold(loc, q)), q, 4);
    assert TermParams(Document) == {};
    assert ClauseParams(c) == {lo + 1};
    assert ClauseParams(LikeEsc(Document, Param(lo + 2))) == {lo + 2};
    assert forall n: nat :: n in ClauseParams(DocumentClause(lo, q)) <==> lo < n <= lo + |values|;
    forall full: seq<Value>, db: Db, l: Lead | Binds(full, lo, values)
      ensures Finds(loc, db, full, l, DocumentClause(lo, q), AllFields, q)
    {
      OrDigitsMeaning(loc, db, full, l, c, Document, lo, Pattern(Fold(loc, q)), q, 4);
      EscapedLikeIsContains(SearchDocument(loc, l), Fold(loc, q));
    }
    FindsCompiles(loc, lo, DocumentClause(lo, q), values, AllFields, q);
  }

  // ---------------------------------------------------------------- tags and outcome words

  const NEW_CLAUSE := And(And(IsNull(Col(TeamId)), IsNull(Col(MainTeamLeadId))), IsNull(Col(SalesExecId)))

  function OrAll(cs: seq<Clause>): Clause {
    if cs == [] then Const(false) else if |cs| == 1 then cs[0] else Or(cs[0], OrAll(cs[1..]))
  }

  function TagClauses(loc: Locale, q: string): seq<Clause> {
    var lower := Fold(loc, q);
    (if Contains(lower, "new") then [NEW_CLAUSE] else [])
    + (if Contains(lower, "appropriate") || Contains(lower, "approved") then [IsNotAppropriate] else [])
    + (if Contains(lower, "irrelevant") then [Eq(Col(Status), Lit("IRRELEVANT"))] else [])
  }

  lemma {:induction false} OrAllMeaning(loc: Locale, db: Db, full: seq<Value>, l: Lead, cs: seq<Clause>)
    ensures Eval(loc, db, full, l, NoRow, OrAll(cs)) == Yes <==> exists c :: c in cs && Eval(loc, db, full, l, NoRow, c) == Yes
  {
    if |cs| > 1 {
      OrAllMeaning(loc, db, full, l, cs[1..]);
      OrMeaning(loc, db, full, l, NoRow, cs[0], OrAll(cs[1..]));
      assert forall c :: c in cs <==> c == cs[0] || c in cs[1..];
    }
  }

  lemma {:induction false} OrAllParams(cs: seq<Clause>)
    requires forall c :: c in cs ==> ClauseParams(c) == {}
    ensures ClauseParams(OrAll(cs)) == {}
  {
    if |cs| > 1 {
      OrAllParams(cs[1..]);
    }
  }

  lemma NewMeaning(loc: Locale, db: Db, full: seq<Value>, l: Lead)
    ensures Eval(loc, db, full, l, NoRow, NEW_CLAUSE) == Known(Unassigned(l))
    ensures ClauseParams(NEW_CLAUSE) == {}
  {
    var both := And(IsNull(Col(TeamId)), IsNull(Col(MainTeamLeadId)));
    assert Eval(loc, db, full, l, NoRow, both) == Known(l.teamId.None? && l.assignedMainTeamLeadId.None?);
    assert ClauseParams(both) == {};
  }

  lemma TagParams(loc: Locale, q: string)
    ensures ClauseParams(OrAll(TagClauses(loc, q))) == {}
  {
    var both := And(IsNull(Col(TeamId)), IsNull(Col(MainTeamLeadId)));
    assert ClauseParams(both) == {};
    OrAllParams(TagClauses(loc, q));
  }

  lemma TagMembers(loc: Locale, q: string, c: Clause)
    ensures var lower := Fold(loc, q);
            c in TagClauses(loc, q) <==>
              || (Contains(lower, "new") && c == NEW_CLAUSE)
              || ((Contains(lower, "appropriate") || Contains(lower, "approved")) && c == IsNotAppropriate)
              || (Contains(lower, "irrelevant") && c == Eq(Col(Status), Lit("IRRELEVANT")))
  {
  }

  lemma TagChoice(loc: Locale, db: Db, full: seq<Value>, l: Lead, q: string)
    ensures var lower := Fold(loc, q);
            Eval(loc, db, full, l, NoRow, OrAll(TagClauses(loc, q))) == Yes <==>
              || (Contains(lower, "new") && Eval(loc, db, full, l, NoRow, NEW_CLAUSE) == Yes)
              || ((Contains(lower, "appropriate") || Contains(lower, "approved"))
                  && Eval(loc, db, full, l, NoRow, IsNotAppropriate) == Yes)
              || (Contains(lower, "irrelevant") && Eval(loc, db, full, l, NoRow, Eq(Col(Status), Lit("IRRELEVANT"))) == Yes)
  {
    var cs := TagClauses(loc, q);
    OrAllMeaning(loc, db, full, l, cs);
    forall c ensures c in cs ==> c == NEW_CLAUSE || c == IsNotAppropriate || c == Eq(Col(Status), Lit("IRRELEVANT")) {
      TagMembers(loc, q, c);
    }
    TagMembers(loc, q, NEW_CLAUSE);
    TagMembers(loc, q, IsNotAppropriate);
    TagMembers(loc, q, Eq(Col(Status), Lit("IRRELEVANT")));
  }

  lemma TagMeaning(loc: Locale, db: Db, full: seq<Value>, l: Lead, q: string)
    ensures Eval(loc, db, full, l, NoRow, OrAll(TagClauses(loc, q))) == Yes <==> FieldMentions(loc, db, l, TagField, q)
  {
    hide Contains, Map, OrAll, TagClauses, Unassigned;
    TagChoice(loc, db, full, l, q);
    NewMeaning(loc, db, full, l);
    assert Eval(loc, db, full, l, NoRow, Eq(Col(Status), Lit("IRRELEVANT"))) == Known(l.qualificationStatus == "IRRELEVANT");
  }

  lemma TagCompiles(loc: Locale, lo: nat, q: string)
    ensures Compiles(loc, lo, OrAll(TagClauses(loc, q)), [], Mentions(loc, TagField, q))
  {
    TagParams(loc, q);
    forall full: seq<Value>, db: Db, l: Lead
      ensures Finds(loc, db, full, l, OrAll(TagClauses(loc, q)), TagField, q)
    {
      TagMeaning(loc, db, full, l, q);
    }
    FindsCompiles(loc, lo, OrAll(TagClauses(loc, q)), [], TagField, q);
  }

  const ENDED := In(Col(Stage), Literals(CLOSED))

  function ClosedClause(loc: Locale, q: string): Clause {
    var lower := Fold(loc, q);
    if Contains(lower, "lost") then Eq(Col(Stage), Lit("CLOSED_LOST"))
    else if Contains(lower, "open") then And(ClosedAtIsNull, Not(ENDED))
    else if Contains(lower, "clos") then Or(Not(ClosedAtIsNull), ENDED)
    else Const(false)
  }

  lemma EndedMeaning(loc: Locale, db: Db, full: seq<Value>, l: Lead)
    ensures Eval(loc, db, full, l, NoRow, ENDED) == Known(l.salesStage in CLOSED)
  {
    LiteralTotal(loc, full, l, l.salesStage, CLOSED);
    InMeaning(loc, db, full, l, Col(Stage), Literals(CLOSED));
  }

  lemma ClosedMeaning(loc: Locale, db: Db, full: seq<Value>, l: Lead, q: string)
    ensures Eval(loc, db, full, l, NoRow, ClosedClause(loc, q)) == Yes <==> FieldMentions(loc, db, l, ClosedField, q)
  {
    hide Contains, Member, Literals, Map;
    EndedMeaning(loc, db, full, l);
    assert Eval(loc, db, full, l, NoRow, Not(ENDED)) == Known(l.salesStage !in CLOSED);
    assert Eval(loc, db, full, l, NoRow, Not(ClosedAtIsNull)) == Known(l.closedAt.Some?);
  }

  lemma {:induction false} LiteralTotal(loc: Locale, full: seq<Value>, l: Lead, v: string, values: seq<string>)
    ensures Member(loc, full, l, NoRow, Some(v), Literals(values)) == Known(v in values)
  {
    if values != [] {
      LiteralTotal(loc, full, l, v, values[1..]);
      assert Literals(values)[1..] == Literals(values[1..]);
      assert v in values <==> v == values[0] || v in values[1..];
    }
  }

  lemma ClosedParams(loc: Locale, q: string)
    ensures ClauseParams(ClosedClause(loc, q)) == {}
  {
    LiteralParams(CLOSED);
    assert ClauseParams(ENDED) == {};
    assert ClauseParams(Not(ENDED)) == {};
    assert ClauseParams(Not(ClosedAtIsNull)) == {};
  }

  lemma ClosedCompiles(loc: Locale, lo: nat, q: string)
    ensures Compiles(loc, lo, ClosedClause(loc, q), [], Mentions(loc, ClosedField, q))
  {
    ClosedParams(loc, q);
    forall full: seq<Value>, db: Db, l: Lead
      ensures Finds(loc, db, full, l, ClosedClause(loc, q), ClosedField, q)
    {
      ClosedMeaning(loc, db, full, l, q);
    }
    FindsCompiles(loc, lo, ClosedClause(loc, q), [], ClosedField, q);
  }
}
