/** The compiler from list parameters to WHERE clauses with numbered placeholders. */
module LeadWhere {
  import opened Wrappers
  import opened Model
  import opened Text
  import opened Sql
  import opened LeadQuery

  // ---------------------------------------------------------------- what compiling means

  /** The argument vector carries `values` at positions lo+1 .. lo+|values|; what is
      before and after them is arbitrary. */
  ghost predicate Binds(full: seq<Value>, lo: nat, values: seq<Value>) {
    lo + |values| <= |full| && full[lo..lo + |values|] == values
  }

  lemma BindsAt(full: seq<Value>, lo: nat, values: seq<Value>, i: nat)
    requires Binds(full, lo, values) && i < |values|
    ensures full[lo + i] == values[i]
  {
    assert full[lo..lo + |values|][i] == values[i];
  }

  /** Clause c uses exactly the placeholders of `values`, numbered from lo+1, and then
      selects the leads the test describes, in every database. */
  ghost predicate Compiles(loc: Locale, lo: nat, c: Clause, values: seq<Value>, t: Test) {
    && (forall n: nat :: n in ClauseParams(c) <==> lo < n <= lo + |values|)
    && (forall full: seq<Value>, db: Db, l: Lead {:trigger Eval(loc, db, full, l, NoRow, c)} ::
          Binds(full, lo, values) ==> (Eval(loc, db, full, l, NoRow, c) == Yes <==> Matches(loc, db, l, t)))
  }

  /** The same for a list of clauses. */
  ghost predicate Denotes(loc: Locale, lo: nat, cs: seq<Clause>, values: seq<Value>, t: Test) {
    && Numbered(cs, lo, lo + |values|)
    && (forall full: seq<Value>, db: Db, l: Lead {:trigger Holds(loc, db, full, l, cs)} ::
          Binds(full, lo, values) ==> (Holds(loc, db, full, l, cs) <==> Matches(loc, db, l, t)))
  }

  /** Appending to the clauses w0 and arguments a0 gave w1 and a1, and what was
      appended denotes t. */
  ghost predicate Adds(loc: Locale, w0: seq<Clause>, a0: seq<Value>, w1: seq<Clause>, a1: seq<Value>, t: Test) {
    w0 <= w1 && a0 <= a1 && Denotes(loc, |a0|, w1[|w0|..], a1[|a0|..], t)
  }

  lemma AddNothing(loc: Locale, w: seq<Clause>, a: seq<Value>)
    ensures Adds(loc, w, a, w, a, Always)
  {
    assert w[|w|..] == [] && a[|a|..] == [];
  }

  lemma AddOne(loc: Locale, w: seq<Clause>, a: seq<Value>, c: Clause, values: seq<Value>, t: Test)
    requires Compiles(loc, |a|, c, values, t)
    ensures Adds(loc, w, a, w + [c], a + values, t)
  {
    assert (w + [c])[|w|..] == [c] && (a + values)[|a|..] == values;
    assert Params([c]) == ClauseParams(c);
    forall full: seq<Value>, db: Db, l: Lead | Binds(full, |a|, values)
      ensures Holds(loc, db, full, l, [c]) <==> Matches(loc, db, l, t)
    {
      assert Holds(loc, db, full, l, [c]) <==> Eval(loc, db, full, l, NoRow, [c][0]) == Yes;
    }
  }

  lemma HoldsConcat(loc: Locale, db: Db, full: seq<Value>, l: Lead, cs: seq<Clause>, ds: seq<Clause>)
    ensures Holds(loc, db, full, l, cs + ds) <==> Holds(loc, db, full, l, cs) && Holds(loc, db, full, l, ds)
  {
    if Holds(loc, db, full, l, cs + ds) {
      forall i | 0 <= i < |cs| ensures Eval(loc, db, full, l, NoRow, cs[i]) == Yes {
        assert (cs + ds)[i] == cs[i];
      }
      forall i | 0 <= i < |ds| ensures Eval(loc, db, full, l, NoRow, ds[i]) == Yes {
        assert (cs + ds)[|cs| + i] == ds[i];
      }
    }
  }

  /** Meanings compose: later appends neither renumber nor rebind earlier ones. */
  lemma AddsTrans(loc: Locale, w0: seq<Clause>, a0: seq<Value>, w1: seq<Clause>, a1: seq<Value>,
                  w2: seq<Clause>, a2: seq<Value>, t: Test, u: Test)
    requires Adds(loc, w0, a0, w1, a1, t) && Adds(loc, w1, a1, w2, a2, u)
    ensures Adds(loc, w0, a0, w2, a2, Conj(t, u))
  {
    var cs, ds := w1[|w0|..], w2[|w1|..];
    var vs, us := a1[|a0|..], a2[|a1|..];
    assert w2[|w0|..] == cs + ds && a2[|a0|..] == vs + us;
    ParamsConcat(cs, ds);
    hide Holds, Matches, Params;
    forall full: seq<Value>, db: Db, l: Lead | Binds(full, |a0|, vs + us)
      ensures Holds(loc, db, full, l, cs + ds) <==> Matches(loc, db, l, Conj(t, u))
    {
      assert full[|a0|..|a1|] == full[|a0|..|a0| + |vs + us|][..|vs|];
      assert full[|a1|..|a2|] == full[|a0|..|a0| + |vs + us|][|vs|..];
      assert Binds(full, |a0|, vs) && Binds(full, |a1|, us);
      HoldsConcat(loc, db, full, l, cs, ds);
      TwoTests(loc, db, l, t, u);
    }
  }

  // ---------------------------------------------------------------- single clauses

  function Texts(values: seq<string>): seq<Value> {
    seq(|values|, i requires 0 <= i < |values| => TextValue(values[i]))
  }

  /** $start, $start+1, .. */
  function Placeholders(start: nat, count: nat): seq<Term> {
    seq(count, i requires 0 <= i < count => Param(start + i))
  }

  lemma {:induction false} PlaceholderNumbers(start: nat, count: nat)
    ensures forall n: nat :: n in TermsParams(Placeholders(start, count)) <==> start <= n < start + count
    decreases count
  {
    if count > 0 {
      PlaceholderNumbers(start + 1, count - 1);
      assert Placeholders(start, count)[1..] == Placeholders(start + 1, count - 1);
    }
  }

  lemma {:induction false} MemberMeaning(loc: Locale, full: seq<Value>, l: Lead, v: string, lo: nat, values: seq<string>)
    requires Binds(full, lo, Texts(values))
    ensures Member(loc, full, l, NoRow, Some(v), Placeholders(lo + 1, |values|)) == Known(v in values)
    decreases |values|
  {
    if values != [] {
      assert full[lo] == full[lo..lo + |values|][0] == TextValue(values[0]);
      assert full[lo + 1..lo + |values|] == full[lo..lo + |values|][1..] == Texts(values[1..]);
      MemberMeaning(loc, full, l, v, lo + 1, values[1..]);
      assert Placeholders(lo + 1, |values|)[1..] == Placeholders(lo + 2, |values| - 1);
      assert v in values <==> v == values[0] || v in values[1..];
    }
  }

  predicate NeverNull(c: LeadColumn) { c == Status || c == Stage }

  /** l.column IN ($lo+1, ..) */
  lemma InCompiles(loc: Locale, lo: nat, column: LeadColumn, values: seq<string>)
    requires NeverNull(column)
    ensures Compiles(loc, lo, In(Col(column), Placeholders(lo + 1, |values|)), Texts(values), ColumnIn(column, values))
  {
    PlaceholderNumbers(lo + 1, |values|);
    forall full: seq<Value>, db: Db, l: Lead | Binds(full, lo, Texts(values))
      ensures Eval(loc, db, full, l, NoRow, In(Col(column), Placeholders(lo + 1, |values|))) == Yes
         <==> Matches(loc, db, l, ColumnIn(column, values))
    {
      MemberMeaning(loc, full, l, ColumnValue(loc, l, column).value, lo, values);
    }
  }

  /** l.column = $lo+1 */
  lemma EqCompiles(loc: Locale, lo: nat, column: LeadColumn, value: string)
    requires NeverNull(column)
    ensures Compiles(loc, lo, Eq(Col(column), Param(lo + 1)), [TextValue(value)], ColumnIn(column, [value]))
  {
    forall full: seq<Value>, db: Db, l: Lead | Binds(full, lo, [TextValue(value)])
      ensures Eval(loc, db, full, l, NoRow, Eq(Col(column), Param(lo + 1))) == Yes
         <==> Matches(loc, db, l, ColumnIn(column, [value]))
    {
      BindsAt(full, lo, [TextValue(value)], 0);
    }
  }

  /** "closedAt" IS NULL AND "salesStage" NOT IN ($lo+1, $lo+2) */
  function OpenClause(lo: nat): Clause {
    And(ClosedAtIsNull, Not(In(Col(Stage), Placeholders(lo + 1, |CLOSED|))))
  }

  lemma OpenMeaning(loc: Locale, db: Db, full: seq<Value>, l: Lead, lo: nat)
    requires Binds(full, lo, Texts(CLOSED))
    ensures Eval(loc, db, full, l, NoRow, OpenClause(lo)) == Yes <==> Matches(loc, db, l, StillOpen)
  {
    var inner := In(Col(Stage), Placeholders(lo + 1, |CLOSED|));
    MemberMeaning(loc, full, l, l.salesStage, lo, CLOSED);
    assert Eval(loc, db, full, l, NoRow, inner) == Known(l.salesStage in CLOSED);
    assert Eval(loc, db, full, l, NoRow, Not(inner)) == Known(l.salesStage !in CLOSED);
  }

  lemma OpenCompiles(loc: Locale, lo: nat)
    ensures Compiles(loc, lo, OpenClause(lo), Texts(CLOSED), StillOpen)
  {
    var inner := In(Col(Stage), Placeholders(lo + 1, |CLOSED|));
    PlaceholderNumbers(lo + 1, |CLOSED|);
    assert ClauseParams(Not(inner)) == ClauseParams(inner);
    forall full: seq<Value>, db: Db, l: Lead | Binds(full, lo, Texts(CLOSED))
      ensures Eval(loc, db, full, l, NoRow, OpenClause(lo)) == Yes <==> Matches(loc, db, l, StillOpen)
    {
      OpenMeaning(loc, db, full, l, lo);
    }
  }

  function HandedOffClause(lo: nat, count: nat): Clause {
    Exists(Handoffs, In(Sub(HandoffAction), Placeholders(lo + 1, count)))
  }

  lemma {:induction false} MemberOfRow(loc: Locale, full: seq<Value>, l: Lead, row: Row, v: Option<string>, us: seq<Term>)
    requires forall i :: 0 <= i < |us| ==> us[i].Param?
    ensures Member(loc, full, l, row, v, us) == Member(loc, full, l, NoRow, v, us)
  {
    if us != [] {
      MemberOfRow(loc, full, l, row, v, us[1..]);
    }
  }

  /** EXISTS (.. "LeadHandoffLog" h WHERE h."leadId" = l.id AND h.action IN ($lo+1, ..)) */
  lemma HandedOffCompiles(loc: Locale, lo: nat, actions: seq<string>)
    ensures Compiles(loc, lo, HandedOffClause(lo, |actions|), Texts(actions), HandedOff(actions))
  {
    var inner := In(Sub(HandoffAction), Placeholders(lo + 1, |actions|));
    PlaceholderNumbers(lo + 1, |actions|);
    forall full: seq<Value>, db: Db, l: Lead | Binds(full, lo, Texts(actions))
      ensures Eval(loc, db, full, l, NoRow, HandedOffClause(lo, |actions|)) == Yes <==> Matches(loc, db, l, HandedOff(actions))
    {
      forall h: Handoff ensures Eval(loc, db, full, l, HandoffRow(h), inner) == Known(h.action in actions) {
        MemberMeaning(loc, full, l, h.action, lo, actions);
        MemberOfRow(loc, full, l, HandoffRow(h), Some(h.action), Placeholders(lo + 1, |actions|));
      }
      if h :| h in db.handoffs && h.leadId == l.id && h.action in actions {
        assert Linked(db, l, Handoffs, HandoffRow(h));
      }
    }
  }

  predicate IsIdColumn(c: LeadColumn) { c == TeamId || c == CreatedById || c == SalesExecId }

  lemma NullIdCompiles(loc: Locale, lo: nat, column: LeadColumn, id: string)
    requires IsIdColumn(column) && IsNone(loc, id)
    ensures Compiles(loc, lo, IsNull(Col(column)), [], IdFacet(column, id))
  {
  }

  lemma IdCompiles(loc: Locale, lo: nat, column: LeadColumn, id: string)
    requires IsIdColumn(column) && !IsNone(loc, id)
    ensures Compiles(loc, lo, Eq(Col(column), Param(lo + 1)), [TextValue(id)], IdFacet(column, id))
  {
    forall full: seq<Value>, db: Db, l: Lead | Binds(full, lo, [TextValue(id)])
      ensures Eval(loc, db, full, l, NoRow, Eq(Col(column), Param(lo + 1))) == Yes <==> Matches(loc, db, l, IdFacet(column, id))
    {
      BindsAt(full, lo, [TextValue(id)], 0);
    }
  }

  /** (expr IS NULL OR BTRIM(expr) = '') */
  function BlankClause(column: LeadColumn): Clause {
    Or(IsNull(Col(column)), Eq(Trim(Col(column)), Lit("")))
  }

  lemma BlankMeaning(loc: Locale, db: Db, full: seq<Value>, l: Lead, column: LeadColumn)
    ensures var v := ColumnValue(loc, l, column);
            Eval(loc, db, full, l, NoRow, BlankClause(column)) == Known(v.None? || BTrim(v.value) == "")
  {
    var v := ColumnValue(loc, l, column);
    assert TermValue(loc, full, l, NoRow, Trim(Col(column))) == if v.None? then None else Some(BTrim(v.value));
    assert Eval(loc, db, full, l, NoRow, Eq(Trim(Col(column)), Lit("")))
        == Equals(TermValue(loc, full, l, NoRow, Trim(Col(column))), Some(""));
  }

  lemma BlankParams(column: LeadColumn)
    ensures ClauseParams(BlankClause(column)) == {}
  {
    assert TermParams(Col(column)) == {};
    assert TermParams(Trim(Col(column))) == {};
  }

  lemma BlankCompiles(loc: Locale, lo: nat, column: LeadColumn, text: string)
    requires IsNone(loc, text)
    ensures Compiles(loc, lo, BlankClause(column), [], TextFacet(column, text))
  {
    BlankParams(column);
    forall full: seq<Value>, db: Db, l: Lead
      ensures Eval(loc, db, full, l, NoRow, BlankClause(column)) == Yes <==> Matches(loc, db, l, TextFacet(column, text))
    {
      BlankMeaning(loc, db, full, l, column);
    }
  }

  /** LOWER(BTRIM(expr)) = LOWER(BTRIM($n::text)) */
  function TrimEqualClause(t: Term, n: nat): Clause { Eq(Lower(Trim(t)), Lower(Trim(Param(n)))) }

  lemma LabelTerm(loc: Locale, full: seq<Value>, l: Lead, row: Row, t: Term)
    ensures var v := TermValue(loc, full, l, row, t);
            TermValue(loc, full, l, row, Lower(Trim(t))) == if v.None? then None else Some(Fold(loc, BTrim(v.value)))
  {
    var v := TermValue(loc, full, l, row, t);
    assert TermValue(loc, full, l, row, Trim(t)) == if v.None? then None else Some(BTrim(v.value));
  }

  lemma TrimEqualMeaning(loc: Locale, db: Db, full: seq<Value>, l: Lead, row: Row, t: Term, n: nat, text: string)
    requires 1 <= n <= |full| && full[n - 1] == TextValue(text)
    ensures var v := TermValue(loc, full, l, row, t);
            Eval(loc, db, full, l, row, TrimEqualClause(t, n)) == Yes <==> v.Some? && SameLabel(loc, v.value, text)
  {
    assert TermValue(loc, full, l, row, Param(n)) == Some(text);
    LabelTerm(loc, full, l, row, Param(n));
    LabelTerm(loc, full, l, row, t);
  }

  lemma TrimEqualParams(t: Term, n: nat)
    ensures ClauseParams(TrimEqualClause(t, n)) == TermParams(t) + {n}
  {
    assert TermParams(Trim(Param(n))) == {n};
    assert TermParams(Trim(t)) == TermParams(t);
  }

  lemma TextCompiles(loc: Locale, lo: nat, column: LeadColumn, text: string)
    requires !IsNone(loc, text)
    ensures Compiles(loc, lo, TrimEqualClause(Col(column), lo + 1), [TextValue(text)], TextFacet(column, text))
  {
    TrimEqualParams(Col(column), lo + 1);
    forall full: seq<Value>, db: Db, l: Lead | Binds(full, lo, [TextValue(text)])
      ensures Eval(loc, db, full, l, NoRow, TrimEqualClause(Col(column), lo + 1)) == Yes
         <==> Matches(loc, db, l, TextFacet(column, text))
    {
      BindsAt(full, lo, [TextValue(text)], 0);
      TrimEqualMeaning(loc, db, full, l, NoRow, Col(column), lo + 1, text);
    }
  }

  lemma PlaceCompiles(loc: Locale, lo: nat, column: LeadColumn, place: string)
    requires !IsBlankGeoLabel(loc, place)
    ensures Compiles(loc, lo, TrimEqualClause(Col(column), lo + 1), [TextValue(place)], GeoFacet(column, place))
  {
    TrimEqualParams(Col(column), lo + 1);
    forall full: seq<Value>, db: Db, l: Lead | Binds(full, lo, [TextValue(place)])
      ensures Eval(loc, db, full, l, NoRow, TrimEqualClause(Col(column), lo + 1)) == Yes
         <==> Matches(loc, db, l, GeoFacet(column, place))
    {
      BindsAt(full, lo, [TextValue(place)], 0);
      TrimEqualMeaning(loc, db, full, l, NoRow, Col(column), lo + 1, place);
    }
  }

  function Literals(values: seq<string>): seq<Term> {
    seq(|values|, i requires 0 <= i < |values| => Lit(values[i]))
  }

  lemma {:induction false} LiteralMember(loc: Locale, full: seq<Value>, l: Lead, row: Row, v: Option<string>, values: seq<string>)
    ensures Member(loc, full, l, row, v, Literals(values)) == Yes <==> v.Some? && v.value in values
  {
    if values != [] {
      LiteralMember(loc, full, l, row, v, values[1..]);
      assert Literals(values)[1..] == Literals(values[1..]);
      assert v.Some? ==> (v.value in values <==> v.value == values[0] || v.value in values[1..]);
    }
  }

  lemma {:induction false} LiteralParams(values: seq<string>)
    ensures TermsParams(Literals(values)) == {}
  {
    if values != [] {
      LiteralParams(values[1..]);
      assert Literals(values)[1..] == Literals(values[1..]);
    }
  }

  /** blankGeoSQL */
  function BlankGeoClause(column: LeadColumn): Clause {
    Or(BlankClause(column), In(Lower(Trim(Col(column))), Literals(BLANK_LABELS)))
  }

  lemma BlankGeoMeaning(loc: Locale, db: Db, full: seq<Value>, l: Lead, column: LeadColumn)
    ensures var v := ColumnValue(loc, l, column);
            Eval(loc, db, full, l, NoRow, BlankGeoClause(column)) == Yes
            <==> v.None? || BTrim(v.value) == "" || Fold(loc, BTrim(v.value)) in BLANK_LABELS
  {
    var v := ColumnValue(loc, l, column);
    var t := Lower(Trim(Col(column)));
    var labels := Literals(BLANK_LABELS);
    var w := if v.None? then None else Some(Fold(loc, BTrim(v.value)));
    assert TermValue(loc, full, l, NoRow, t) == w by {
      assert TermValue(loc, full, l, NoRow, Trim(Col(column))) == if v.None? then None else Some(BTrim(v.value));
    }
    BlankMeaning(loc, db, full, l, column);
    LiteralMember(loc, full, l, NoRow, w, BLANK_LABELS);
    InMeaning(loc, db, full, l, t, labels);
    OrMeaning(loc, db, full, l, NoRow, BlankClause(column), In(t, labels));
  }

  lemma InMeaning(loc: Locale, db: Db, full: seq<Value>, l: Lead, t: Term, us: seq<Term>)
    ensures Eval(loc, db, full, l, NoRow, In(t, us)) == Member(loc, full, l, NoRow, TermValue(loc, full, l, NoRow, t), us)
  {
  }

  lemma OrMeaning(loc: Locale, db: Db, full: seq<Value>, l: Lead, row: Row, c: Clause, d: Clause)
    ensures Eval(loc, db, full, l, row, Or(c, d)) == Yes
       <==> Eval(loc, db, full, l, row, c) == Yes || Eval(loc, db, full, l, row, d) == Yes
  {
  }

  lemma BlankGeoParams(column: LeadColumn)
    ensures ClauseParams(BlankGeoClause(column)) == {}
  {
    LiteralParams(BLANK_LABELS);
    assert TermParams(Trim(Col(column))) == {};
    assert ClauseParams(Eq(Trim(Col(column)), Lit(""))) == {};
    assert ClauseParams(BlankClause(column)) == {};
  }

  lemma BlankGeoCompiles(loc: Locale, lo: nat, column: LeadColumn, place: string)
    requires IsBlankGeoLabel(loc, place)
    ensures Compiles(loc, lo, BlankGeoClause(column), [], GeoFacet(column, place))
  {
    BlankGeoParams(column);
    forall full: seq<Value>, db: Db, l: Lead
      ensures Eval(loc, db, full, l, NoRow, BlankGeoClause(column)) == Yes <==> Matches(loc, db, l, GeoFacet(column, place))
    {
      BlankGeoMeaning(loc, db, full, l, column);
    }
  }

  /** The users a link reaches: at most one. */
  function LinkedUserId(l: Lead, link: Link): Option<Id>
    requires link == Creator || link == SalesExec || link == MainTeamLead
  {
    match link
    case Creator => l.createdById
    case SalesExec => l.assignedSalesExecId
    case MainTeamLead => l.assignedMainTeamLeadId
  }

  lemma ExistsUserMeaning(loc: Locale, db: Db, full: seq<Value>, l: Lead, link: Link, c: Clause)
    requires link == Creator || link == SalesExec || link == MainTeamLead
    ensures var u := FindUser(db, LinkedUserId(l, link));
            Eval(loc, db, full, l, NoRow, Exists(link, c))
            == Known(u.Some? && Eval(loc, db, full, l, UserRow(u.value), c) == Yes)
  {
    var u := FindUser(db, LinkedUserId(l, link));
    if u.Some? {
      assert Linked(db, l, link, UserRow(u.value));
    }
  }

  /** EXISTS (.. creator WHERE creator.id = l."createdById" AND creator."managerId" = $n) */
  function ManagerClause(n: nat): Clause { Exists(Creator, Eq(Sub(UserManagerId), Param(n))) }

  lemma ManagerCompiles(loc: Locale, lo: nat, manager: string)
    ensures Compiles(loc, lo, ManagerClause(lo + 1), [TextValue(manager)], ManagedBy(manager))
  {
    assert ClauseParams(Eq(Sub(UserManagerId), Param(lo + 1))) == {lo + 1};
    forall full: seq<Value>, db: Db, l: Lead | Binds(full, lo, [TextValue(manager)])
      ensures Eval(loc, db, full, l, NoRow, ManagerClause(lo + 1)) == Yes <==> Matches(loc, db, l, ManagedBy(manager))
    {
      BindsAt(full, lo, [TextValue(manager)], 0);
      ExistsUserMeaning(loc, db, full, l, Creator, Eq(Sub(UserManagerId), Param(lo + 1)));
    }
  }

  /** The condition inside analystTeamLeadScopeSQL; without a team name it has no $teamN. */
  function OnTeamClause(atlN: nat, roleN: nat, teamN: Option<nat>): Clause {
    Or(Eq(Sub(UserId), Param(atlN)),
       And(Eq(Sub(UserRole), Param(roleN)),
           if teamN.None? then Eq(Sub(UserManagerId), Param(atlN))
           else Or(Eq(Sub(UserManagerId), Param(atlN)),
                   TrimEqualClause(Coalesce(Sub(UserAnalystTeam), ""), teamN.value))))
  }

  function AnalystScopeValues(atl: string, teamName: string): seq<Value> {
    [TextValue(atl), TextValue(LEAD_ANALYST)] + if teamName == "" then [] else [TextValue(teamName)]
  }

  function AnalystScopeClause(lo: nat, teamName: string): Clause {
    Exists(Creator, OnTeamClause(lo + 1, lo + 2, if teamName == "" then None else Some(lo + 3)))
  }

  lemma ByTeamMeaning(loc: Locale, db: Db, full: seq<Value>, l: Lead, u: User, atlN: nat, teamN: nat, atl: string, teamName: string)
    requires 1 <= atlN <= |full| && full[atlN - 1] == TextValue(atl)
    requires 1 <= teamN <= |full| && full[teamN - 1] == TextValue(teamName)
    ensures Eval(loc, db, full, l, UserRow(u),
                 Or(Eq(Sub(UserManagerId), Param(atlN)), TrimEqualClause(Coalesce(Sub(UserAnalystTeam), ""), teamN))) == Yes
       <==> u.managerId == Some(atl) || SameLabel(loc, Opt(u.analystTeamName), teamName)
  {
    var row := UserRow(u);
    var t := Coalesce(Sub(UserAnalystTeam), "");
    TrimEqualMeaning(loc, db, full, l, row, t, teamN, teamName);
    assert TermValue(loc, full, l, row, t) == Some(Opt(u.analystTeamName));
    assert Eval(loc, db, full, l, row, Eq(Sub(UserManagerId), Param(atlN))) == Equals(u.managerId, Some(atl));
  }

  lemma OnTeamMeaning(loc: Locale, db: Db, full: seq<Value>, l: Lead, u: User, lo: nat, atl: string, teamName: string)
    requires Binds(full, lo, AnalystScopeValues(atl, teamName))
    ensures Eval(loc, db, full, l, UserRow(u), OnTeamClause(lo + 1, lo + 2, if teamName == "" then None else Some(lo + 3))) == Yes
       <==> OnAnalystTeam(loc, u, atl, teamName)
  {
    var values := AnalystScopeValues(atl, teamName);
    BindsAt(full, lo, values, 0);
    BindsAt(full, lo, values, 1);
    var row := UserRow(u);
    var isAnalyst := Eq(Sub(UserRole), Param(lo + 2));
    var byManager := Eq(Sub(UserManagerId), Param(lo + 1));
    assert Eval(loc, db, full, l, row, isAnalyst) == Known(u.role == LEAD_ANALYST);
    assert Eval(loc, db, full, l, row, Eq(Sub(UserId), Param(lo + 1))) == Known(u.id == atl);
    var onTeam;
    if teamName == "" {
      onTeam := byManager;
      assert Eval(loc, db, full, l, row, byManager) == Equals(u.managerId, Some(atl));
    } else {
      BindsAt(full, lo, values, 2);
      onTeam := Or(byManager, TrimEqualClause(Coalesce(Sub(UserAnalystTeam), ""), lo + 3));
      ByTeamMeaning(loc, db, full, l, u, lo + 1, lo + 3, atl, teamName);
    }
    assert Eval(loc, db, full, l, row, And(isAnalyst, onTeam)) == Both(Known(u.role == LEAD_ANALYST), Eval(loc, db, full, l, row, onTeam));
  }

  lemma OnTeamParams(atlN: nat, roleN: nat, teamN: Option<nat>)
    ensures ClauseParams(OnTeamClause(atlN, roleN, teamN)) == {atlN, roleN} + if teamN.None? then {} else {teamN.value}
  {
    var byManager := Eq(Sub(UserManagerId), Param(atlN));
    assert ClauseParams(byManager) == {atlN};
    assert ClauseParams(Eq(Sub(UserRole), Param(roleN))) == {roleN};
    assert ClauseParams(Eq(Sub(UserId), Param(atlN))) == {atlN};
    if teamN.None? {
      assert ClauseParams(And(Eq(Sub(UserRole), Param(roleN)), byManager)) == {roleN, atlN};
    } else {
      var byName := TrimEqualClause(Coalesce(Sub(UserAnalystTeam), ""), teamN.value);
      TrimEqualParams(Coalesce(Sub(UserAnalystTeam), ""), teamN.value);
      assert ClauseParams(byName) == {teamN.value};
      assert ClauseParams(Or(byManager, byName)) == {atlN, teamN.value};
      assert ClauseParams(And(Eq(Sub(UserRole), Param(roleN)), Or(byManager, byName))) == {roleN, atlN, teamN.value};
    }
  }

  /** analystTeamLeadScopeSQL numbers its two or three placeholders from len(args). */
  lemma AnalystScopeCompiles(loc: Locale, lo: nat, atl: string, teamName: string)
    ensures Compiles(loc, lo, AnalystScopeClause(lo, teamName), AnalystScopeValues(atl, teamName), CreatedByTeamOf(atl, teamName))
  {
    var values := AnalystScopeValues(atl, teamName);
    var inner := OnTeamClause(lo + 1, lo + 2, if teamName == "" then None else Some(lo + 3));
    forall full: seq<Value>, db: Db, l: Lead | Binds(full, lo, values)
      ensures Eval(loc, db, full, l, NoRow, AnalystScopeClause(lo, teamName)) == Yes
         <==> Matches(loc, db, l, CreatedByTeamOf(atl, teamName))
    {
      ExistsUserMeaning(loc, db, full, l, Creator, inner);
      var u := FindUser(db, l.createdById);
      if u.Some? {
        OnTeamMeaning(loc, db, full, l, u.value, lo, atl, teamName);
      }
    }
    OnTeamParams(lo + 1, lo + 2, if teamName == "" then None else Some(lo + 3));
  }
}
