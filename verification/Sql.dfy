/** The fragment of SQL the lead queries are written in, with numbered
    placeholders and three-valued logic. */
module Sql {
  import opened Wrappers
  import opened Model
  import opened Text

  datatype Truth = Yes | No | Unknown

  datatype Value = TextValue(text: string) | TimeValue(time: Time) | NumberValue(number: real) | NullValue

  datatype LeadColumn =
    | LeadId | LeadName | Phone | LeadEmail | Country | City | Source | Portal | MetaProfile
    | ClientProfile | Notes | LostNotes | Status | Stage | Score | DealValue | DealCurrency
    | TeamId | CreatedById | SalesExecId | MainTeamLeadId | Reason
    | CreatedText(style: DateStyle) | ClosedText(style: DateStyle)

  /** Columns of the row a subquery ranges over. */
  datatype RowColumn =
    | UserName | UserEmail | UserRole | UserId | UserManagerId | UserAnalystTeam
    | TeamName | HandoffAction | HandoffDetail

  datatype Row = NoRow | UserRow(user: User) | TeamRow(team: Team) | HandoffRow(handoff: Handoff)

  datatype Term =
    | Col(column: LeadColumn)
    | Document                 // "searchDoc"
    | Sub(subcolumn: RowColumn)
    | Param(n: nat)
    | Lit(text: string)
    | Coalesce(inner: Term, default: string)
    | Lower(inner: Term)
    | Trim(inner: Term)
    | Spaced(inner: Term)      // replace(.., '_', ' ')
    | Stripped(inner: Term)    // translate(.., ' ()-+.', '')
    | Joined(left: Term, separator: string, right: Term)

  /** The subqueries: the user, team or handoff rows tied to the lead. */
  datatype Link = Creator | SalesExec | MainTeamLead | LeadTeam | Handoffs

  datatype Clause =
    | Const(b: bool)
    | IsNull(t: Term)
    | Eq(t: Term, u: Term)
    | In(t: Term, us: seq<Term>)
    | ILikeEsc(t: Term, pattern: Term)
    | LikeEsc(t: Term, pattern: Term)
    | CreatedFrom(n: nat)      // "createdAt" >= $n
    | CreatedBefore(n: nat)    // "createdAt" < $n
    | ClosedAtIsNull
    | IsNotAppropriate
    | Not(c: Clause)
    | And(c: Clause, d: Clause)
    | Or(c: Clause, d: Clause)
    | Exists(link: Link, c: Clause)

  function Opt(s: Option<string>): string { if s.Some? then s.value else "" }

  function Spaces(s: string): string { Map(c => if c == '_' then ' ' else c, s) }

  function JoinWords(parts: seq<string>): string {
    if parts == [] then "" else if |parts| == 1 then parts[0] else parts[0] + " " + JoinWords(parts[1..])
  }

  function DocumentParts(l: Lead): seq<string> {
    [l.leadName, Opt(l.leadEmail), Opt(l.phone), StripSeparators(Opt(l.phone)), l.source,
     Opt(l.portalWebsite), Opt(l.metaProfile), Opt(l.clientProfile), Opt(l.city), Opt(l.country),
     Opt(l.notes), Opt(l.lostNotes), l.qualificationStatus, Spaces(l.qualificationStatus),
     l.salesStage, Spaces(l.salesStage), l.dealCurrency]
  }

  /** The stored search document (migration 000001). */
  function SearchDocument(loc: Locale, l: Lead): string { Map(loc.fold, JoinWords(DocumentParts(l))) }

  function ColumnValue(loc: Locale, l: Lead, c: LeadColumn): Option<string> {
    match c
    case LeadId => Some(l.id)
    case LeadName => Some(l.leadName)
    case Phone => l.phone
    case LeadEmail => l.leadEmail
    case Country => l.country
    case City => l.city
    case Source => Some(l.source)
    case Portal => l.portalWebsite
    case MetaProfile => l.metaProfile
    case ClientProfile => l.clientProfile
    case Notes => l.notes
    case LostNotes => l.lostNotes
    case Status => Some(l.qualificationStatus)
    case Stage => Some(l.salesStage)
    case Score => if l.leadScore.Some? then Some(loc.intText(l.leadScore.value)) else None
    case DealValue => if l.estimatedDealValue.Some? then Some(loc.realText(l.estimatedDealValue.value)) else None
    case DealCurrency => Some(l.dealCurrency)
    case TeamId => l.teamId
    case CreatedById => l.createdById
    case SalesExecId => l.assignedSalesExecId
    case MainTeamLeadId => l.assignedMainTeamLeadId
    case Reason => Some(ReasonText(loc, l))
    case CreatedText(style) => Some(loc.dateText(l.createdAt, style))
    case ClosedText(style) => if l.closedAt.Some? then Some(loc.dateText(l.closedAt.value, style)) else None
  }

  /** COALESCE(rawQualificationReasonSQL, 'No reason recorded') */
  function ReasonText(loc: Locale, l: Lead): string {
    var r := loc.reason(l.notes);
    if r.Some? then r.value else "No reason recorded"
  }

  function SubValue(row: Row, c: RowColumn): Option<string> {
    match (row, c)
    case (UserRow(u), UserId) => Some(u.id)
    case (UserRow(u), UserName) => Some(u.name)
    case (UserRow(u), UserEmail) => Some(u.email)
    case (UserRow(u), UserRole) => Some(u.role)
    case (UserRow(u), UserManagerId) => u.managerId
    case (UserRow(u), UserAnalystTeam) => u.analystTeamName
    case (TeamRow(t), TeamName) => Some(t.name)
    case (HandoffRow(h), HandoffAction) => Some(h.action)
    case (HandoffRow(h), HandoffDetail) => h.detail
    case _ => None
  }

  function ParamText(args: seq<Value>, n: nat): Option<string> {
    if 1 <= n <= |args| && args[n - 1].TextValue? then Some(args[n - 1].text) else None
  }

  function TermValue(loc: Locale, args: seq<Value>, l: Lead, row: Row, t: Term): Option<string> {
    match t
    case Col(c) => ColumnValue(loc, l, c)
    case Document => Some(SearchDocument(loc, l))
    case Sub(c) => SubValue(row, c)
    case Param(n) => ParamText(args, n)
    case Lit(s) => Some(s)
    case Coalesce(u, d) =>
      var v := TermValue(loc, args, l, row, u);
      if v.None? then Some(d) else v
    case Lower(u) =>
      var v := TermValue(loc, args, l, row, u);
      if v.None? then None else Some(Map(loc.fold, v.value))
    case Trim(u) =>
      var v := TermValue(loc, args, l, row, u);
      if v.None? then None else Some(BTrim(v.value))
    case Spaced(u) =>
      var v := TermValue(loc, args, l, row, u);
      if v.None? then None else Some(Spaces(v.value))
    case Stripped(u) =>
      var v := TermValue(loc, args, l, row, u);
      if v.None? then None else Some(StripSeparators(v.value))
    case Joined(a, sep, b) =>
      var v, w := TermValue(loc, args, l, row, a), TermValue(loc, args, l, row, b);
      if v.None? || w.None? then None else Some(v.value + sep + w.value)
  }

  function Known(b: bool): Truth { if b then Yes else No }

  function Equals(v: Option<string>, w: Option<string>): Truth {
    if v.None? || w.None? then Unknown else Known(v.value == w.value)
  }

  function Negate(t: Truth): Truth {
    match t case Yes => No case No => Yes case Unknown => Unknown
  }

  function Both(t: Truth, u: Truth): Truth {
    if t == No || u == No then No else if t == Yes && u == Yes then Yes else Unknown
  }

  function Either(t: Truth, u: Truth): Truth {
    if t == Yes || u == Yes then Yes else if t == No && u == No then No else Unknown
  }

  function Member(loc: Locale, args: seq<Value>, l: Lead, row: Row, v: Option<string>, us: seq<Term>): Truth {
    if us == [] then No
    else Either(Equals(v, TermValue(loc, args, l, row, us[0])), Member(loc, args, l, row, v, us[1..]))
  }

  function OneUser(db: Db, id: Option<Id>): set<Row> {
    if id.Some? && id.value in db.users then {UserRow(db.users[id.value])} else {}
  }

  /** The rows a link selects: a primary-key lookup, or the handoffs of the lead. */
  function LinkedRows(db: Db, l: Lead, link: Link): set<Row> {
    match link
    case Creator => OneUser(db, l.createdById)
    case SalesExec => OneUser(db, l.assignedSalesExecId)
    case MainTeamLead => OneUser(db, l.assignedMainTeamLeadId)
    case LeadTeam => if l.teamId.Some? && l.teamId.value in db.teams then {TeamRow(db.teams[l.teamId.value])} else {}
    case Handoffs => set h | h in db.handoffs && h.leadId == l.id :: HandoffRow(h)
  }

  predicate Linked(db: Db, l: Lead, link: Link, row: Row) { row in LinkedRows(db, l, link) }

  function Eval(loc: Locale, db: Db, args: seq<Value>, l: Lead, row: Row, c: Clause): Truth
    decreases c
  {
    match c
    case Const(b) => Known(b)
    case IsNull(t) => Known(TermValue(loc, args, l, row, t).None?)
    case Eq(t, u) => Equals(TermValue(loc, args, l, row, t), TermValue(loc, args, l, row, u))
    case In(t, us) => Member(loc, args, l, row, TermValue(loc, args, l, row, t), us)
    case ILikeEsc(t, p) =>
      var v, w := TermValue(loc, args, l, row, t), TermValue(loc, args, l, row, p);
      if v.None? || w.None? then Unknown else Known(ILike(loc.fold, v.value, w.value))
    case LikeEsc(t, p) =>
      var v, w := TermValue(loc, args, l, row, t), TermValue(loc, args, l, row, p);
      if v.None? || w.None? then Unknown else Known(Like(v.value, w.value))
    case CreatedFrom(n) =>
      if 1 <= n <= |args| && args[n - 1].TimeValue? then Known(l.createdAt >= args[n - 1].time) else Unknown
    case CreatedBefore(n) =>
      if 1 <= n <= |args| && args[n - 1].TimeValue? then Known(l.createdAt < args[n - 1].time) else Unknown
    case ClosedAtIsNull => Known(l.closedAt.None?)
    case IsNotAppropriate => Known(l.notAppropriate)
    case Not(d) => Negate(Eval(loc, db, args, l, row, d))
    case And(d, e) => Both(Eval(loc, db, args, l, row, d), Eval(loc, db, args, l, row, e))
    case Or(d, e) => Either(Eval(loc, db, args, l, row, d), Eval(loc, db, args, l, row, e))
    case Exists(link, d) =>
      Known(exists r :: r in LinkedRows(db, l, link) && Eval(loc, db, args, l, r, d) == Yes)
  }

  /** WHERE c1 AND c2 AND ..: the row is selected when the conjunction is true. */
  predicate Holds(loc: Locale, db: Db, args: seq<Value>, l: Lead, cs: seq<Clause>) {
    forall i :: 0 <= i < |cs| ==> Eval(loc, db, args, l, NoRow, cs[i]) == Yes
  }

  // ---------------------------------------------------------------- placeholders

  function TermParams(t: Term): set<nat> {
    match t
    case Param(n) => {n}
    case Coalesce(u, _) => TermParams(u)
    case Lower(u) => TermParams(u)
    case Trim(u) => TermParams(u)
    case Spaced(u) => TermParams(u)
    case Stripped(u) => TermParams(u)
    case Joined(a, _, b) => TermParams(a) + TermParams(b)
    case _ => {}
  }

  function TermsParams(ts: seq<Term>): set<nat> {
    if ts == [] then {} else TermParams(ts[0]) + TermsParams(ts[1..])
  }

  function ClauseParams(c: Clause): set<nat> {
    match c
    case IsNull(t) => TermParams(t)
    case Eq(t, u) => TermParams(t) + TermParams(u)
    case In(t, us) => TermParams(t) + TermsParams(us)
    case ILikeEsc(t, p) => TermParams(t) + TermParams(p)
    case LikeEsc(t, p) => TermParams(t) + TermParams(p)
    case CreatedFrom(n) => {n}
    case CreatedBefore(n) => {n}
    case Not(d) => ClauseParams(d)
    case And(d, e) => ClauseParams(d) + ClauseParams(e)
    case Or(d, e) => ClauseParams(d) + ClauseParams(e)
    case Exists(_, d) => ClauseParams(d)
    case _ => {}
  }

  function Params(cs: seq<Clause>): set<nat> {
    if cs == [] then {} else ClauseParams(cs[0]) + Params(cs[1..])
  }

  /** The clauses use exactly the placeholders $lo+1 .. $hi. */
  ghost predicate Numbered(cs: seq<Clause>, lo: nat, hi: nat) {
    forall n: nat :: n in Params(cs) <==> lo < n <= hi
  }

  lemma {:induction false} ParamsConcat(a: seq<Clause>, b: seq<Clause>)
    ensures Params(a + b) == Params(a) + Params(b)
  {
    if a == [] {
      assert a + b == b;
    } else {
      ParamsConcat(a[1..], b);
      assert (a + b)[1..] == a[1..] + b;
    }
  }
}
