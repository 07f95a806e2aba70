/** One live session per user: the stored hash, the checks of every request, and logins and
    logouts whose steps interleave. */
module Sessions {
  import opened Wrappers
  import opened Model
  import opened Text

  datatype Account = Account(active: bool, role: string, hash: Option<string>)

  /** What a verified token says. */
  datatype Claims = Claims(user: Id, sid: string)

  datatype ActiveError = UserNotFound | CannotDeactivateSelf | LastActiveSuperadmin

  datatype Refusal = TokenRequired | InvalidToken | Inactive | InvalidRole | SignedInElsewhere

  /** SHA-256 in hex, taken as injective and never blank. */
  ghost predicate HashOk(hash: string -> string) {
    && (forall a, b :: hash(a) == hash(b) ==> a == b)
    && (forall a :: hash(a) != "" && TrimSpace(hash(a)) == hash(a))
  }

  function SessionHash(hash: string -> string, jti: string): string { hash(TrimSpace(jti)) }

  predicate SessionMatches(hash: string -> string, stored: Option<string>, jti: string) {
    && stored.Some? && TrimSpace(stored.value) != "" && TrimSpace(jti) != ""
    && |TrimSpace(stored.value)| == |SessionHash(hash, jti)|
    && TrimSpace(stored.value) == SessionHash(hash, jti)
  }

  /** A stored hash fits a session id exactly when it is the hash of that id. */
  lemma MatchesIffHashOf(hash: string -> string, sid: string, jti: string)
    requires HashOk(hash)
    ensures SessionMatches(hash, Some(SessionHash(hash, sid)), jti) <==> TrimSpace(jti) != "" && TrimSpace(jti) == TrimSpace(sid)
  {
    hide TrimSpace;
  }

  /** (clearLive, clearCookie) */
  function LogoutAction(presented: string, jwtSid: string, jwtIsLive: bool): (bool, bool) {
    var tab, jwt := TrimSpace(presented), TrimSpace(jwtSid);
    if tab != "" && jwt != "" && tab != jwt then (false, false)
    else if !jwtIsLive then (false, false)
    else (true, true)
  }

  // ---------------------------------------------------------------- the store and the request check

  class SessionStore {
    const hash: string -> string
    var accounts: map<Id, Account>

    constructor (hash: string -> string, accounts: map<Id, Account>)
      ensures this.hash == hash && this.accounts == accounts
    {
      this.hash, this.accounts := hash, accounts;
    }

    method ReplaceActiveSession(rawUser: Id, rawJti: string) returns (ok: bool)
      modifies this
      ensures ok <==> TrimSpace(rawUser) != "" && TrimSpace(rawJti) != ""
      ensures accounts == if ok then Replaced(hash, old(accounts), TrimSpace(rawUser), rawJti) else old(accounts)
    {
      var user, jti := TrimSpace(rawUser), TrimSpace(rawJti);
      TrimSpaceStable(rawJti);
      if user == "" || jti == "" { return false; }
      if user in accounts {
        accounts := accounts[user := accounts[user].(hash := Some(SessionHash(hash, jti)))];
      }
      ok := true;
    }

    /** UPDATE .. WHERE id = $1 AND "activeSessionHash" = $2 */
    method ClearActiveSessionIfCurrent(rawUser: Id, rawJti: string)
      modifies this
      ensures accounts == Cleared(hash, old(accounts), TrimSpace(rawUser), rawJti)
    {
      var user, jti := TrimSpace(rawUser), TrimSpace(rawJti);
      TrimSpaceStable(rawJti);
      if user == "" || jti == "" { return; }
      if user in accounts && accounts[user].hash == Some(SessionHash(hash, jti)) {
        accounts := accounts[user := accounts[user].(hash := None)];
      }
    }

    /** Switching an account off also ends its session; switching it to what it is does
        nothing, and the last active superadmin stays on. */
    method SetActive(rawUser: Id, rawActor: Id, active: bool) returns (error: Option<ActiveError>)
      modifies this
      ensures error == ActiveRefusal(old(accounts), TrimSpace(rawUser), TrimSpace(rawActor), active)
      ensures ActiveSuperadmins(old(accounts)) != {} ==> ActiveSuperadmins(accounts) != {}
      ensures accounts == if error.None? then Activated(old(accounts), TrimSpace(rawUser), active) else old(accounts)
    {
      var user, actor := TrimSpace(rawUser), TrimSpace(rawActor);
      if user == "" { return Some(UserNotFound); }
      if !active && user == actor { return Some(CannotDeactivateSelf); }
      if user !in accounts { return Some(UserNotFound); }
      if accounts[user].active == active { return None; }
      if ActiveSuperadmins(accounts) != {} { SuperadminRemains(accounts, user, active); }
      if !active && accounts[user].role == SUPERADMIN {
        var n := CountActiveByRole(SUPERADMIN);
        if n <= 1 { return Some(LastActiveSuperadmin); }
      }
      if active {
        accounts := accounts[user := accounts[user].(active := true)];
      } else {
        accounts := accounts[user := accounts[user].(active := false, hash := None)];
      }
      error := None;
    }

    /** SELECT COUNT(*) .. WHERE role = $1 AND the account is active */
    method CountActiveByRole(role: string) returns (n: nat)
      ensures n == |ActiveWithRole(accounts, role)|
    {
      n := |set u | u in accounts && accounts[u].active && accounts[u].role == role|;
    }

    /** Both halves of a request's identity: the token and, when sent, the tab's id. */
    method LoadAuthedUser(token: Option<Claims>, hasToken: bool, rawPresented: string) returns (r: Result<Claims, Refusal>)
      ensures r == if !hasToken then Err(TokenRequired) else Checked(hash, accounts, token, rawPresented)
      ensures HashOk(hash) ==> Answers(hash, accounts, hasToken, token, rawPresented, r)
    {
      if HashOk(hash) { CheckedAnswers(hash, accounts, hasToken, token, rawPresented); }
      if !hasToken { return Err(TokenRequired); }
      if token.None? || token.value.user !in accounts { return Err(InvalidToken); }
      var claims := token.value;
      var account := accounts[claims.user];
      if !account.active { return Err(Inactive); }
      if account.role !in ROLES { return Err(InvalidRole); }
      if !SessionMatches(hash, account.hash, claims.sid) { return Err(SignedInElsewhere); }
      var presented := TrimSpace(rawPresented);
      if presented != "" && presented != claims.sid { return Err(SignedInElsewhere); }
      r := Ok(claims);
    }
  }

  function Replaced(hash: string -> string, accounts: map<Id, Account>, user: Id, jti: string): map<Id, Account> {
    if user in accounts then accounts[user := accounts[user].(hash := Some(SessionHash(hash, jti)))] else accounts
  }

  function Cleared(hash: string -> string, accounts: map<Id, Account>, user: Id, jti: string): map<Id, Account> {
    if user != "" && TrimSpace(jti) != "" && user in accounts && accounts[user].hash == Some(SessionHash(hash, jti))
    then accounts[user := accounts[user].(hash := None)] else accounts
  }

  function ActiveWithRole(accounts: map<Id, Account>, role: string): set<Id> {
    set u | u in accounts && accounts[u].active && accounts[u].role == role
  }

  function ActiveSuperadmins(accounts: map<Id, Account>): set<Id> { ActiveWithRole(accounts, SUPERADMIN) }

  /** Switching this account off is refused. */
  predicate LastSuperadmin(accounts: map<Id, Account>, user: Id) {
    user in accounts && accounts[user].role == SUPERADMIN && |ActiveSuperadmins(accounts)| <= 1
  }

  function ActiveRefusal(accounts: map<Id, Account>, user: Id, actor: Id, active: bool): Option<ActiveError> {
    if user == "" then Some(UserNotFound)
    else if !active && user == actor then Some(CannotDeactivateSelf)
    else if user !in accounts then Some(UserNotFound)
    else if accounts[user].active && !active && LastSuperadmin(accounts, user) then Some(LastActiveSuperadmin)
    else None
  }

  /** The UPDATE that switches an account off. */
  function SwitchedOff(accounts: map<Id, Account>, user: Id): map<Id, Account>
    requires user in accounts
  {
    accounts[user := accounts[user].(active := false, hash := None)]
  }

  function Activated(accounts: map<Id, Account>, user: Id, active: bool): map<Id, Account> {
    if user !in accounts || accounts[user].active == active then accounts
    else if active then accounts[user := accounts[user].(active := true)]
    else if LastSuperadmin(accounts, user) then accounts
    else SwitchedOff(accounts, user)
  }

  lemma SwitchedOffSuperadmins(accounts: map<Id, Account>, user: Id)
    requires user in accounts
    ensures ActiveSuperadmins(SwitchedOff(accounts, user)) == ActiveSuperadmins(accounts) - {user}
  {
  }

  /** Two different active superadmins are what a count above one means. */
  lemma AnotherOne(ids: set<Id>, user: Id)
    requires user in ids && |ids| > 1
    ensures ids - {user} != {}
  {
    assert |ids - {user}| == |ids| - 1;
  }

  /** Whoever is switched on or off, some superadmin stays active. */
  lemma SuperadminRemains(accounts: map<Id, Account>, user: Id, active: bool)
    requires ActiveSuperadmins(accounts) != {}
    ensures ActiveSuperadmins(Activated(accounts, user, active)) != {}
  {
    var after := Activated(accounts, user, active);
    var admin :| admin in ActiveSuperadmins(accounts);
    if after != accounts && !active {
      SwitchedOffSuperadmins(accounts, user);
      if user in ActiveSuperadmins(accounts) {
        AnotherOne(ActiveSuperadmins(accounts), user);
      }
    } else {
      assert admin in ActiveSuperadmins(after);
    }
  }

  /** Main result: the count is read before the UPDATE, so two requests may both be accepted
      against the same accounts.  No superadmin stays active if and only if they switch off
      two different superadmins and there were no others. */
  lemma StaleDeactivationsIff(accounts: map<Id, Account>, u: Id, v: Id)
    requires ActiveSuperadmins(accounts) != {}
    requires u in accounts && accounts[u].active && !LastSuperadmin(accounts, u)
    requires v in accounts && accounts[v].active && !LastSuperadmin(accounts, v)
    ensures ActiveSuperadmins(SwitchedOff(SwitchedOff(accounts, u), v)) == {}
       <==> u != v && ActiveSuperadmins(accounts) == {u, v}
  {
    var admins := ActiveSuperadmins(accounts);
    SwitchedOffSuperadmins(accounts, u);
    SwitchedOffSuperadmins(SwitchedOff(accounts, u), v);
    if admins - {u} - {v} == {} {
      var admin :| admin in admins;
      AnotherOne(admins, admin);
      var other :| other in admins - {admin};
      forall id | id in admins ensures id in {u, v} {
        assert id !in admins - {u} - {v};
      }
      assert admin in {u, v} && other in {u, v};
      assert admins == {u, v};
    }
  }

  function Checked(hash: string -> string, accounts: map<Id, Account>, token: Option<Claims>, presented: string): Result<Claims, Refusal> {
    if token.None? || token.value.user !in accounts then Err(InvalidToken)
    else
      var c, a := token.value, accounts[token.value.user];
      if !a.active then Err(Inactive)
      else if a.role !in ROLES then Err(InvalidRole)
      else if !SessionMatches(hash, a.hash, c.sid) then Err(SignedInElsewhere)
      else if TrimSpace(presented) != "" && TrimSpace(presented) != c.sid then Err(SignedInElsewhere)
      else Ok(c)
  }

  /** The stored hash is that of the session id. */
  predicate HoldsSession(hash: string -> string, stored: Option<string>, sid: string) {
    stored.Some? && TrimSpace(stored.value) == hash(TrimSpace(sid)) && TrimSpace(sid) != ""
  }

  /** The request comes from the tab of the session, or does not say which tab it comes from. */
  predicate FromTab(presented: string, sid: string) { TrimSpace(presented) == "" || TrimSpace(presented) == sid }

  /** What an answer to a request says about the account, the token and the tab, refusal by
      refusal. */
  predicate Answers(hash: string -> string, accounts: map<Id, Account>, hasToken: bool, token: Option<Claims>, presented: string,
                    r: Result<Claims, Refusal>)
  {
    if !hasToken then r == Err(TokenRequired)
    else if !(token.Some? && token.value.user in accounts) then r == Err(InvalidToken)
    else
      var c, a := token.value, accounts[token.value.user];
      var live := HoldsSession(hash, a.hash, c.sid) && FromTab(presented, c.sid);
      && (r == Ok(c) <==> a.active && a.role in ROLES && live)
      && (r == Err(Inactive) <==> !a.active)
      && (r == Err(InvalidRole) <==> a.active && a.role !in ROLES)
      && (r == Err(SignedInElsewhere) <==> a.active && a.role in ROLES && !live)
  }

  /** Main result: a request is accepted if and only if its token is verified, its account
      exists, is active and has a known role, the stored hash is that of the token's session,
      and the tab it names, if any, is that session's. */
  lemma CheckedAnswers(hash: string -> string, accounts: map<Id, Account>, hasToken: bool, token: Option<Claims>, presented: string)
    requires HashOk(hash)
    ensures Answers(hash, accounts, hasToken, token, presented,
                    if !hasToken then Err(TokenRequired) else Checked(hash, accounts, token, presented))
  {
    hide TrimSpace;
    if token.Some? && token.value.user in accounts {
      var c, a := token.value, accounts[token.value.user];
      assert HoldsSession(hash, a.hash, c.sid) <==> SessionMatches(hash, a.hash, c.sid);
    }
  }

  /** Who may be switched on or off, refusal by refusal. */
  lemma SwitchRefusals(accounts: map<Id, Account>, user: Id, actor: Id, active: bool)
    ensures var r := ActiveRefusal(accounts, user, actor, active);
      && (r == Some(UserNotFound) <==> user == "" || ((active || user != actor) && user !in accounts))
      && (r == Some(CannotDeactivateSelf) <==> user != "" && !active && user == actor)
      && (r == Some(LastActiveSuperadmin) <==>
            && user != "" && user in accounts && !active && user != actor && accounts[user].active && accounts[user].role == SUPERADMIN
            && |set u | u in accounts && accounts[u].active && accounts[u].role == SUPERADMIN| <= 1)
  {
    assert ActiveSuperadmins(accounts) == set u | u in accounts && accounts[u].active && accounts[u].role == SUPERADMIN;
  }

  // ---------------------------------------------------------------- the protocol

  /** `minted` are the tokens handed out so far, `replacing` those whose login has not stored
      its hash yet, `clearing` the logouts between their read and their clear. */
  datatype System = System(accounts: map<Id, Account>, minted: set<Claims>, replacing: set<Claims>, clearing: set<Claims>)

  /** A token is only accepted if it was minted here. */
  predicate Passes(hash: string -> string, s: System, c: Claims, presented: string) {
    c in s.minted && Checked(hash, s.accounts, Some(c), presented).Ok?
  }

  predicate FreshSid(s: System, sid: string) {
    && sid != "" && TrimSpace(sid) == sid
    && forall c :: c in s.minted ==> c.sid != sid
  }

  datatype Step =
    | Mint(claims: Claims)                        // a login or claim creates its token
    | Replace(claims: Claims)                     // .. and makes it the live one
    | LogoutRead(claims: Claims, presented: string)
    | LogoutClear(claims: Claims)
    | Reset(user: Id)                             // a new password clears the live session
    | SetActive(user: Id, active: bool)           // deactivating clears it too

  predicate Allowed(s: System, step: Step) {
    match step
    case Mint(c) => c.user != "" && FreshSid(s, c.sid)
    case Replace(c) => c in s.replacing
    case LogoutRead(c, _) => c in s.minted
    case LogoutClear(c) => c in s.clearing
    case _ => true
  }

  function Next(hash: string -> string, s: System, step: Step): System {
    match step
    case Mint(c) => s.(minted := s.minted + {c}, replacing := s.replacing + {c})
    case Replace(c) => s.(accounts := Replaced(hash, s.accounts, c.user, c.sid), replacing := s.replacing - {c})
    case LogoutRead(c, presented) =>
      var live := c.user in s.accounts && SessionMatches(hash, s.accounts[c.user].hash, c.sid);
      if LogoutAction(presented, c.sid, live).0 && c.sid != "" then s.(clearing := s.clearing + {c}) else s
    case LogoutClear(c) => s.(accounts := Cleared(hash, s.accounts, c.user, c.sid), clearing := s.clearing - {c})
    case Reset(user) =>
      if user in s.accounts then s.(accounts := s.accounts[user := s.accounts[user].(hash := None)]) else s
    case SetActive(user, active) => s.(accounts := Activated(s.accounts, user, active))
  }

  /** The tokens are well formed, and what is stored is the hash of a token that is no
      longer waiting to be stored. */
  ghost predicate Inv(hash: string -> string, s: System) {
    && s.replacing <= s.minted && s.clearing <= s.minted
    && (forall c :: c in s.minted ==> c.user != "" && c.sid != "" && TrimSpace(c.sid) == c.sid)
    && (forall c, d :: c in s.minted && d in s.minted && c.sid == d.sid ==> c == d)
    && (forall u :: u in s.accounts && s.accounts[u].hash.Some? ==>
          exists c :: c in s.minted - s.replacing && c.user == u && s.accounts[u].hash.value == hash(c.sid))
  }

  /** Main result: at most one session id per user passes the check of every request. */
  lemma AtMostOnePasses(hash: string -> string, s: System, c: Claims, d: Claims, p: string, q: string)
    requires HashOk(hash) && Inv(hash, s) && Passes(hash, s, c, p) && Passes(hash, s, d, q) && c.user == d.user
    ensures c == d
  {
    hide TrimSpace;
  }

  lemma StepKeeps(hash: string -> string, s: System, step: Step)
    requires HashOk(hash) && Inv(hash, s) && Allowed(s, step)
    ensures Inv(hash, Next(hash, s, step))
  {
    hide TrimSpace, LogoutAction, SessionMatches;
    var t := Next(hash, s, step);
    forall u | u in t.accounts && t.accounts[u].hash.Some?
      ensures exists c :: c in t.minted - t.replacing && c.user == u && t.accounts[u].hash.value == hash(c.sid)
    {
      if step.Replace? && u == step.claims.user {
        assert step.claims in t.minted - t.replacing;
      } else {
        assert s.accounts[u].hash == t.accounts[u].hash;
        var c :| c in s.minted - s.replacing && c.user == u && s.accounts[u].hash.value == hash(c.sid);
        assert c in t.minted - t.replacing;
      }
    }
  }

  /** Before anybody logged in. */
  lemma StartIsOk(hash: string -> string, accounts: map<Id, Account>)
    requires forall u :: u in accounts ==> accounts[u].hash.None?
    ensures Inv(hash, System(accounts, {}, {}, {}))
  {
  }

  predicate Live(hash: string -> string, s: System, c: Claims) {
    c.user in s.accounts && s.accounts[c.user].hash == Some(hash(c.sid))
  }

  /** A token that was stored once and is not the live one any more. */
  predicate Retired(hash: string -> string, s: System, c: Claims) {
    c in s.minted - s.replacing && !Live(hash, s, c)
  }

  lemma RetiredCannotPass(hash: string -> string, s: System, c: Claims, presented: string)
    requires HashOk(hash) && Inv(hash, s) && Retired(hash, s, c)
    ensures !Passes(hash, s, c, presented)
  {
    hide TrimSpace;
  }

  /** Nothing brings a retired token back. */
  lemma RetiredStays(hash: string -> string, s: System, step: Step, c: Claims)
    requires HashOk(hash) && Inv(hash, s) && Allowed(s, step) && Retired(hash, s, c)
    ensures Retired(hash, Next(hash, s, step), c)
  {
    hide TrimSpace, LogoutAction, SessionMatches;
  }

  /** Storing a login retires every token stored for the user before. */
  lemma ReplaceRetires(hash: string -> string, s: System, c: Claims, earlier: Claims)
    requires HashOk(hash) && Inv(hash, s) && c in s.replacing && c.user in s.accounts
    requires earlier in s.minted - s.replacing && earlier.user == c.user
    ensures Live(hash, Next(hash, s, Replace(c)), c)
    ensures Retired(hash, Next(hash, s, Replace(c)), earlier)
  {
    hide TrimSpace;
  }

  ghost predicate Run(hash: string -> string, states: seq<System>, steps: seq<Step>) {
    && |states| == |steps| + 1
    && forall i :: 0 <= i < |steps| ==> Allowed(states[i], steps[i]) && states[i + 1] == Next(hash, states[i], steps[i])
  }

  lemma {:induction false} RunKeeps(hash: string -> string, states: seq<System>, steps: seq<Step>, i: nat)
    requires HashOk(hash) && Run(hash, states, steps) && Inv(hash, states[0]) && i < |states|
    ensures Inv(hash, states[i])
  {
    hide Inv, Allowed, Next;
    if i > 0 {
      RunKeeps(hash, states, steps, i - 1);
      StepKeeps(hash, states[i - 1], steps[i - 1]);
    }
  }

  /** Main result: from the moment a login is stored, no token stored for the user before it
      ever passes again, in any continuation of the run. */
  lemma {:induction false} LoginInvalidatesEarlier(hash: string -> string, states: seq<System>, steps: seq<Step>,
                                                   i: nat, k: nat, earlier: Claims, presented: string)
    requires HashOk(hash) && Run(hash, states, steps) && Inv(hash, states[0])
    requires i < k < |states| && steps[i].Replace? && steps[i].claims.user in states[i].accounts
    requires earlier in states[i].minted - states[i].replacing && earlier.user == steps[i].claims.user
    ensures Retired(hash, states[k], earlier) && !Passes(hash, states[k], earlier, presented)
    decreases k
  {
    hide Inv, Allowed, Next, Retired, Passes;
    RunKeeps(hash, states, steps, k - 1);
    RunKeeps(hash, states, steps, k);
    if k == i + 1 {
      assert steps[i] == Replace(steps[i].claims) && steps[i].claims in states[i].replacing by { ReplaceAllowed(states[i], steps[i]); }
      ReplaceRetires(hash, states[i], steps[i].claims, earlier);
    } else {
      LoginInvalidatesEarlier(hash, states, steps, i, k - 1, earlier, presented);
      RetiredStays(hash, states[k - 1], steps[k - 1], earlier);
    }
    RetiredCannotPass(hash, states[k], earlier, presented);
  }

  lemma ReplaceAllowed(s: System, step: Step)
    requires step.Replace? && Allowed(s, step)
    ensures step.claims in s.replacing
  {
  }

  // ---------------------------------------------------------------- deactivation

  lemma StepKeepsSuperadmin(hash: string -> string, s: System, step: Step)
    requires ActiveSuperadmins(s.accounts) != {}
    ensures ActiveSuperadmins(Next(hash, s, step).accounts) != {}
  {
    hide TrimSpace, SessionMatches, LogoutAction;
    if step.SetActive? {
      SuperadminRemains(s.accounts, step.user, step.active);
    } else {
      var admin :| admin in ActiveSuperadmins(s.accounts);
      assert admin in ActiveSuperadmins(Next(hash, s, step).accounts);
    }
  }

  /** With each request's check and UPDATE in one step, a superadmin stays active in every run. */
  lemma {:induction false} RunKeepsSuperadmin(hash: string -> string, states: seq<System>, steps: seq<Step>, k: nat)
    requires Run(hash, states, steps) && k < |states| && ActiveSuperadmins(states[0].accounts) != {}
    ensures ActiveSuperadmins(states[k].accounts) != {}
  {
    hide Next, Allowed, ActiveSuperadmins;
    if k > 0 {
      RunKeepsSuperadmin(hash, states, steps, k - 1);
      StepKeepsSuperadmin(hash, states[k - 1], steps[k - 1]);
      assert states[k - 1 + 1] == Next(hash, states[k - 1], steps[k - 1]);
    }
  }

  predicate Deactivates(s: System, step: Step, user: Id) {
    step == SetActive(user, false) && user in s.accounts && s.accounts[user].active && !LastSuperadmin(s.accounts, user)
  }

  lemma DeactivationRetires(hash: string -> string, s: System, step: Step, c: Claims)
    requires Deactivates(s, step, c.user) && c in s.minted - s.replacing
    ensures Retired(hash, Next(hash, s, step), c)
  {
  }

  /** Main result: a token stored before a deactivation never passes again, however often the
      account is switched on afterwards. */
  lemma {:induction false} DeactivationInvalidates(hash: string -> string, states: seq<System>, steps: seq<Step>,
                                                   i: nat, k: nat, c: Claims, presented: string)
    requires HashOk(hash) && Run(hash, states, steps) && Inv(hash, states[0])
    requires i < k < |states| && Deactivates(states[i], steps[i], c.user)
    requires c in states[i].minted - states[i].replacing
    ensures Retired(hash, states[k], c) && !Passes(hash, states[k], c, presented)
    decreases k
  {
    hide Inv, Allowed, Next, Retired, Passes;
    RunKeeps(hash, states, steps, k - 1);
    RunKeeps(hash, states, steps, k);
    if k == i + 1 {
      DeactivationRetires(hash, states[i], steps[i], c);
    } else {
      DeactivationInvalidates(hash, states, steps, i, k - 1, c, presented);
      RetiredStays(hash, states[k - 1], steps[k - 1], c);
    }
    RetiredCannotPass(hash, states[k], c, presented);
  }

  /** A login that was checked before a deactivation and is stored after it: storing a session
      does not look at the account's flag. */
  lemma LateStorePasses(hash: string -> string, s: System, c: Claims) returns (states: seq<System>, steps: seq<Step>)
    requires HashOk(hash) && Inv(hash, s)
    requires c in s.replacing && c.user in s.accounts && s.accounts[c.user].role in ROLES
    ensures steps == [SetActive(c.user, false), Replace(c), SetActive(c.user, true)]
    ensures Run(hash, states, steps) && states[0] == s && Passes(hash, states[3], c, "")
  {
    steps := [SetActive(c.user, false), Replace(c), SetActive(c.user, true)];
    var s1 := Next(hash, s, steps[0]);
    var s2 := Next(hash, s1, steps[1]);
    var s3 := Next(hash, s2, steps[2]);
    states := [s, s1, s2, s3];
    BlankTrims();
    MatchesIffHashOf(hash, c.sid, c.sid);
    hide TrimSpace, HashOk, SessionMatches, LastSuperadmin;
    assert s3.accounts[c.user] == s.accounts[c.user].(active := true, hash := Some(SessionHash(hash, c.sid)));
  }

  /** Some run that starts with switching the user's account off ends with the token passing. */
  ghost predicate ComesBack(hash: string -> string, s: System, c: Claims) {
    exists states, steps, presented ::
      && Run(hash, states, steps) && states[0] == s && steps != [] && Deactivates(s, steps[0], c.user)
      && Passes(hash, states[|steps|], c, presented)
  }

  /** Main result: a token handed out before a deactivation can pass again after it if and only
      if its login had not stored its session yet. */
  lemma SurvivesDeactivationIff(hash: string -> string, s: System, c: Claims)
    requires HashOk(hash) && Inv(hash, s) && c in s.minted
    requires Deactivates(s, SetActive(c.user, false), c.user) && s.accounts[c.user].role in ROLES
    ensures ComesBack(hash, s, c) <==> c in s.replacing
  {
    hide Inv, HashOk, Passes, Next, Allowed;
    if c in s.replacing {
      var states, steps := LateStorePasses(hash, s, c);
      assert Deactivates(s, steps[0], c.user);
    }
    if ComesBack(hash, s, c) && c !in s.replacing {
      var states, steps, presented :|
        && Run(hash, states, steps) && states[0] == s && steps != [] && Deactivates(s, steps[0], c.user)
        && Passes(hash, states[|steps|], c, presented);
      DeactivationInvalidates(hash, states, steps, 0, |steps|, c, presented);
    }
  }

  /** The case in full: a login, its account switched off, stored, and switched on again. */
  lemma LateStoreSurvivesDeactivation(hash: string -> string, c: Claims) returns (states: seq<System>, steps: seq<Step>)
    requires HashOk(hash) && c.user != "" && c.sid != "" && TrimSpace(c.sid) == c.sid
    ensures Run(hash, states, steps) && Inv(hash, states[0])
    ensures steps == [Mint(c), SetActive(c.user, false), Replace(c), SetActive(c.user, true)]
    ensures Deactivates(states[1], steps[1], c.user) && Passes(hash, states[4], c, "")
  {
    hide TrimSpace, HashOk, Passes;
    var s0 := System(map[c.user := Account(true, LEAD_ANALYST, None)], {}, {}, {});
    StartIsOk(hash, s0.accounts);
    var s1 := Next(hash, s0, Mint(c));
    StepKeeps(hash, s0, Mint(c));
    var rest, after := LateStorePasses(hash, s1, c);
    states, steps := [s0] + rest, [Mint(c)] + after;
  }

  // ---------------------------------------------------------------- logouts

  /** The logout of token c that the live session itself asked for. */
  predicate OwnLogout(step: Step, c: Claims) {
    step.LogoutRead? && step.claims == c && (TrimSpace(step.presented) == "" || TrimSpace(step.presented) == c.sid)
  }

  /** Steps that end the live session c other than its own logout: a later login of the user,
      a new password, the account being switched off. */
  predicate EndsSession(s: System, step: Step, c: Claims) {
    || (step.Replace? && step.claims.user == c.user)
    || step == Reset(c.user)
    || Deactivates(s, step, c.user)
  }

  /** Exactly those steps, and the clear of the session's own logout, end a live session. */
  lemma SessionEndsIff(hash: string -> string, s: System, step: Step, c: Claims)
    requires HashOk(hash) && Inv(hash, s) && Allowed(s, step) && c in s.minted && Live(hash, s, c)
    ensures Live(hash, Next(hash, s, step), c) <==> !EndsSession(s, step, c) && step != LogoutClear(c)
  {
    hide TrimSpace, SessionMatches;
    LiveIsStored(hash, s, c);
  }

  /** A live token has been stored, so it is not the one a pending login will store. */
  lemma LiveIsStored(hash: string -> string, s: System, c: Claims)
    requires HashOk(hash) && Inv(hash, s) && c in s.minted && Live(hash, s, c)
    ensures c !in s.replacing
  {
    hide TrimSpace;
  }

  /** What the logout rule promises by itself: a tab id that contradicts the token touches
      nothing, and neither does a token that is not live. */
  lemma LogoutTouchesOnlyLive(presented: string, jwtSid: string, live: bool)
    ensures LogoutAction(presented, jwtSid, live).0 == LogoutAction(presented, jwtSid, live).1
    ensures LogoutAction(presented, jwtSid, live).0 <==>
              live && (TrimSpace(presented) == "" || TrimSpace(jwtSid) == "" || TrimSpace(presented) == TrimSpace(jwtSid))
  {
  }

  /** The own logout of a live session takes effect: its read lets its clear follow, and the
      clear ends the session. */
  lemma OwnLogoutEnds(hash: string -> string, s: System, step: Step, c: Claims)
    requires HashOk(hash) && Inv(hash, s) && c in s.minted && Live(hash, s, c) && OwnLogout(step, c)
    ensures Allowed(s, step) && Allowed(Next(hash, s, step), LogoutClear(c))
    ensures !Live(hash, Next(hash, Next(hash, s, step), LogoutClear(c)), c)
  {
    MatchesIffHashOf(hash, c.sid, c.sid);
    hide TrimSpace, SessionMatches, LogoutAction;
    LogoutTouchesOnlyLive(step.presented, c.sid, true);
  }

  lemma OthersKeepLive(hash: string -> string, s: System, step: Step, c: Claims)
    requires HashOk(hash) && Inv(hash, s) && Allowed(s, step)
    requires c in s.minted && Live(hash, s, c) && c !in s.clearing
    requires !OwnLogout(step, c) && !EndsSession(s, step, c)
    ensures var t := Next(hash, s, step); c in t.minted && Live(hash, t, c) && c !in t.clearing
  {
    hide TrimSpace, SessionMatches, LogoutAction;
    if step.LogoutRead? {
      var d := step.claims;
      LogoutTouchesOnlyLive(step.presented, d.sid, d.user in s.accounts && SessionMatches(hash, s.accounts[d.user].hash, d.sid));
    }
  }

  /** Main result: only a later login, a new password, a deactivation or its own logout ends a
      live session.  In particular a logout with the token of an earlier session, or with the
      id of another tab, leaves it live, however its read and its clear interleave. */
  lemma {:induction false} StaleLogoutsKeepSession(hash: string -> string, states: seq<System>, steps: seq<Step>,
                                                   i: nat, k: nat, c: Claims)
    requires HashOk(hash) && Run(hash, states, steps) && Inv(hash, states[0])
    requires i <= k < |states| && c in states[i].minted && Live(hash, states[i], c) && c !in states[i].clearing
    requires forall j :: i <= j < k ==> !OwnLogout(steps[j], c) && !EndsSession(states[j], steps[j], c)
    ensures c in states[k].minted && Live(hash, states[k], c) && c !in states[k].clearing
    decreases k
  {
    hide Inv, Allowed, Next, Live, OwnLogout, EndsSession;
    if i < k {
      StaleLogoutsKeepSession(hash, states, steps, i, k - 1, c);
      RunKeeps(hash, states, steps, k - 1);
      OthersKeepLive(hash, states[k - 1], steps[k - 1], c);
    }
  }
}
