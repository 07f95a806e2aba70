/** Concurrent transfers of sales executives: any number of transactions, each locking the
    user row first and then one or two team rows in ascending id order. */
module TransferLocks {
  import opened Model
  import opened Keyset

  /** Blank ids mean: no expectation, no team. */
  datatype Request = Request(exec: Id, to: Id, expected: Id)

  /** `from` is the team read under the user lock, `got` how many team rows are locked. */
  datatype Tx = Idle | Holding(from: Id, got: nat) | Committed | Aborted

  /** One change of an executive's team; `expected` is what the transfer had asked for. */
  datatype Move = Move(exec: Id, from: Id, to: Id, expected: Id)

  /** The transactions, the users' teams, and every change of a team in commit order. */
  datatype System = System(txs: seq<Tx>, team: map<Id, Id>, history: seq<Move>)

  /** How ids compare. */
  ghost predicate TotalOrder(before: (Id, Id) -> bool) {
    StrictOrder(before) && forall a, b :: a == b || before(a, b) || before(b, a)
  }

  /** The two ids, swapped when they are out of order. */
  function LockOrder(before: (Id, Id) -> bool, from: Id, to: Id): seq<Id> {
    if from == "" then [to] else if before(from, to) then [from, to] else [to, from]
  }

  function Held(before: (Id, Id) -> bool, r: Request, tx: Tx): set<Id> {
    if tx.Holding?
    then set k | 0 <= k < tx.got && k < |LockOrder(before, tx.from, r.to)| :: LockOrder(before, tx.from, r.to)[k]
    else {}
  }

  predicate Complete(before: (Id, Id) -> bool, r: Request, tx: Tx)
    requires tx.Holding?
  {
    tx.got >= |LockOrder(before, tx.from, r.to)|
  }

  /** The team row an incomplete transaction asks for next. */
  function Wanted(before: (Id, Id) -> bool, r: Request, tx: Tx): Id
    requires tx.Holding? && !Complete(before, r, tx)
  {
    LockOrder(before, tx.from, r.to)[tx.got]
  }

  predicate UserFree(rs: seq<Request>, s: System, exec: Id)
    requires |s.txs| == |rs|
  {
    forall j :: 0 <= j < |rs| && s.txs[j].Holding? ==> rs[j].exec != exec
  }

  predicate TeamFree(before: (Id, Id) -> bool, rs: seq<Request>, s: System, team: Id)
    requires |s.txs| == |rs|
  {
    forall j :: 0 <= j < |rs| ==> team !in Held(before, rs[j], s.txs[j])
  }

  function TeamOf(s: System, exec: Id): Id { if exec in s.team then s.team[exec] else "" }

  // ---------------------------------------------------------------- steps

  /** SELECT .. FOR UPDATE of the user row, and the checks that follow it. */
  predicate TakeUser(rs: seq<Request>, s: System, t: System, i: nat)
    requires |s.txs| == |rs| && i < |rs|
  {
    var r, from := rs[i], TeamOf(s, rs[i].exec);
    && s.txs[i].Idle? && UserFree(rs, s, r.exec)
    && t == if (r.expected != "" && from != r.expected) || from == r.to
            then s.(txs := s.txs[i := Aborted])
            else s.(txs := s.txs[i := Holding(from, 0)])
  }

  predicate TakeTeam(before: (Id, Id) -> bool, rs: seq<Request>, s: System, t: System, i: nat)
    requires |s.txs| == |rs| && i < |rs|
  {
    && s.txs[i].Holding? && !Complete(before, rs[i], s.txs[i])
    && TeamFree(before, rs, s, Wanted(before, rs[i], s.txs[i]))
    && t == s.(txs := s.txs[i := Holding(s.txs[i].from, s.txs[i].got + 1)])
  }

  predicate Commit(before: (Id, Id) -> bool, rs: seq<Request>, s: System, t: System, i: nat)
    requires |s.txs| == |rs| && i < |rs|
  {
    && s.txs[i].Holding? && Complete(before, rs[i], s.txs[i])
    && t == System(s.txs[i := Committed], s.team[rs[i].exec := rs[i].to],
                   s.history + [Move(rs[i].exec, s.txs[i].from, rs[i].to, rs[i].expected)])
  }

  /** A missing team row, an error, a cancelled request: everything is released. */
  predicate Fail(rs: seq<Request>, s: System, t: System, i: nat)
    requires |s.txs| == |rs| && i < |rs|
  {
    s.txs[i].Holding? && t == s.(txs := s.txs[i := Aborted])
  }

  /** Another statement changes the executive's team; it needs the user row too. */
  predicate Elsewhere(rs: seq<Request>, s: System, t: System, exec: Id, to: Id)
    requires |s.txs| == |rs|
  {
    && UserFree(rs, s, exec)
    && t == s.(team := s.team[exec := to], history := s.history + [Move(exec, TeamOf(s, exec), to, "")])
  }

  /** A step of transaction i that needs nothing but free locks. */
  ghost predicate Progress(before: (Id, Id) -> bool, rs: seq<Request>, s: System, t: System, i: nat)
    requires |s.txs| == |rs| && i < |rs|
  {
    TakeUser(rs, s, t, i) || TakeTeam(before, rs, s, t, i) || Commit(before, rs, s, t, i)
  }

  ghost predicate Step(before: (Id, Id) -> bool, rs: seq<Request>, s: System, t: System)
    requires |s.txs| == |rs|
  {
    || (exists i: nat :: i < |rs| && (Progress(before, rs, s, t, i) || Fail(rs, s, t, i)))
    || (exists exec, to :: Elsewhere(rs, s, t, exec, to))
  }

  // ---------------------------------------------------------------- what every step keeps

  /** The team an executive was last moved to. */
  function LastTeam(initial: map<Id, Id>, history: seq<Move>, exec: Id): Id {
    if history == [] then (if exec in initial then initial[exec] else "")
    else if history[|history| - 1].exec == exec then history[|history| - 1].to
    else LastTeam(initial, history[..|history| - 1], exec)
  }

  /** Every recorded move starts where the executive then was. */
  ghost predicate Honest(initial: map<Id, Id>, history: seq<Move>) {
    forall k :: 0 <= k < |history| ==>
      && history[k].from == LastTeam(initial, history[..k], history[k].exec)
      && (history[k].expected != "" ==> history[k].from == history[k].expected && history[k].from != history[k].to)
  }

  ghost predicate Inv(before: (Id, Id) -> bool, rs: seq<Request>, initial: map<Id, Id>, s: System) {
    && |s.txs| == |rs|
    && (forall i :: 0 <= i < |rs| && s.txs[i].Holding? ==>
          && s.txs[i].from == TeamOf(s, rs[i].exec) && s.txs[i].from != rs[i].to
          && (rs[i].expected != "" ==> s.txs[i].from == rs[i].expected))
    && (forall i, j :: 0 <= i < j < |rs| && s.txs[i].Holding? && s.txs[j].Holding? ==> rs[i].exec != rs[j].exec)
    && (forall i, j :: 0 <= i < j < |rs| ==> Held(before, rs[i], s.txs[i]) !! Held(before, rs[j], s.txs[j]))
    && Honest(initial, s.history)
    && (forall e :: TeamOf(s, e) == LastTeam(initial, s.history, e))
  }

  lemma InitKeeps(before: (Id, Id) -> bool, rs: seq<Request>, team: map<Id, Id>)
    ensures Inv(before, rs, team, System(seq(|rs|, i => Idle), team, []))
  {
  }

  lemma {:induction false} HonestSnoc(initial: map<Id, Id>, history: seq<Move>, m: Move)
    requires Honest(initial, history) && m.from == LastTeam(initial, history, m.exec)
    requires m.expected != "" ==> m.from == m.expected && m.from != m.to
    ensures Honest(initial, history + [m])
    ensures forall e :: LastTeam(initial, history + [m], e) == if e == m.exec then m.to else LastTeam(initial, history, e)
  {
    var h := history + [m];
    assert h[..|h| - 1] == history;
    forall k | 0 <= k < |h| ensures h[k].from == LastTeam(initial, h[..k], h[k].exec) {
      assert k < |history| ==> h[..k] == history[..k] && h[k] == history[k];
    }
  }

  /** Releasing or starting a transaction takes no team row. */
  lemma SmallerHoldKeeps(before: (Id, Id) -> bool, rs: seq<Request>, initial: map<Id, Id>, s: System, i: nat, tx: Tx)
    requires Inv(before, rs, initial, s) && i < |rs| && Held(before, rs[i], tx) == {}
    requires tx.Holding? ==>
      && UserFree(rs, s, rs[i].exec) && tx.from == TeamOf(s, rs[i].exec) && tx.from != rs[i].to
      && (rs[i].expected != "" ==> tx.from == rs[i].expected)
    ensures Inv(before, rs, initial, s.(txs := s.txs[i := tx]))
  {
    hide LockOrder, LastTeam, Honest, Held;
  }

  lemma TakeTeamKeeps(before: (Id, Id) -> bool, rs: seq<Request>, initial: map<Id, Id>, s: System, t: System, i: nat)
    requires TotalOrder(before) && Inv(before, rs, initial, s) && i < |rs| && TakeTeam(before, rs, s, t, i)
    ensures Inv(before, rs, initial, t)
  {
    var w := Wanted(before, rs[i], s.txs[i]);
    assert Held(before, rs[i], t.txs[i]) == Held(before, rs[i], s.txs[i]) + {w};
    hide LockOrder, LastTeam, Honest, Held, Complete, Wanted;
    forall j, k | 0 <= j < k < |rs| ensures Held(before, rs[j], t.txs[j]) !! Held(before, rs[k], t.txs[k]) {
      assert Held(before, rs[j], s.txs[j]) !! Held(before, rs[k], s.txs[k]);
      assert w !in Held(before, rs[j], s.txs[j]) && w !in Held(before, rs[k], s.txs[k]);
    }
  }

  lemma CommitKeeps(before: (Id, Id) -> bool, rs: seq<Request>, initial: map<Id, Id>, s: System, t: System, i: nat)
    requires Inv(before, rs, initial, s) && i < |rs| && Commit(before, rs, s, t, i)
    ensures Inv(before, rs, initial, t)
  {
    var m := Move(rs[i].exec, s.txs[i].from, rs[i].to, rs[i].expected);
    SmallerHoldKeeps(before, rs, initial, s, i, Committed);
    HonestSnoc(initial, s.history, m);
    TeamChangeKeeps(before, rs, initial, s.(txs := s.txs[i := Committed]), t, m);
  }

  /** Moving an executive whose user row nobody holds. */
  lemma TeamChangeKeeps(before: (Id, Id) -> bool, rs: seq<Request>, initial: map<Id, Id>, s: System, t: System, m: Move)
    requires Inv(before, rs, initial, s) && UserFree(rs, s, m.exec) && Honest(initial, s.history + [m])
    requires forall e :: LastTeam(initial, s.history + [m], e) == if e == m.exec then m.to else LastTeam(initial, s.history, e)
    requires t == System(s.txs, s.team[m.exec := m.to], s.history + [m])
    ensures Inv(before, rs, initial, t)
  {
    hide LockOrder, LastTeam, Honest, Held;
  }

  /** Every step keeps the invariant: the locks exclude each other, the team read under a
      user lock stays true, and the history is honest. */
  lemma StepKeeps(before: (Id, Id) -> bool, rs: seq<Request>, initial: map<Id, Id>, s: System, t: System)
    requires TotalOrder(before) && Inv(before, rs, initial, s) && Step(before, rs, s, t)
    ensures Inv(before, rs, initial, t)
  {
    assert |s.txs| == |rs|;
    hide Inv, Complete, LockOrder, TakeTeam, Commit, TotalOrder;
    if i: nat :| i < |rs| && (Progress(before, rs, s, t, i) || Fail(rs, s, t, i)) {
      if TakeTeam(before, rs, s, t, i) {
        TakeTeamKeeps(before, rs, initial, s, t, i);
      } else if Commit(before, rs, s, t, i) {
        CommitKeeps(before, rs, initial, s, t, i);
      } else {
        SmallerHoldKeeps(before, rs, initial, s, i, t.txs[i]);
      }
    } else {
      var exec, to :| Elsewhere(rs, s, t, exec, to);
      var m := Move(exec, TeamOf(s, exec), to, "");
      InvHistory(before, rs, initial, s);
      HonestSnoc(initial, s.history, m);
      TeamChangeKeeps(before, rs, initial, s, t, m);
    }
  }

  lemma InvHistory(before: (Id, Id) -> bool, rs: seq<Request>, initial: map<Id, Id>, s: System)
    requires Inv(before, rs, initial, s)
    ensures Honest(initial, s.history) && forall e :: TeamOf(s, e) == LastTeam(initial, s.history, e)
  {
  }

  // ---------------------------------------------------------------- no deadlock

  predicate Waiting(before: (Id, Id) -> bool, r: Request, tx: Tx) { tx.Holding? && !Complete(before, r, tx) }

  /** Among the first n transactions, one whose next team row is not below any other's. */
  lemma {:induction false} HighestWait(before: (Id, Id) -> bool, rs: seq<Request>, s: System, n: nat) returns (i: nat)
    requires TotalOrder(before) && |s.txs| == |rs| && n <= |rs|
    requires exists j :: 0 <= j < n && Waiting(before, rs[j], s.txs[j])
    ensures i < n && Waiting(before, rs[i], s.txs[i])
    ensures forall j :: 0 <= j < n && Waiting(before, rs[j], s.txs[j]) ==>
              !before(Wanted(before, rs[i], s.txs[i]), Wanted(before, rs[j], s.txs[j]))
  {
    hide Complete, Wanted;
    if exists j :: 0 <= j < n - 1 && Waiting(before, rs[j], s.txs[j]) {
      i := HighestWait(before, rs, s, n - 1);
      if Waiting(before, rs[n - 1], s.txs[n - 1])
         && before(Wanted(before, rs[i], s.txs[i]), Wanted(before, rs[n - 1], s.txs[n - 1])) {
        i := n - 1;
      }
    } else {
      i := n - 1;
    }
  }

  /** A waiting transaction that holds a row wants a higher one. */
  lemma HeldIsBelowWanted(before: (Id, Id) -> bool, r: Request, tx: Tx, team: Id)
    requires TotalOrder(before) && Waiting(before, r, tx) && tx.from != r.to && team in Held(before, r, tx)
    ensures before(team, Wanted(before, r, tx))
  {
  }

  predicate Unfinished(tx: Tx) { tx.Idle? || tx.Holding? }

  /** Main result: with any number of transactions, as long as one is unfinished some
      transaction has all the locks its next step needs. */
  lemma NoDeadlock(before: (Id, Id) -> bool, rs: seq<Request>, initial: map<Id, Id>, s: System)
    requires TotalOrder(before) && Inv(before, rs, initial, s)
    requires exists i :: 0 <= i < |rs| && Unfinished(s.txs[i])
    ensures exists i: nat, t :: i < |rs| && Progress(before, rs, s, t, i)
  {
    if j :| 0 <= j < |rs| && s.txs[j].Holding? && Complete(before, rs[j], s.txs[j]) {
      CanCommit(before, rs, s, j);
    } else if exists j :: 0 <= j < |rs| && s.txs[j].Holding? {
      hide Inv, Complete, Held, Wanted;
      assert exists j :: 0 <= j < |rs| && Waiting(before, rs[j], s.txs[j]);
      var i := HighestWait(before, rs, s, |rs|);
      HighestCanTake(before, rs, initial, s, i);
    } else {
      var i :| 0 <= i < |rs| && Unfinished(s.txs[i]);
      CanStart(before, rs, s, i);
    }
  }

  lemma CanCommit(before: (Id, Id) -> bool, rs: seq<Request>, s: System, i: nat)
    requires |s.txs| == |rs| && i < |rs| && s.txs[i].Holding? && Complete(before, rs[i], s.txs[i])
    ensures exists t :: Progress(before, rs, s, t, i)
  {
    var t := System(s.txs[i := Committed], s.team[rs[i].exec := rs[i].to],
                    s.history + [Move(rs[i].exec, s.txs[i].from, rs[i].to, rs[i].expected)]);
    assert Commit(before, rs, s, t, i);
    assert Progress(before, rs, s, t, i);
  }

  lemma CanStart(before: (Id, Id) -> bool, rs: seq<Request>, s: System, i: nat)
    requires |s.txs| == |rs| && i < |rs| && s.txs[i].Idle? && UserFree(rs, s, rs[i].exec)
    ensures exists t :: Progress(before, rs, s, t, i)
  {
    var r, from := rs[i], TeamOf(s, rs[i].exec);
    var t := if (r.expected != "" && from != r.expected) || from == r.to
             then s.(txs := s.txs[i := Aborted])
             else s.(txs := s.txs[i := Holding(from, 0)]);
    assert TakeUser(rs, s, t, i);
    assert Progress(before, rs, s, t, i);
  }

  lemma HighestCanTake(before: (Id, Id) -> bool, rs: seq<Request>, initial: map<Id, Id>, s: System, i: nat)
    requires TotalOrder(before) && Inv(before, rs, initial, s) && i < |rs| && Waiting(before, rs[i], s.txs[i])
    requires forall j :: 0 <= j < |rs| && s.txs[j].Holding? ==> !Complete(before, rs[j], s.txs[j])
    requires forall j :: 0 <= j < |rs| && Waiting(before, rs[j], s.txs[j]) ==>
               !before(Wanted(before, rs[i], s.txs[i]), Wanted(before, rs[j], s.txs[j]))
    ensures exists t :: Progress(before, rs, s, t, i)
  {
    var w := Wanted(before, rs[i], s.txs[i]);
    forall j | 0 <= j < |rs| ensures w !in Held(before, rs[j], s.txs[j]) {
      if w in Held(before, rs[j], s.txs[j]) {
        assert s.txs[j].Holding? && s.txs[j].from != rs[j].to;
        HeldIsBelowWanted(before, rs[j], s.txs[j], w);
        assert false;
      }
    }
    var t := s.(txs := s.txs[i := Holding(s.txs[i].from, s.txs[i].got + 1)]);
    assert TakeTeam(before, rs, s, t, i);
    assert Progress(before, rs, s, t, i);
  }

  // ---------------------------------------------------------------- two transfers

  /** An executive not moved to `team` between two points of the history, who was elsewhere
      at the first, is still elsewhere at the second. */
  lemma {:induction false} StaysAway(initial: map<Id, Id>, history: seq<Move>, exec: Id, team: Id, p: nat, q: nat)
    requires p <= q <= |history|
    requires LastTeam(initial, history[..p], exec) != team
    requires forall k :: p <= k < q && history[k].exec == exec ==> history[k].to != team
    ensures LastTeam(initial, history[..q], exec) != team
    decreases q
  {
    if p < q {
      StaysAway(initial, history, exec, team, p, q - 1);
      assert history[..q][..q - 1] == history[..q - 1];
    }
  }

  /** Main result: two transfers of one executive that both asked for the same current team
      both succeed only if the executive was moved back to it in between. */
  lemma SecondTransferNeedsMoveBack(before: (Id, Id) -> bool, rs: seq<Request>, initial: map<Id, Id>, s: System, p: nat, q: nat)
    requires Inv(before, rs, initial, s) && p < q < |s.history|
    requires s.history[p].exec == s.history[q].exec && s.history[p].expected == s.history[q].expected != ""
    ensures exists k :: p < k < q && s.history[k].exec == s.history[p].exec && s.history[k].to == s.history[p].expected
  {
    InvHistory(before, rs, initial, s);
    var h, exec, team := s.history, s.history[p].exec, s.history[p].expected;
    assert h[..p + 1][..p] == h[..p];
    assert LastTeam(initial, h[..p + 1], exec) == h[p].to != team;
    if forall k :: p < k < q && h[k].exec == exec ==> h[k].to != team {
      StaysAway(initial, h, exec, team, p + 1, q);
      assert false;
    }
  }

  // ---------------------------------------------------------------- whole runs

  ghost predicate Behaviour(before: (Id, Id) -> bool, rs: seq<Request>, states: seq<System>) {
    && states != []
    && states[0] == System(seq(|rs|, i => Idle), states[0].team, [])
    && (forall k :: 0 <= k < |states| ==> |states[k].txs| == |rs|)
    && (forall k :: 0 <= k < |states| - 1 ==> Step(before, rs, states[k], states[k + 1]))
  }

  lemma {:induction false} BehaviourKeeps(before: (Id, Id) -> bool, rs: seq<Request>, states: seq<System>, k: nat)
    requires TotalOrder(before) && Behaviour(before, rs, states) && k < |states|
    ensures Inv(before, rs, states[0].team, states[k])
  {
    if k == 0 {
      InitKeeps(before, rs, states[0].team);
    } else {
      BehaviourKeeps(before, rs, states, k - 1);
      assert Step(before, rs, states[k - 1], states[k - 1 + 1]);
      StepKeeps(before, rs, states[0].team, states[k - 1], states[k]);
    }
  }

  /** Main result over every run: no reachable state with an unfinished transaction is stuck,
      and no team row is ever locked twice. */
  lemma RunsNeverDeadlock(before: (Id, Id) -> bool, rs: seq<Request>, states: seq<System>, k: nat)
    requires TotalOrder(before) && Behaviour(before, rs, states) && k < |states|
    ensures (exists i :: 0 <= i < |rs| && Unfinished(states[k].txs[i])) ==>
              exists i: nat, t :: i < |rs| && Progress(before, rs, states[k], t, i)
    ensures forall i, j :: 0 <= i < j < |rs| ==> Held(before, rs[i], states[k].txs[i]) !! Held(before, rs[j], states[k].txs[j])
  {
    BehaviourKeeps(before, rs, states, k);
    if exists i :: 0 <= i < |rs| && Unfinished(states[k].txs[i]) {
      NoDeadlock(before, rs, states[0].team, states[k]);
    }
  }
}
