/** Several server instances share the generation counter, each with a 300 ms local copy.
    Reading the counter and storing the copy are separate steps, as are incrementing it and
    storing the result, so the steps of concurrent calls interleave. */
module CacheProtocol {
  import opened Wrappers
  import opened Model
  import opened RedisCaching

  /** The local copy, with the time it was stored and the time it was read from the server. */
  datatype Local = Local(gen: nat, fetched: Time, readAt: Time)

  /** A call between its server step and its local step. */
  datatype Pending = Pending(inst: nat, gen: nat, readAt: Time)

  /** A Get that has its generation and has not read its value yet. */
  datatype Looking = Looking(inst: nat, gen: nat, key: string, since: Time)

  /** A finished Get: when it had its generation, and under which one its value was stored. */
  datatype Answer = Answer(inst: nat, key: string, since: Time, storedUnder: nat)

  /** bumps[k] is the time of the increment that made the counter k + 1; values records for
      every generation and key under which generation the value was stored. */
  datatype System = System(
    now: Time,
    bumps: seq<Time>,
    locals: map<nat, Local>,
    pending: seq<Pending>,
    looking: seq<Looking>,
    values: map<(nat, string), nat>,
    answers: seq<Answer>)

  function Counter(s: System): nat { |s.bumps| }

  predicate Fresh(s: System, inst: nat) {
    inst in s.locals && s.now - s.locals[inst].fetched < GEN_CACHE_FOR
  }

  // ---------------------------------------------------------------- steps

  /** Time passes; a call takes at most `delay` between its server and its local step. */
  predicate Tick(delay: Time, s: System, t: System) {
    && t == s.(now := t.now) && s.now <= t.now
    && forall p :: p in s.pending ==> t.now <= p.readAt + delay
  }

  /** GET of the counter, when the local copy is missing or old. */
  predicate Read(s: System, t: System, inst: nat) {
    !Fresh(s, inst) && t == s.(pending := s.pending + [Pending(inst, Counter(s), s.now)])
  }

  /** INCR of the counter. */
  predicate Bump(s: System, t: System, inst: nat) {
    t == s.(bumps := s.bumps + [s.now], pending := s.pending + [Pending(inst, Counter(s) + 1, s.now)])
  }

  function Stored(s: System, i: nat): System
    requires i < |s.pending|
  {
    var p := s.pending[i];
    s.(locals := s.locals[p.inst := Local(p.gen, s.now, p.readAt)], pending := Without(s.pending, i))
  }

  /** The local copy is overwritten with what this call read or got back. */
  predicate StoreLocal(s: System, t: System, i: nat) { i < |s.pending| && t == Stored(s, i) }

  /** A Get whose generation() fetched goes on with the value it read itself. */
  predicate StoreAndLook(s: System, t: System, i: nat, key: string) {
    && i < |s.pending|
    && t == Stored(s, i).(looking := s.looking + [Looking(s.pending[i].inst, s.pending[i].gen, key, s.now)])
  }

  /** A Get with a fresh local copy. */
  predicate LookLocal(s: System, t: System, inst: nat, key: string) {
    Fresh(s, inst) && t == s.(looking := s.looking + [Looking(inst, s.locals[inst].gen, key, s.now)])
  }

  /** SET under any generation some call has seen. */
  predicate Put(s: System, t: System, gen: nat, key: string) {
    gen <= Counter(s) && t == s.(values := s.values[(gen, key) := gen])
  }

  /** A value runs out. */
  predicate Evict(s: System, t: System, gen: nat, key: string) { t == s.(values := s.values - {(gen, key)}) }

  /** The Get reads its value: a hit is an answer, a miss is not. */
  predicate Finish(s: System, t: System, i: nat) {
    && i < |s.looking|
    && var l := s.looking[i];
       t == s.(looking := Without(s.looking, i),
               answers := s.answers + if (l.gen, l.key) in s.values
                                      then [Answer(l.inst, l.key, l.since, s.values[(l.gen, l.key)])] else [])
  }

  ghost predicate Step(delay: Time, s: System, t: System) {
    || Tick(delay, s, t)
    || (exists inst: nat :: Read(s, t, inst))
    || (exists inst: nat :: Bump(s, t, inst))
    || (exists i: nat :: StoreLocal(s, t, i))
    || (exists i: nat, key :: StoreAndLook(s, t, i, key))
    || (exists inst: nat, key :: LookLocal(s, t, inst, key))
    || (exists gen: nat, key :: Put(s, t, gen, key))
    || (exists gen: nat, key :: Evict(s, t, gen, key))
    || (exists i: nat :: Finish(s, t, i))
  }

  // ---------------------------------------------------------------- staleness

  /** A generation read at `at` counts every increment before that time. */
  ghost predicate Covers(bumps: seq<Time>, gen: nat, at: Time) {
    forall k :: 0 <= k < |bumps| && bumps[k] < at ==> k + 1 <= gen
  }

  /** A generation in use since `since` counts every increment older than the local copy may
      be plus the delay of one fetch. */
  ghost predicate RecentEnough(delay: Time, bumps: seq<Time>, gen: nat, since: Time) {
    forall k :: 0 <= k < |bumps| && bumps[k] + GEN_CACHE_FOR + delay < since ==> k + 1 <= gen
  }

  ghost predicate Inv(delay: Time, s: System) {
    && (forall k :: 0 <= k < |s.bumps| ==> s.bumps[k] <= s.now)
    && (forall p :: p in s.pending ==> p.readAt <= s.now <= p.readAt + delay && p.gen <= |s.bumps| && Covers(s.bumps, p.gen, p.readAt))
    && (forall i :: i in s.locals ==>
          && s.locals[i].fetched <= s.now && s.locals[i].fetched <= s.locals[i].readAt + delay
          && s.locals[i].readAt <= s.now && Covers(s.bumps, s.locals[i].gen, s.locals[i].readAt))
    && (forall l :: l in s.looking ==> l.since <= s.now && RecentEnough(delay, s.bumps, l.gen, l.since))
    && (forall k :: k in s.values ==> s.values[k] == k.0)
    && (forall a :: a in s.answers ==> a.since <= s.now && RecentEnough(delay, s.bumps, a.storedUnder, a.since))
  }

  /** A fresh local copy is recent enough. */
  lemma FreshIsRecent(delay: Time, s: System, inst: nat)
    requires Inv(delay, s) && Fresh(s, inst)
    ensures RecentEnough(delay, s.bumps, s.locals[inst].gen, s.now)
  {
  }

  lemma FetchedIsRecent(delay: Time, s: System, p: Pending)
    requires Inv(delay, s) && p in s.pending
    ensures RecentEnough(delay, s.bumps, p.gen, s.now)
  {
  }

  /** A new increment happens now, so nothing read or used before has to count it. */
  lemma BumpKeeps(delay: Time, s: System, t: System, inst: nat)
    requires delay >= 0 && Inv(delay, s) && Bump(s, t, inst)
    ensures Inv(delay, t)
  {
    forall gen, at | Covers(s.bumps, gen, at) && at <= s.now ensures Covers(t.bumps, gen, at) {
    }
    forall gen, since | RecentEnough(delay, s.bumps, gen, since) && since <= s.now ensures RecentEnough(delay, t.bumps, gen, since) {
    }
    hide Covers, RecentEnough;
    assert Covers(t.bumps, Counter(s) + 1, s.now) by { NewestCoversAll(t.bumps, s.now); }
  }

  lemma NewestCoversAll(bumps: seq<Time>, at: Time)
    ensures Covers(bumps, |bumps|, at)
  {
  }

  lemma StoreKeeps(delay: Time, s: System, i: nat)
    requires Inv(delay, s) && i < |s.pending|
    ensures Inv(delay, Stored(s, i))
  {
    assert s.pending[i] in s.pending;
    hide Covers, RecentEnough;
  }

  lemma LookKeeps(delay: Time, s: System, l: Looking)
    requires Inv(delay, s) && l.since == s.now && RecentEnough(delay, s.bumps, l.gen, l.since)
    ensures Inv(delay, s.(looking := s.looking + [l]))
  {
    hide Covers, RecentEnough;
  }

  lemma FinishKeeps(delay: Time, s: System, t: System, i: nat)
    requires Inv(delay, s) && Finish(s, t, i)
    ensures Inv(delay, t)
  {
    assert s.looking[i] in s.looking;
    hide Covers, RecentEnough;
  }

  lemma ReadKeeps(delay: Time, s: System, t: System, inst: nat)
    requires delay >= 0 && Inv(delay, s) && Read(s, t, inst)
    ensures Inv(delay, t)
  {
    NewestCoversAll(s.bumps, s.now);
    hide Covers, RecentEnough;
  }

  lemma StepKeeps(delay: Time, s: System, t: System)
    requires delay >= 0 && Inv(delay, s) && Step(delay, s, t)
    ensures Inv(delay, t)
  {
    hide Covers, RecentEnough;
    if Tick(delay, s, t) {
    } else if inst: nat :| Read(s, t, inst) {
      ReadKeeps(delay, s, t, inst);
    } else if inst: nat :| Bump(s, t, inst) {
      BumpKeeps(delay, s, t, inst);
    } else if i: nat :| StoreLocal(s, t, i) {
      StoreKeeps(delay, s, i);
    } else if i: nat, key :| StoreAndLook(s, t, i, key) {
      StoreKeeps(delay, s, i);
      assert s.pending[i] in s.pending;
      FetchedIsRecent(delay, s, s.pending[i]);
      LookKeeps(delay, Stored(s, i), Looking(s.pending[i].inst, s.pending[i].gen, key, s.now));
    } else if inst: nat, key :| LookLocal(s, t, inst, key) {
      FreshIsRecent(delay, s, inst);
      LookKeeps(delay, s, Looking(inst, s.locals[inst].gen, key, s.now));
    } else if gen: nat, key :| Put(s, t, gen, key) {
    } else if gen: nat, key :| Evict(s, t, gen, key) {
    } else {
      var i: nat :| Finish(s, t, i);
      FinishKeeps(delay, s, t, i);
    }
  }

  const START := System(0, [], map[], [], [], map[], [])

  ghost predicate Behaviour(delay: Time, states: seq<System>) {
    && states != [] && states[0] == START
    && forall k :: 0 <= k < |states| - 1 ==> Step(delay, states[k], states[k + 1])
  }

  lemma {:induction false} BehaviourKeeps(delay: Time, states: seq<System>, k: nat)
    requires delay >= 0 && Behaviour(delay, states) && k < |states|
    ensures Inv(delay, states[k])
  {
    if k > 0 {
      BehaviourKeeps(delay, states, k - 1);
      assert Step(delay, states[k - 1], states[k - 1 + 1]);
      StepKeeps(delay, states[k - 1], states[k]);
    }
  }

  /** Main result: in every interleaving, once 300 ms plus the delay of one fetch have passed
      since an increment, no instance that then asks for a generation is ever answered with a
      value stored under an older one. */
  lemma StaleNeverServedLater(delay: Time, states: seq<System>, k: nat, a: Answer, bump: nat)
    requires delay >= 0 && Behaviour(delay, states) && k < |states| && a in states[k].answers
    requires bump < |states[k].bumps| && states[k].bumps[bump] + GEN_CACHE_FOR + delay < a.since
    ensures a.storedUnder >= bump + 1
  {
    BehaviourKeeps(delay, states, k);
  }

  // ---------------------------------------------------------------- the clearing instance

  ghost predicate Continues(delay: Time, s: System, states: seq<System>) {
    && states != [] && states[0] == s
    && forall k :: 0 <= k < |states| - 1 ==> Step(delay, states[k], states[k + 1])
  }

  /** The answers of this instance after the first ones are all at generation g or above. */
  ghost predicate AnswersFrom(s: System, first: nat, inst: nat, g: nat) {
    && first <= |s.answers|
    && forall j :: first <= j < |s.answers| && s.answers[j].inst == inst ==> g <= s.answers[j].storedUnder
  }

  /** What the instance promises from here on: whatever happens next, it answers with nothing
      stored under a generation before g. */
  ghost predicate NeverOlder(delay: Time, s: System, inst: nat, g: nat) {
    forall states, k: nat :: Continues(delay, s, states) && k < |states| ==> AnswersFrom(states[k], |s.answers|, inst, g)
  }

  /** No call of the instance that has its generation already is below g. */
  predicate InFlightFrom(pending: seq<Pending>, looking: seq<Looking>, inst: nat, g: nat) {
    && (forall p :: p in pending && p.inst == inst ==> g <= p.gen)
    && (forall l :: l in looking && l.inst == inst ==> g <= l.gen)
  }

  /** Nothing below g is left at the instance: a copy it may still use and its calls in flight. */
  predicate HoldsFrom(s: System, inst: nat, g: nat) {
    && (Fresh(s, inst) ==> g <= s.locals[inst].gen)
    && InFlightFrom(s.pending, s.looking, inst, g)
  }

  ghost predicate KeyedValues(values: map<(nat, string), nat>) { forall k :: k in values ==> values[k] == k.0 }

  ghost predicate Past(s: System, first: nat, inst: nat, g: nat) {
    g <= Counter(s) && HoldsFrom(s, inst, g) && KeyedValues(s.values) && AnswersFrom(s, first, inst, g)
  }

  lemma StoreKeepsPast(s: System, i: nat, first: nat, inst: nat, g: nat)
    requires Past(s, first, inst, g) && i < |s.pending|
    ensures Past(Stored(s, i), first, inst, g)
  {
    hide KeyedValues;
    assert s.pending[i] in s.pending;
  }

  lemma LookKeepsPast(s: System, l: Looking, first: nat, inst: nat, g: nat)
    requires Past(s, first, inst, g) && (l.inst == inst ==> g <= l.gen)
    ensures Past(s.(looking := s.looking + [l]), first, inst, g)
  {
    hide KeyedValues;
  }

  lemma FinishKeepsPast(s: System, t: System, i: nat, first: nat, inst: nat, g: nat)
    requires Past(s, first, inst, g) && Finish(s, t, i)
    ensures Past(t, first, inst, g)
  {
    assert s.looking[i] in s.looking;
  }

  /** Every step of any instance keeps it: new fetches read the counter, which never falls,
      and a copy that is too old stays so. */
  lemma StepKeepsPast(delay: Time, s: System, t: System, first: nat, inst: nat, g: nat)
    requires Past(s, first, inst, g) && Step(delay, s, t)
    ensures Past(t, first, inst, g)
  {
    hide Stored, Finish;
    if Tick(delay, s, t) {
    } else if i: nat :| Read(s, t, i) {
    } else if i: nat :| Bump(s, t, i) {
    } else if i: nat :| StoreLocal(s, t, i) {
      StoreKeepsPast(s, i, first, inst, g);
    } else if i: nat, key :| StoreAndLook(s, t, i, key) {
      StoreKeepsPast(s, i, first, inst, g);
      StoreLeavesLooking(s, i);
      assert s.pending[i] in s.pending;
      LookKeepsPast(Stored(s, i), Looking(s.pending[i].inst, s.pending[i].gen, key, s.now), first, inst, g);
    } else if i: nat, key :| LookLocal(s, t, i, key) {
      LookKeepsPast(s, Looking(i, s.locals[i].gen, key, s.now), first, inst, g);
    } else if gen: nat, key :| Put(s, t, gen, key) {
    } else if gen: nat, key :| Evict(s, t, gen, key) {
    } else {
      var i: nat :| Finish(s, t, i);
      FinishKeepsPast(s, t, i, first, inst, g);
    }
  }

  lemma StoreLeavesLooking(s: System, i: nat)
    requires i < |s.pending|
    ensures Stored(s, i).looking == s.looking && Stored(s, i).now == s.now
  {
  }

  lemma {:induction false} StepsKeepPast(delay: Time, states: seq<System>, k: nat, inst: nat, g: nat)
    requires k < |states| && Continues(delay, states[0], states)
    requires Past(states[0], |states[0].answers|, inst, g)
    ensures Past(states[k], |states[0].answers|, inst, g)
  {
    if k > 0 {
      StepsKeepPast(delay, states, k - 1, inst, g);
      assert Step(delay, states[k - 1], states[k - 1 + 1]);
      StepKeepsPast(delay, states[k - 1], states[k], |states[0].answers|, inst, g);
    }
  }

  /** The three ways on from something old: a lookup that finds a value, a copy that a lookup
      uses, and a fetch that stores its copy. */
  lemma OldLookupAnswers(delay: Time, s: System, i: nat)
    returns (states: seq<System>)
    requires i < |s.looking| && s.looking[i].gen <= Counter(s)
    ensures Continues(delay, s, states) && |states| == 3
    ensures var l := s.looking[i]; states[2].answers == s.answers + [Answer(l.inst, l.key, l.since, l.gen)]
  {
    var l := s.looking[i];
    var s1 := s.(values := s.values[(l.gen, l.key) := l.gen]);
    var s2 := s1.(looking := Without(s.looking, i), answers := s.answers + [Answer(l.inst, l.key, l.since, l.gen)]);
    assert Put(s, s1, l.gen, l.key);
    assert Finish(s1, s2, i);
    states := [s, s1, s2];
  }

  lemma Prepend(delay: Time, s: System, states: seq<System>)
    requires states != [] && Step(delay, s, states[0]) && Continues(delay, states[0], states)
    ensures Continues(delay, s, [s] + states)
  {
    var all := [s] + states;
    forall k | 0 <= k < |all| - 1 ensures Step(delay, all[k], all[k + 1]) {
      if k > 0 {
        assert Step(delay, states[k - 1], states[k - 1 + 1]);
      }
    }
  }

  lemma OldCopyAnswers(delay: Time, s: System, inst: nat)
    returns (states: seq<System>)
    requires Fresh(s, inst) && s.locals[inst].gen <= Counter(s)
    ensures Continues(delay, s, states) && |states| == 4
    ensures states[3].answers == s.answers + [Answer(inst, "k", s.now, s.locals[inst].gen)]
  {
    var t := s.(looking := s.looking + [Looking(inst, s.locals[inst].gen, "k", s.now)]);
    assert LookLocal(s, t, inst, "k");
    var rest := OldLookupAnswers(delay, t, |s.looking|);
    Prepend(delay, s, rest);
    states := [s] + rest;
  }

  lemma OldFetchAnswers(delay: Time, s: System, i: nat)
    returns (states: seq<System>)
    requires i < |s.pending| && s.pending[i].gen <= Counter(s)
    ensures Continues(delay, s, states) && |states| == 5
    ensures var p := s.pending[i]; states[4].answers == s.answers + [Answer(p.inst, "k", s.now, p.gen)]
  {
    assert StoreLocal(s, Stored(s, i), i);
    var rest := OldCopyAnswers(delay, Stored(s, i), s.pending[i].inst);
    Prepend(delay, s, rest);
    states := [s] + rest;
  }

  lemma OldAnswerBreaks(delay: Time, s: System, inst: nat, g: nat, states: seq<System>)
    requires Continues(delay, s, states)
    requires var last := states[|states| - 1].answers;
      |last| == |s.answers| + 1 && last[|s.answers|].inst == inst && last[|s.answers|].storedUnder < g
    ensures !NeverOlder(delay, s, inst, g)
  {
    assert !AnswersFrom(states[|states| - 1], |s.answers|, inst, g);
  }

  /** Main result: an instance serves nothing older than g from here on, whatever the other
      calls and instances do, if and only if its usable copy, its fetches and its lookups in
      flight are at g or above. */
  lemma NeverOlderIff(delay: Time, s: System, inst: nat, g: nat)
    requires g <= Counter(s) && KeyedValues(s.values)
    ensures NeverOlder(delay, s, inst, g) <==> HoldsFrom(s, inst, g)
  {
    if HoldsFrom(s, inst, g) {
      forall states, k: nat | Continues(delay, s, states) && k < |states|
        ensures AnswersFrom(states[k], |s.answers|, inst, g)
      {
        StepsKeepPast(delay, states, k, inst, g);
      }
    } else if Fresh(s, inst) && s.locals[inst].gen < g {
      var states := OldCopyAnswers(delay, s, inst);
      OldAnswerBreaks(delay, s, inst, g, states);
    } else if p :| p in s.pending && p.inst == inst && p.gen < g {
      var i: nat :| i < |s.pending| && s.pending[i] == p;
      var states := OldFetchAnswers(delay, s, i);
      OldAnswerBreaks(delay, s, inst, g, states);
    } else {
      var l :| l in s.looking && l.inst == inst && l.gen < g;
      var i: nat :| i < |s.looking| && s.looking[i] == l;
      var states := OldLookupAnswers(delay, s, i);
      OldAnswerBreaks(delay, s, inst, g, states);
    }
  }

  /** Main result: when a clear (or a fetch) stores generation g, its instance never again
      serves anything older if and only if none of its other calls in flight got its
      generation before g. */
  lemma ClearingInstanceNeverServesOld(delay: Time, states: seq<System>, k: nat, i: nat)
    requires delay >= 0 && Behaviour(delay, states) && k < |states| && i < |states[k].pending|
    ensures var s, p := states[k], states[k].pending[i];
      NeverOlder(delay, Stored(s, i), p.inst, p.gen)
      <==> InFlightFrom(Without(s.pending, i), s.looking, p.inst, p.gen)
  {
    BehaviourKeeps(delay, states, k);
    var s := states[k];
    assert s.pending[i] in s.pending;
    NeverOlderIff(delay, Stored(s, i), s.pending[i].inst, s.pending[i].gen);
  }

  /** The failing case from the start: a fetch that reads before the clear and stores after it
      puts the old generation back, and the clearing instance serves an old value. */
  lemma LateStoreServesOld() returns (states: seq<System>)
    ensures Behaviour(0, states)
    ensures var last := states[|states| - 1];
      last.bumps == [0] && last.answers == [Answer(0, "k", 0, 0)]
    ensures exists j :: 0 <= j < |states| && HoldsGeneration(states[j], 0, 1) && states[j].answers == []
  {
    var s0 := START;
    var s1 := s0.(values := map[(0, "k") := 0]);
    var s2 := s1.(pending := [Pending(0, 0, 0)]);
    var s3 := s2.(bumps := [0], pending := [Pending(0, 0, 0), Pending(0, 1, 0)]);
    var s4 := s3.(locals := map[0 := Local(1, 0, 0)], pending := [Pending(0, 0, 0)]);
    var s5 := s4.(locals := map[0 := Local(0, 0, 0)], pending := []);
    var s6 := s5.(looking := [Looking(0, 0, "k", 0)]);
    var s7 := s6.(looking := [], answers := [Answer(0, "k", 0, 0)]);
    assert Put(s0, s1, 0, "k");
    assert Read(s1, s2, 0);
    assert Bump(s2, s3, 0);
    assert Without(s3.pending, 1) == [Pending(0, 0, 0)];
    assert StoreLocal(s3, s4, 1);
    assert Without(s4.pending, 0) == [];
    assert s4.locals[0 := Local(0, 0, 0)] == map[0 := Local(0, 0, 0)];
    assert StoreLocal(s4, s5, 0);
    assert LookLocal(s5, s6, 0, "k");
    assert Without(s6.looking, 0) == [];
    assert Finish(s6, s7, 0);
    states := [s0, s1, s2, s3, s4, s5, s6, s7];
    assert HoldsGeneration(states[4], 0, 1);
  }

  /** The instance's own copy is at this generation. */
  predicate HoldsGeneration(s: System, inst: nat, gen: nat) { inst in s.locals && s.locals[inst].gen == gen }
}
