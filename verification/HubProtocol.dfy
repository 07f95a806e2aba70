/** The hub under concurrency: adding and removing take the write lock, a broadcast holds the
    read lock while it sends, and a removed connection's channel is closed after the lock is
    released.  Then the presence events that follow from adding and removing. */
module HubProtocol {
  import opened Wrappers
  import opened Model
  import opened Hub

  /** `readers` are the running broadcasts with the connections they have still to send to;
      `closing` are the removed connections whose channel is about to be closed. */
  datatype System = System(
    clients: map<Id, Client>,
    used: set<Id>,
    readers: map<nat, set<Id>>,
    closing: set<Id>,
    closes: multiset<Id>,
    sentOnClosed: bool)

  datatype Step =
    | Add(client: Client)
    | Remove(id: Id)
    | Close(id: Id)
    | Begin(reader: nat, user: Option<Id>)   // Broadcast, or BroadcastToUser
    | Send(reader: nat, id: Id)
    | End(reader: nat)

  /** The write lock waits for every reader; connection ids are fresh. */
  predicate Enabled(s: System, step: Step) {
    match step
    case Add(c) => s.readers == map[] && c.id !in s.used
    case Remove(_) => s.readers == map[]
    case Close(id) => id in s.closing
    case Begin(b, _) => b !in s.readers
    case Send(b, id) => b in s.readers && id in s.readers[b]
    case End(b) => b in s.readers && s.readers[b] == {}
  }

  function Next(s: System, step: Step): System {
    match step
    case Add(c) => s.(clients := s.clients[c.id := c], used := s.used + {c.id})
    case Remove(id) => if id in s.clients then s.(clients := s.clients - {id}, closing := s.closing + {id}) else s
    case Close(id) => s.(closing := s.closing - {id}, closes := s.closes + multiset{id})
    case Begin(b, user) =>
      s.(readers := s.readers[b := set id | id in s.clients && (user.None? || s.clients[id].userId == user.value)])
    case Send(b, id) =>
      if b in s.readers
      then s.(readers := s.readers[b := s.readers[b] - {id}], sentOnClosed := s.sentOnClosed || id in s.closes)
      else s
    case End(b) => s.(readers := s.readers - {b})
  }

  ghost predicate Inv(s: System) {
    && s.clients.Keys <= s.used && s.closing <= s.used && (forall id :: id in s.closes ==> id in s.used)
    && s.clients.Keys !! s.closing
    && (forall id :: id in s.closes ==> id !in s.clients && id !in s.closing && s.closes[id] == 1)
    && (forall b :: b in s.readers ==> s.readers[b] <= s.clients.Keys)
    && !s.sentOnClosed
  }

  lemma StepKeeps(s: System, step: Step)
    requires Inv(s) && Enabled(s, step)
    ensures Inv(Next(s, step))
  {
    if step.Add? {
      assert Next(s, step).readers == map[];
    }
  }

  ghost predicate Run(states: seq<System>, steps: seq<Step>) {
    && |states| == |steps| + 1
    && states[0] == System(map[], {}, map[], {}, multiset{}, false)
    && forall i :: 0 <= i < |steps| ==> Enabled(states[i], steps[i]) && states[i + 1] == Next(states[i], steps[i])
  }

  /** Main result: in every interleaving each channel is closed at most once, and no
      broadcast sends on a closed channel. */
  lemma {:induction false} ChannelsAreSafe(states: seq<System>, steps: seq<Step>, k: nat)
    requires Run(states, steps) && k < |states|
    ensures Inv(states[k])
    ensures !states[k].sentOnClosed && forall id :: states[k].closes[id] <= 1
  {
    if k > 0 {
      ChannelsAreSafe(states, steps, k - 1);
      StepKeeps(states[k - 1], steps[k - 1]);
    }
  }

  /** sendTo sends on its own connection without the lock. */
  function SentTo(s: System, id: Id): System { s.(sentOnClosed := s.sentOnClosed || id in s.closes) }

  lemma {:induction false} ClosedIffCloseStep(states: seq<System>, steps: seq<Step>, k: nat, id: Id)
    requires Run(states, steps) && k < |states|
    ensures id in states[k].closes <==> exists j :: 0 <= j < k && steps[j] == Close(id)
  {
    if k > 0 {
      ClosedIffCloseStep(states, steps, k - 1, id);
      assert states[k - 1 + 1] == Next(states[k - 1], steps[k - 1]);
    }
  }

  lemma {:induction false} LeavingNeedsRemove(states: seq<System>, steps: seq<Step>, k: nat, id: Id)
    requires Run(states, steps) && k < |states|
    requires forall j :: 0 <= j < k ==> steps[j] != Remove(id)
    ensures id !in states[k].closing && id !in states[k].closes
  {
    if k > 0 {
      LeavingNeedsRemove(states, steps, k - 1, id);
      assert states[k - 1 + 1] == Next(states[k - 1], steps[k - 1]);
    }
  }

  /** Main result: in every run, the unlocked send hits a closed channel exactly when some
      earlier step closed it.  It is safe while the connection is in the table, and as long as
      nobody removed the connection before it. */
  lemma SendToHitsClosedIff(states: seq<System>, steps: seq<Step>, k: nat, id: Id)
    requires Run(states, steps) && k < |states|
    ensures SentTo(states[k], id).sentOnClosed <==> exists j :: 0 <= j < k && steps[j] == Close(id)
    ensures id in states[k].clients ==> !SentTo(states[k], id).sentOnClosed
    ensures SentTo(states[k], id).sentOnClosed ==> exists j :: 0 <= j < k && steps[j] == Remove(id)
  {
    ChannelsAreSafe(states, steps, k);
    ClosedIffCloseStep(states, steps, k, id);
    if forall j :: 0 <= j < k ==> steps[j] != Remove(id) {
      LeavingNeedsRemove(states, steps, k, id);
    }
  }

  /** And that can be too late: a drop between add and sendTo closes the channel first. */
  lemma DropBeforeSendTo(c: Client) returns (states: seq<System>, steps: seq<Step>)
    ensures Run(states, steps) && steps == [Add(c), Remove(c.id), Close(c.id)]
    ensures SentTo(states[|states| - 1], c.id).sentOnClosed
  {
    steps := [Add(c), Remove(c.id), Close(c.id)];
    var s0 := System(map[], {}, map[], {}, multiset{}, false);
    var s1 := Next(s0, steps[0]);
    var s2 := Next(s1, steps[1]);
    var s3 := Next(s2, steps[2]);
    states := [s0, s1, s2, s3];
    assert Enabled(s1, steps[1]) && c.id in s1.clients;
    assert c.id in s2.closing && c.id in s3.closes;
  }

  // ---------------------------------------------------------------- presence events

  datatype Event = Online(user: Id) | Offline(user: Id)

  /** What a subscriber concludes from the events. */
  function Fold(log: seq<Event>): set<Id> {
    if log == [] then {}
    else
      var before, last := Fold(log[..|log| - 1]), log[|log| - 1];
      if last.Online? then before + {last.user} else before - {last.user}
  }

  lemma FoldSnoc(log: seq<Event>, e: Event)
    ensures Fold(log + [e]) == if e.Online? then Fold(log) + {e.user} else Fold(log) - {e.user}
  {
    assert (log + [e])[..|log|] == log;
  }

  /** The connections, the announcements in the order they were decided under the lock, those
      of them not sent yet, and what one subscriber has received. */
  datatype Presences = Presences(clients: map<Id, Client>, made: seq<Event>, todo: seq<Event>, received: seq<Event>)

  datatype Happening = Connected(client: Client) | Disconnected(id: Id) | Dropped(id: Id) | Announced(i: nat)

  function Announce(p: Presences, e: Event): Presences { p.(made := p.made + [e], todo := p.todo + [e]) }

  /** A handler adds its connection and will announce the user's first one. */
  function Connect(p: Presences, c: Client): Presences {
    var q := p.(clients := p.clients[c.id := c]);
    if c.userId in Users(p.clients) then q else Announce(q, Online(c.userId))
  }

  /** A handler removes its connection and will announce the user's last one. */
  function Disconnect(p: Presences, id: Id): Presences {
    if id !in p.clients then p
    else
      var q := p.(clients := p.clients - {id});
      if p.clients[id].userId in Users(q.clients) then q else Announce(q, Offline(p.clients[id].userId))
  }

  /** DropUserExcept removes connections and announces nothing; the handler then finds its
      connection gone and stays silent too. */
  function Drop(p: Presences, id: Id): Presences { p.(clients := p.clients - {id}) }

  /** The lock is released between deciding and broadcasting, so any pending one may be next. */
  function Happens(p: Presences, h: Happening): Presences {
    match h
    case Connected(c) => Connect(p, c)
    case Disconnected(id) => Disconnect(p, id)
    case Dropped(id) => Drop(p, id)
    case Announced(i) =>
      if i < |p.todo| then p.(todo := Without(p.todo, i), received := p.received + [p.todo[i]]) else p
  }

  /** Connection ids are fresh. */
  predicate CanHappen(p: Presences, h: Happening) {
    (h.Connected? ==> h.client.id !in p.clients) && (h.Announced? ==> h.i < |p.todo|)
  }

  ghost predicate Course(states: seq<Presences>, steps: seq<Happening>) {
    && |states| == |steps| + 1
    && states[0] == Presences(map[], [], [], [])
    && forall k :: 0 <= k < |steps| ==> CanHappen(states[k], steps[k]) && states[k + 1] == Happens(states[k], steps[k])
  }

  ghost predicate NoDrops(steps: seq<Happening>) { forall k :: 0 <= k < |steps| ==> !steps[k].Dropped? }

  /** The announcements made tell who is connected. */
  ghost predicate Faithful(p: Presences) { Fold(p.made) == Users(p.clients) }

  lemma UsersAfterAdd(clients: map<Id, Client>, c: Client)
    requires c.id !in clients
    ensures Users(clients[c.id := c]) == Users(clients) + {c.userId}
  {
    var m := clients[c.id := c];
    forall u | u in Users(clients) + {c.userId} ensures u in Users(m) {
      if u == c.userId {
        assert m[c.id].userId == u;
      } else {
        var id :| id in clients && clients[id].userId == u;
        assert id in m && m[id].userId == u;
      }
    }
  }

  lemma UsersAfterRemove(clients: map<Id, Client>, id: Id)
    requires id in clients
    ensures var rest := clients - {id};
      Users(rest) == if clients[id].userId in Users(rest) then Users(clients) else Users(clients) - {clients[id].userId}
  {
    var rest := clients - {id};
    forall u | u in Users(clients) && u != clients[id].userId ensures u in Users(rest) {
      var k :| k in clients && clients[k].userId == u;
      assert k in rest;
    }
  }

  lemma ConnectKeepsFaithful(p: Presences, c: Client)
    requires Faithful(p) && c.id !in p.clients
    ensures Faithful(Connect(p, c))
  {
    UsersAfterAdd(p.clients, c);
    FoldSnoc(p.made, Online(c.userId));
    assert c.userId in Users(p.clients) ==> Users(p.clients) + {c.userId} == Users(p.clients);
  }

  lemma DisconnectKeepsFaithful(p: Presences, id: Id)
    requires Faithful(p)
    ensures Faithful(Disconnect(p, id))
  {
    if id in p.clients {
      UsersAfterRemove(p.clients, id);
      FoldSnoc(p.made, Offline(p.clients[id].userId));
    }
  }

  /** Dropping a connection keeps it exactly when the user has another one: the drop of the
      last connection is never announced. */
  lemma DropKeepsFaithfulIff(p: Presences, id: Id)
    requires Faithful(p) && id in p.clients
    ensures Faithful(Drop(p, id)) <==> p.clients[id].userId in Users(p.clients - {id})
  {
    UsersAfterRemove(p.clients, id);
  }

  lemma {:induction false} MadeIsFaithful(states: seq<Presences>, steps: seq<Happening>, k: nat)
    requires Course(states, steps) && NoDrops(steps) && k < |states|
    ensures Faithful(states[k])
  {
    if k > 0 {
      MadeIsFaithful(states, steps, k - 1);
      var p, h := states[k - 1], steps[k - 1];
      assert states[k - 1 + 1] == Happens(p, h) && CanHappen(p, h);
      hide Fold, Users, Connect, Disconnect;
      match h
      case Connected(c) => ConnectKeepsFaithful(p, c);
      case Disconnected(id) => DisconnectKeepsFaithful(p, id);
      case Announced(i) =>
    }
  }

  // ---------------------------------------------------------------- what a subscriber receives

  /** The events of one user, in their order. */
  function Of(log: seq<Event>, user: Id): seq<Event> {
    if log == [] then []
    else Of(log[..|log| - 1], user) + if log[|log| - 1].user == user then [log[|log| - 1]] else []
  }

  lemma OfSnoc(log: seq<Event>, e: Event, user: Id)
    ensures Of(log + [e], user) == Of(log, user) + if e.user == user then [e] else []
  {
    assert (log + [e])[..|log|] == log;
  }

  lemma {:induction false} OfConcat(a: seq<Event>, b: seq<Event>, user: Id)
    ensures Of(a + b, user) == Of(a, user) + Of(b, user)
    decreases |b|
  {
    if b == [] {
      assert a + b == a;
    } else {
      var init, e := b[..|b| - 1], b[|b| - 1];
      OfConcat(a, init, user);
      OfSnoc(a + init, e, user);
      assert a + b == a + init + [e];
    }
  }

  /** The last event of a user, if there is one. */
  function LastOf(log: seq<Event>, user: Id): Option<Event> {
    var own := Of(log, user);
    if own == [] then None else Some(own[|own| - 1])
  }

  /** A user counts as online exactly while their last event says so. */
  lemma {:induction false} FoldIsLast(log: seq<Event>, user: Id)
    ensures user in Fold(log) <==> LastOf(log, user) == Some(Online(user))
  {
    if log != [] {
      FoldIsLast(log[..|log| - 1], user);
    }
  }

  /** A send does not overtake an earlier announcement about the same user. */
  ghost predicate InOrder(p: Presences, h: Happening) {
    h.Announced? && h.i < |p.todo| ==> forall j :: 0 <= j < h.i ==> p.todo[j].user != p.todo[h.i].user
  }

  /** Nothing is lost or reordered for this user. */
  predicate Complete(p: Presences, user: Id) { Of(p.received, user) + Of(p.todo, user) == Of(p.made, user) }

  lemma {:induction false} NoneOfUser(log: seq<Event>, user: Id)
    requires forall j :: 0 <= j < |log| ==> log[j].user != user
    ensures Of(log, user) == []
  {
    if log != [] {
      NoneOfUser(log[..|log| - 1], user);
    }
  }

  /** Taking an event out of a log, no earlier one being about its user. */
  lemma OfWithout(log: seq<Event>, i: nat, user: Id)
    requires i < |log| && forall j :: 0 <= j < i ==> log[j].user != log[i].user
    ensures Of(log, user) == (if log[i].user == user then [log[i]] else []) + Of(Without(log, i), user)
  {
    hide Of;
    var a, e, b := log[..i], log[i], log[i + 1..];
    SplitAt(log, i);
    OfConcat(a + [e], b, user);
    OfConcat(a, b, user);
    OfSnoc(a, e, user);
    if e.user == user {
      NoneOfUser(a, user);
      assert Of(a + [e], user) == [e];
      assert Of(a + b, user) == Of(b, user);
    }
  }

  lemma SplitAt(log: seq<Event>, i: nat)
    requires i < |log|
    ensures log == log[..i] + [log[i]] + log[i + 1..]
  {
  }

  lemma SendKeepsComplete(p: Presences, i: nat, user: Id)
    requires i < |p.todo| && InOrder(p, Announced(i)) && Complete(p, user)
    ensures Complete(Happens(p, Announced(i)), user)
  {
    hide Of, Without;
    var e := p.todo[i];
    OfWithout(p.todo, i, user);
    OfSnoc(p.received, e, user);
    var own, rest := if e.user == user then [e] else [], Of(Without(p.todo, i), user);
    assert Of(p.received, user) + (own + rest) == Of(p.received, user) + own + rest;
  }

  lemma AnnounceKeepsComplete(p: Presences, e: Event, user: Id)
    requires Complete(p, user)
    ensures Complete(Announce(p, e), user)
  {
    OfSnoc(p.made, e, user);
    OfSnoc(p.todo, e, user);
  }

  lemma {:induction false} InOrderIsComplete(states: seq<Presences>, steps: seq<Happening>, k: nat, user: Id)
    requires Course(states, steps) && k < |states|
    requires forall j :: 0 <= j < k ==> InOrder(states[j], steps[j])
    ensures Complete(states[k], user)
  {
    if k > 0 {
      InOrderIsComplete(states, steps, k - 1, user);
      var p, h := states[k - 1], steps[k - 1];
      assert states[k - 1 + 1] == Happens(p, h) && CanHappen(p, h) && InOrder(p, h);
      hide Of, Users;
      match h
      case Connected(c) => AnnounceKeepsComplete(p.(clients := p.clients[c.id := c]), Online(c.userId), user);
      case Disconnected(id) =>
        if id in p.clients {
          AnnounceKeepsComplete(p.(clients := p.clients - {id}), Offline(p.clients[id].userId), user);
        }
      case Dropped(id) =>
      case Announced(i) => SendKeepsComplete(p, i, user);
    }
  }

  /** Main result: without drops, when no announcement overtakes an earlier one about the same
      user, what a subscriber received followed by what is still to be sent tells exactly who is
      connected; so with nothing left to send the subscriber knows the snapshot. */
  lemma InOrderGivesSnapshot(states: seq<Presences>, steps: seq<Happening>, k: nat)
    requires Course(states, steps) && NoDrops(steps) && k < |states|
    requires forall j :: 0 <= j < k ==> InOrder(states[j], steps[j])
    ensures Fold(states[k].received + states[k].todo) == Users(states[k].clients)
    ensures states[k].todo == [] ==> Fold(states[k].received) == Users(states[k].clients)
  {
    var p := states[k];
    MadeIsFaithful(states, steps, k);
    forall user ensures user in Fold(p.received + p.todo) <==> user in Fold(p.made) {
      InOrderIsComplete(states, steps, k, user);
      OfConcat(p.received, p.todo, user);
      FoldIsLast(p.received + p.todo, user);
      FoldIsLast(p.made, user);
    }
    assert p.todo == [] ==> p.received + p.todo == p.received;
  }

  // ---------------------------------------------------------------- overtaking

  lemma WithoutKeepsOthers(log: seq<Event>, i: nat)
    requires i < |log|
    ensures multiset(log) == multiset(Without(log, i)) + multiset{log[i]}
  {
    SplitAt(log, i);
  }

  lemma StepLosesNothing(p: Presences, h: Happening)
    requires CanHappen(p, h) && multiset(p.received) + multiset(p.todo) == multiset(p.made)
    ensures var q := Happens(p, h); multiset(q.received) + multiset(q.todo) == multiset(q.made)
  {
    hide Users, Without;
    if h.Announced? {
      WithoutKeepsOthers(p.todo, h.i);
    }
  }

  /** In any order, sending loses nothing. */
  lemma {:induction false} NothingIsLost(states: seq<Presences>, steps: seq<Happening>, k: nat)
    requires Course(states, steps) && k < |states|
    ensures multiset(states[k].received) + multiset(states[k].todo) == multiset(states[k].made)
  {
    if k > 0 {
      hide Happens, CanHappen;
      NothingIsLost(states, steps, k - 1);
      assert states[k - 1 + 1] == Happens(states[k - 1], steps[k - 1]) && CanHappen(states[k - 1], steps[k - 1]);
      StepLosesNothing(states[k - 1], steps[k - 1]);
    }
  }

  lemma {:induction false} HasEventOf(log: seq<Event>, user: Id)
    ensures LastOf(log, user).Some? <==> exists e :: e in log && e.user == user
    ensures LastOf(log, user).Some? ==> LastOf(log, user).value.user == user
  {
    if log != [] {
      var init, last := log[..|log| - 1], log[|log| - 1];
      HasEventOf(init, user);
      OfSnoc(init, last, user);
      assert log == init + [last];
      hide Of;
    }
  }

  lemma SameEvents(a: seq<Event>, b: seq<Event>, user: Id)
    requires multiset(a) == multiset(b)
    ensures LastOf(a, user).Some? <==> LastOf(b, user).Some?
  {
    HasEventOf(a, user);
    HasEventOf(b, user);
    hide LastOf;
    forall e ensures e in a <==> e in b {
      assert e in multiset(a) <==> e in multiset(b);
    }
  }

  /** Main result: once everything is sent, in whatever order, a subscriber is right about a
      user exactly when the announcement about them received last is of the kind decided last. */
  lemma RightAboutUserIff(states: seq<Presences>, steps: seq<Happening>, k: nat, user: Id)
    requires Course(states, steps) && NoDrops(steps) && k < |states| && states[k].todo == []
    ensures (user in Fold(states[k].received) <==> user in Users(states[k].clients))
       <==> LastOf(states[k].received, user) == LastOf(states[k].made, user)
  {
    var p := states[k];
    MadeIsFaithful(states, steps, k);
    NothingIsLost(states, steps, k);
    FoldIsLast(p.received, user);
    FoldIsLast(p.made, user);
    HasEventOf(p.received, user);
    HasEventOf(p.made, user);
    SameEvents(p.received, p.made, user);
    hide LastOf, Fold, Users;
  }

  function LateSteps(c: Client, d: Client): seq<Happening> {
    [Connected(c), Announced(0), Disconnected(c.id), Connected(d), Announced(1), Announced(0)]
  }

  function LateStates(c: Client, d: Client): seq<Presences> {
    var on, off := Online(c.userId), Offline(c.userId);
    [Presences(map[], [], [], []),
     Presences(map[c.id := c], [on], [on], []),
     Presences(map[c.id := c], [on], [], [on]),
     Presences(map[], [on, off], [off], [on]),
     Presences(map[d.id := d], [on, off, on], [off, on], [on]),
     Presences(map[d.id := d], [on, off, on], [off], [on, on]),
     Presences(map[d.id := d], [on, off, on], [], [on, on, off])]
  }

  lemma LateFirst(c: Client, d: Client)
    requires c.userId == d.userId && c.id != d.id
    ensures forall k :: 0 <= k < 3 ==>
      CanHappen(LateStates(c, d)[k], LateSteps(c, d)[k])
      && Happens(LateStates(c, d)[k], LateSteps(c, d)[k]) == LateStates(c, d)[k + 1]
  {
    var on := Online(c.userId);
    OneUser(c);
    assert Users(map[]) == {};
    hide Users;
    assert map[][c.id := c] == map[c.id := c] && map[c.id := c] - {c.id} == map[];
    assert Without([on], 0) == [];
  }

  lemma LateRest(c: Client, d: Client)
    requires c.userId == d.userId && c.id != d.id
    ensures forall k :: 3 <= k < 6 ==>
      CanHappen(LateStates(c, d)[k], LateSteps(c, d)[k])
      && Happens(LateStates(c, d)[k], LateSteps(c, d)[k]) == LateStates(c, d)[k + 1]
  {
    var on, off := Online(c.userId), Offline(c.userId);
    OneUser(d);
    assert Users(map[]) == {};
    hide Users;
    assert map[][d.id := d] == map[d.id := d];
    assert Without([off, on], 1) == [off] && Without([off], 0) == [];
  }

  /** Overtaking happens: the first connection goes, the second comes and is announced, and the
      pending farewell of the first is sent last.  The user is connected and shown offline. */
  lemma LateOfflineHidesUser(c: Client, d: Client) returns (states: seq<Presences>, steps: seq<Happening>)
    requires c.userId == d.userId && c.id != d.id
    ensures Course(states, steps) && NoDrops(steps)
    ensures steps == [Connected(c), Announced(0), Disconnected(c.id), Connected(d), Announced(1), Announced(0)]
    ensures var last := states[|states| - 1];
      last.todo == [] && Users(last.clients) == {c.userId} && Fold(last.received) == {}
  {
    steps := LateSteps(c, d);
    states := LateStates(c, d);
    LateFirst(c, d);
    LateRest(c, d);
    assert Users(map[]) == {};
    OneUser(d);
    OnOnOff(c.userId);
    hide Users, Fold, Happens, CanHappen;
  }

  lemma OneUser(c: Client)
    ensures Users(map[c.id := c]) == {c.userId}
  {
    assert map[c.id := c][c.id] == c;
  }

  lemma OnOnOff(user: Id)
    ensures Fold([Online(user), Online(user), Offline(user)]) == {}
  {
    var on, off := Online(user), Offline(user);
    FoldSnoc([], on);
    FoldSnoc([on], on);
    FoldSnoc([on, on], off);
    assert [on, on] + [off] == [on, on, off] && [on] + [on] == [on, on] && [] + [on] == [on];
    assert Fold([]) == {};
    hide Fold;
  }
}
