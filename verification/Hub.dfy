/** The hub of live SSE connections: who is online, and closing each connection's channel
    exactly once. */
module Hub {
  import opened Wrappers
  import opened Model
  import opened Text

  datatype Client = Client(id: Id, userId: Id, role: string, teamId: string, sid: string)

  datatype Presence = Presence(userId: Id, teamId: string, role: string)

  function PresenceOf(c: Client): Presence { Presence(c.userId, c.teamId, c.role) }

  /** The entry carries the user, the team and the role of this connection. */
  predicate Describes(p: Presence, c: Client) { p.userId == c.userId && p.teamId == c.teamId && p.role == c.role }

  /** The distinct connected users. */
  function Users(clients: map<Id, Client>): set<Id> { set id | id in clients :: clients[id].userId }

  /** One entry per connected user, taken from one of the user's connections. */
  ghost predicate SnapshotOf(clients: map<Id, Client>, out: map<Id, Presence>) {
    && out.Keys == Users(clients)
    && forall u :: u in out ==> out[u].userId == u && exists id :: id in clients && Describes(out[u], clients[id])
  }

  function TeamAsked(rawTeam: string): string { if TrimSpace(rawTeam) == "none" then "" else TrimSpace(rawTeam) }

  function OnTeam(snapshot: map<Id, Presence>, team: string): set<Id> {
    set u | u in snapshot && (team == "" || snapshot[u].teamId == team)
  }

  /** The connected users with a connection on the team. */
  function UsersOn(clients: map<Id, Client>, team: string): set<Id> {
    set id | id in clients && (team == "" || clients[id].teamId == team) :: clients[id].userId
  }

  /** A user's connections all carry the same team. */
  ghost predicate OneTeamEach(clients: map<Id, Client>) {
    forall a, b :: a in clients && b in clients && clients[a].userId == clients[b].userId ==> clients[a].teamId == clients[b].teamId
  }

  /** Then it does not matter which connection the snapshot took. */
  lemma CountedUsers(clients: map<Id, Client>, snapshot: map<Id, Presence>, team: string)
    requires SnapshotOf(clients, snapshot) && OneTeamEach(clients)
    ensures OnTeam(snapshot, team) == UsersOn(clients, team)
  {
    forall u ensures u in OnTeam(snapshot, team) <==> u in UsersOn(clients, team) {
      if u in snapshot {
        var id :| id in clients && Describes(snapshot[u], clients[id]);
        assert clients[id].userId == u;
      }
      if id :| id in clients && clients[id].userId == u && (team == "" || clients[id].teamId == team) {
        assert u in Users(clients);
        assert u in snapshot;
      }
    }
  }

  predicate Matching(c: Client, user: Id, keep: string) { c.userId == user && !(keep != "" && c.sid == keep) }

  class RealtimeHub {
    var clients: map<Id, Client>
    /** The connections whose channel has been closed. */
    var closed: set<Id>

    ghost predicate Valid()
      reads this
    {
      clients.Keys !! closed && forall id :: id in clients ==> clients[id].id == id
    }

    constructor ()
      ensures Valid() && clients == map[] && closed == {}
    {
      clients, closed := map[], {};
    }

    method Add(c: Client) returns (total: nat, firstForUser: bool)
      requires Valid() && c.id !in clients && c.id !in closed
      modifies this`clients
      ensures Valid() && clients == old(clients)[c.id := c]
      ensures total == |clients| && (firstForUser <==> c.userId !in Users(old(clients)))
    {
      firstForUser := true;
      var ids := clients.Keys;
      while ids != {}
        invariant ids <= clients.Keys && clients == old(clients)
        invariant firstForUser ==> forall id :: id in clients && id !in ids ==> clients[id].userId != c.userId
        invariant !firstForUser ==> c.userId in Users(clients)
        decreases |ids|
      {
        var id :| id in ids;
        ids := ids - {id};
        if clients[id].userId == c.userId {
          firstForUser := false;
          break;
        }
      }
      clients := clients[c.id := c];
      total := |clients|;
    }

    /** close(ch), which panics on a channel that is closed already. */
    method CloseChannel(id: Id)
      requires id !in closed
      modifies this`closed
      ensures closed == old(closed) + {id}
    {
      closed := closed + {id};
    }

    /** Only the caller that finds the connection closes its channel. */
    method Remove(id: Id) returns (info: Option<Presence>, lastForUser: bool)
      requires Valid()
      modifies this
      ensures Valid() && clients == old(clients) - {id}
      ensures closed == old(closed) + if id in old(clients) then {id} else {}
      ensures info.Some? <==> id in old(clients)
      ensures info.Some? ==> Describes(info.value, old(clients)[id])
      ensures lastForUser <==> id in old(clients) && old(clients)[id].userId !in Users(clients)
    {
      if id !in clients {
        return None, false;
      }
      var c := clients[id];
      clients := clients - {id};
      info := Some(PresenceOf(c));
      lastForUser := true;
      var ids := clients.Keys;
      while ids != {}
        invariant ids <= clients.Keys && clients == old(clients) - {id} && closed == old(closed)
        invariant lastForUser ==> forall k :: k in clients && k !in ids ==> clients[k].userId != c.userId
        invariant !lastForUser ==> c.userId in Users(clients)
        decreases |ids|
      {
        var k :| k in ids;
        ids := ids - {k};
        if clients[k].userId == c.userId {
          lastForUser := false;
          break;
        }
      }
      CloseChannel(id);
    }

    method IsOnline(rawUser: Id) returns (online: bool)
      ensures online <==> TrimSpace(rawUser) != "" && TrimSpace(rawUser) in Users(clients)
    {
      var user := TrimSpace(rawUser);
      if user == "" { return false; }
      var ids := clients.Keys;
      while ids != {}
        invariant ids <= clients.Keys
        invariant forall id :: id in clients && clients[id].userId == user ==> id in ids
        decreases ids
      {
        var id :| id in ids;
        if clients[id].userId == user { return true; }
        ids := ids - {id};
      }
      online := false;
    }

    /** One entry per connected user, taken from one of the user's connections. */
    method Snapshot() returns (out: map<Id, Presence>)
      ensures SnapshotOf(clients, out)
    {
      out := map[];
      var ids := clients.Keys;
      while ids != {}
        invariant ids <= clients.Keys
        invariant out.Keys == set id | id in clients && id !in ids :: clients[id].userId
        invariant forall u :: u in out ==> out[u].userId == u && exists id :: id in clients && Describes(out[u], clients[id])
        decreases |ids|
      {
        var id :| id in ids;
        ids := ids - {id};
        if clients[id].userId !in out {
          out := out[clients[id].userId := PresenceOf(clients[id])];
        }
      }
    }

    /** The users whose entry in a snapshot is on the team; without a team, all connected users. */
    method OnlineCount(rawTeam: string) returns (n: nat)
      ensures exists snapshot :: SnapshotOf(clients, snapshot) && n == |OnTeam(snapshot, TeamAsked(rawTeam))|
      ensures TrimSpace(rawTeam) == "" || TrimSpace(rawTeam) == "none" ==> n == |set id | id in clients :: clients[id].userId|
      ensures OneTeamEach(clients) && TrimSpace(rawTeam) != "" && TrimSpace(rawTeam) != "none" ==>
        n == |set id | id in clients && clients[id].teamId == TrimSpace(rawTeam) :: clients[id].userId|
    {
      var team := if TrimSpace(rawTeam) == "none" then "" else TrimSpace(rawTeam);
      var snapshot := Snapshot();
      var counted := OnTeam(snapshot, team);
      if team == "" {
        assert counted == snapshot.Keys == set id | id in clients :: clients[id].userId;
      }
      if OneTeamEach(clients) {
        CountedUsers(clients, snapshot, team);
        assert team != "" ==> UsersOn(clients, team) == set id | id in clients && clients[id].teamId == team :: clients[id].userId;
      }
      n := |counted|;
    }

    /** The connections of one user, but for those of the session to keep.  Nobody else's. */
    method DropUserExcept(rawUser: Id, rawKeep: string)
      requires Valid()
      modifies this
      ensures Valid()
      ensures var user, keep := TrimSpace(rawUser), TrimSpace(rawKeep);
        var gone := set id | user != "" && id in old(clients)
                        && old(clients)[id].userId == user && (keep == "" || old(clients)[id].sid != keep);
        clients == old(clients) - gone && closed == old(closed) + gone
    {
      hide TrimSpace;
      var user, keep := TrimSpace(rawUser), TrimSpace(rawKeep);
      if user == "" {
        assert clients - {} == clients && closed + {} == closed;
        return;
      }
      var ids := set id | id in clients && Matching(clients[id], user, keep);
      assert ids == set id | user != "" && id in old(clients)
                        && old(clients)[id].userId == user && (keep == "" || old(clients)[id].sid != keep);
      RemoveAll(ids);
    }

    /** The loop over the ids read before, each removed under its own lock. */
    method RemoveAll(ids: set<Id>)
      requires Valid() && ids <= clients.Keys
      modifies this
      ensures Valid() && clients == old(clients) - ids && closed == old(closed) + ids
    {
      hide Users, PresenceOf;
      var left := ids;
      while left != {}
        invariant Valid() && left <= clients.Keys
        invariant clients - left == old(clients) - ids && closed + left == old(closed) + ids
        decreases |left|
      {
        var id :| id in left;
        RemoveOneMore(clients, left, id);
        assert closed + {id} + (left - {id}) == closed + left;
        var info, last := Remove(id);
        left := left - {id};
      }
      assert clients - left == clients && closed + left == closed;
    }
  }

  lemma RemoveOneMore(clients: map<Id, Client>, ids: set<Id>, id: Id)
    requires id in ids
    ensures clients - {id} - (ids - {id}) == clients - ids
  {
  }
}
