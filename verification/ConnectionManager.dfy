/** The connection manager as it runs: the table updates, and the loops of the two fan-outs. */
module ConnectionManager {
  import opened Wrappers
  import M = ChatModel
  import opened Connections

  /** How the sockets looked at so far have been told apart. */
  ghost predicate ToldApart(seen: set<Socket>, good: set<Socket>, alive: set<Socket>,
                            sent: seq<Socket>, unauthorized: seq<Socket>, dead: seq<Socket>) {
    && NoDup(sent)
    && (forall ws :: ws in sent <==> ws in seen && ws in good && ws in alive)
    && (forall ws :: ws in unauthorized <==> ws in seen && ws !in good)
    && (forall ws :: ws in dead <==> ws in seen && ws in good && ws !in alive)
  }

  function SetOf(xs: seq<Socket>): set<Socket> {
    set x | x in xs
  }

  class ConnectionManager {
    var rooms: map<M.RoomId, seq<Socket>>
    var users: map<M.UserId, seq<Socket>>
    var contexts: map<Socket, Context>

    constructor ()
      ensures State() == Run([])
    {
      rooms := map[];
      users := map[];
      contexts := map[];
    }

    function State(): Tables
      reads this
    {
      Tables(rooms, users, contexts)
    }

    method Connect(ws: Socket, r: M.RoomId, u: M.UserId)
      modifies this
      ensures State() == Connected(old(State()), ws, r, u)
    {
      if r !in rooms {
        rooms := rooms[r := []];
      }
      rooms := rooms[r := rooms[r] + [ws]];
      contexts := contexts[ws := Context(Some(r), u)];
    }

    method ConnectUser(ws: Socket, u: M.UserId)
      modifies this
      ensures State() == UserConnected(old(State()), ws, u)
    {
      if u !in users {
        users := users[u := []];
      }
      users := users[u := users[u] + [ws]];
      contexts := contexts[ws := Context(None, u)];
    }

    method Disconnect(ws: Socket, r: M.RoomId)
      modifies this
      ensures State() == Disconnected(old(State()), ws, r)
    {
      if r in rooms && |rooms[r]| > 0 {
        rooms := rooms[r := RemoveFirst(rooms[r], ws)];
        if |rooms[r]| == 0 {
          rooms := rooms - {r};
        }
      }
      contexts := contexts - {ws};
    }

    method DisconnectUser(ws: Socket)
      modifies this
      ensures State() == UserDisconnected(old(State()), ws)
    {
      if ws !in contexts {
        return;
      }
      var u := contexts[ws].user;
      contexts := contexts - {ws};
      if u in users && |users[u]| > 0 {
        users := users[u := RemoveFirst(users[u], ws)];
        if |users[u]| == 0 {
          users := users - {u};
        }
      }
    }

    /** Unregisters one socket as what it is: its user's, or one of room r. */
    method Drop(ws: Socket, r: M.RoomId)
      requires TablesOk(State())
      requires ws in contexts ==> contexts[ws].room.None? || contexts[ws].room == Some(r)
      modifies this
      ensures State() == Dropped(old(State()), {ws})
    {
      if ws in contexts && contexts[ws].room.None? {
        UserDisconnectDrops(State(), ws);
        DisconnectUser(ws);
      } else {
        DisconnectDrops(State(), ws, r);
        Disconnect(ws, r);
      }
    }

    method DropAll(list: seq<Socket>, r: M.RoomId)
      requires TablesOk(State())
      requires forall ws :: ws in list && ws in contexts ==> contexts[ws].room.None? || contexts[ws].room == Some(r)
      modifies this
      ensures State() == Dropped(old(State()), SetOf(list))
    {
      ghost var before := State();
      DropNobody(before);
      assert SetOf(list[..0]) == {};
      for i := 0 to |list|
        invariant State() == Dropped(before, SetOf(list[..i]))
      {
        NextDrop(before, State(), list, i);
        assert list[i] in list;
        Drop(list[i], r);
      }
      assert list[..|list|] == list;
    }

    method DropUserSockets(list: seq<Socket>)
      requires TablesOk(State())
      requires forall ws :: ws in list && ws in contexts ==> contexts[ws].room.None?
      modifies this
      ensures State() == Dropped(old(State()), SetOf(list))
    {
      ghost var before := State();
      DropNobody(before);
      assert SetOf(list[..0]) == {};
      for i := 0 to |list|
        invariant State() == Dropped(before, SetOf(list[..i]))
      {
        NextDrop(before, State(), list, i);
        assert list[i] in list;
        UserDisconnectDrops(State(), list[i]);
        DisconnectUser(list[i]);
      }
      assert list[..|list|] == list;
    }

    static lemma NextDrop(before: Tables, t: Tables, list: seq<Socket>, i: nat)
      requires TablesOk(before) && i < |list| && t == Dropped(before, SetOf(list[..i]))
      ensures TablesOk(t)
      ensures list[i] in t.contexts ==> list[i] in before.contexts && t.contexts[list[i]] == before.contexts[list[i]]
      ensures Dropped(t, {list[i]}) == Dropped(before, SetOf(list[..i + 1]))
    {
      DroppedKeeps(before, SetOf(list[..i]));
      DroppedTwice(before, SetOf(list[..i]), {list[i]});
      OneMore(list, i);
    }

    static lemma OneMore(list: seq<Socket>, i: nat)
      requires i < |list|
      ensures SetOf(list[..i + 1]) == SetOf(list[..i]) + {list[i]}
    {
      assert list[..i + 1] == list[..i] + [list[i]];
    }

    static lemma DropNobody(t: Tables)
      requires TablesOk(t)
      ensures Dropped(t, {}) == t
    {
      forall r | r in t.rooms ensures |t.rooms[r]| > 0 { assert RoomOk(t, r); }
      forall u | u in t.users ensures |t.users[u]| > 0 { assert UserOk(t, u); }
      ListsUntouched(t.rooms, {});
      ListsUntouched(t.users, {});
    }

    /** One pass over a list of sockets, none of them seen before. */
    method SendTo(list: seq<Socket>, good: set<Socket>, alive: set<Socket>, ghost seen: set<Socket>,
                  sentBefore: seq<Socket>, unauthorizedBefore: seq<Socket>, deadBefore: seq<Socket>)
      returns (sent: seq<Socket>, unauthorized: seq<Socket>, dead: seq<Socket>)
      requires NoDup(list) && ToldApart(seen, good, alive, sentBefore, unauthorizedBefore, deadBefore)
      requires forall ws :: ws in list ==> ws !in seen
      ensures ToldApart(seen + SetOf(list), good, alive, sent, unauthorized, dead)
    {
      sent, unauthorized, dead := sentBefore, unauthorizedBefore, deadBefore;
      for i := 0 to |list|
        invariant ToldApart(seen + SetOf(list[..i]), good, alive, sent, unauthorized, dead)
      {
        var ws := list[i];
        assert ws !in list[..i] && ws in list;
        OneMore(list, i);
        if ws !in good {
          unauthorized := unauthorized + [ws];
        } else if ws in alive {
          sent := sent + [ws];
        } else {
          dead := dead + [ws];
        }
      }
      assert list[..|list|] == list;
    }

    /** The sockets whose token, and whose user's access to room r, are in order. */
    function Authorized(w: World, r: M.RoomId): set<Socket>
      reads this
    {
      set ws | ws in contexts && MayHear(State(), w, r, ws)
    }

    method FanoutRoom(r: M.RoomId, w: World) returns (sent: seq<Socket>)
      requires TablesOk(State())
      modifies this
      ensures NoDup(sent) && SetOf(sent) == RoomHearers(old(State()), w, r)
      ensures forall ws :: ws in sent <==>
                && ws in old(contexts) && (old(contexts)[ws].room == Some(r) || old(contexts)[ws].room == None)
                && ws in w.valid && (r, old(contexts)[ws].user) in w.access && ws in w.alive
      ensures State() == AfterRoomEvent(old(State()), w, r)
    {
      ghost var t := State();
      var good := Authorized(w, r);
      var unauthorized, dead: seq<Socket>;
      ghost var seen := SetOf(ListOf(rooms, r));
      if r in rooms { assert RoomOk(t, r); }
      sent, unauthorized, dead := SendTo(ListOf(rooms, r), good, w.alive, {}, [], [], []);
      var todo := users.Keys;
      ghost var done: set<M.UserId> := {};
      while todo != {}
        invariant State() == t && done + todo == users.Keys && done !! todo
        invariant seen == SetOf(ListOf(rooms, r)) + SocketsOf(t, done)
        invariant ToldApart(seen, good, w.alive, sent, unauthorized, dead)
        decreases todo
      {
        var u :| u in todo;
        NotSeen(t, r, done, u);
        sent, unauthorized, dead := SendTo(users[u], good, w.alive, seen, sent, unauthorized, dead);
        todo := todo - {u};
        done := done + {u};
        seen := seen + SetOf(users[u]);
      }
      assert seen == Audience(t, r);
      AudienceIsOurs(t, r);
      assert RoomHearers(t, w, r) == SetOf(sent);
      forall ws ensures ws in sent <==> ws in RoomHearers(t, w, r) { assert ws in sent <==> ws in SetOf(sent); }
      forall ws { HearsIff(t, w, r, ws); }
      assert SetOf(unauthorized) + SetOf(dead) == Audience(t, r) - RoomHearers(t, w, r);
      DropAll(unauthorized, r);
      DroppedKeeps(t, SetOf(unauthorized));
      DropAll(dead, r);
      DroppedTwice(t, SetOf(unauthorized), SetOf(dead));
    }

    static ghost function SocketsOf(t: Tables, us: set<M.UserId>): set<Socket>
      requires us <= t.users.Keys
    {
      set u, ws | u in us && ws in t.users[u] :: ws
    }

    static lemma NotSeen(t: Tables, r: M.RoomId, done: set<M.UserId>, u: M.UserId)
      requires TablesOk(t) && done <= t.users.Keys && u in t.users && u !in done
      ensures NoDup(t.users[u])
      ensures forall ws :: ws in t.users[u] ==> ws !in SetOf(ListOf(t.rooms, r)) + SocketsOf(t, done)
      ensures SocketsOf(t, done + {u}) == SocketsOf(t, done) + SetOf(t.users[u])
    {
      assert UserOk(t, u);
      if r in t.rooms { assert RoomOk(t, r); }
      forall v | v in done ensures forall ws :: ws in t.users[v] ==> ws !in t.users[u] {
        assert UserOk(t, v);
      }
    }

    static lemma AudienceIsOurs(t: Tables, r: M.RoomId)
      requires TablesOk(t)
      ensures forall ws :: ws in Audience(t, r) ==>
                ws in t.contexts && (t.contexts[ws].room.None? || t.contexts[ws].room == Some(r))
    {
      if r in t.rooms { assert RoomOk(t, r); }
      forall u | u in t.users ensures forall ws :: ws in t.users[u] ==> ws in t.contexts && t.contexts[ws].room.None? {
        assert UserOk(t, u);
      }
    }

    method FanoutUser(u: M.UserId, w: World) returns (sent: seq<Socket>)
      requires TablesOk(State())
      modifies this
      ensures NoDup(sent) && SetOf(sent) == UserHearers(old(State()), w, u)
      ensures forall ws :: ws in sent <==>
                ws in old(contexts) && old(contexts)[ws] == Context(None, u) && ws in w.valid && ws in w.alive
      ensures State() == AfterUserEvent(old(State()), w, u)
    {
      ghost var t := State();
      var list := ListOf(users, u);
      if u in users { assert UserOk(t, u); }
      var unauthorized, dead: seq<Socket>;
      sent, unauthorized, dead := SendTo(list, w.valid, w.alive, {}, [], [], []);
      assert SetOf(sent) == UserHearers(t, w, u);
      forall ws ensures ws in sent <==> ws in UserHearers(t, w, u) { assert ws in sent <==> ws in SetOf(sent); }
      forall ws { UserHearsIff(t, w, u, ws); }
      assert SetOf(unauthorized) + SetOf(dead) == SetOf(list) - UserHearers(t, w, u);
      assert (set ws | ws in ListOf(t.users, u)) == SetOf(list);
      DropUserSockets(unauthorized);
      DroppedKeeps(t, SetOf(unauthorized));
      DropUserSockets(dead);
      DroppedTwice(t, SetOf(unauthorized), SetOf(dead));
    }
  }
}
