/**
 The connection tables of one process: which sockets listen to which room or user, and what a
 fan-out of one event does to them.
 */
module Connections {
  import opened Wrappers
  import M = ChatModel

  type Socket = nat

  /** room is None for a socket that listens to its user's own events. */
  datatype Context = Context(room: Option<M.RoomId>, user: M.UserId)

  datatype Tables = Tables(
    rooms: map<M.RoomId, seq<Socket>>,
    users: map<M.UserId, seq<Socket>>,
    contexts: map<Socket, Context>)

  /** How token checks, room access checks and writes to sockets come out during one fan-out. */
  datatype World = World(valid: set<Socket>, access: set<M.Pair>, alive: set<Socket>)

  // ---------- lists ----------

  /** The list without its first ws, as list.remove does. */
  function RemoveFirst(xs: seq<Socket>, ws: Socket): seq<Socket> {
    if |xs| == 0 then []
    else if xs[0] == ws then xs[1..]
    else [xs[0]] + RemoveFirst(xs[1..], ws)
  }

  function Kept(xs: seq<Socket>, gone: set<Socket>): (ys: seq<Socket>)
    ensures forall x :: x in ys <==> x in xs && x !in gone
    ensures NoDup(xs) ==> NoDup(ys)
  {
    if |xs| == 0 then []
    else
      var rest := Kept(xs[1..], gone);
      assert xs == [xs[0]] + xs[1..];
      assert NoDup(xs) ==> xs[0] !in xs[1..];
      assert forall i :: 0 <= i < |rest| ==> rest[i] in rest;
      if xs[0] in gone then rest else [xs[0]] + rest
  }

  lemma {:induction false} RemoveFirstIsKept(xs: seq<Socket>, ws: Socket)
    requires NoDup(xs)
    ensures RemoveFirst(xs, ws) == Kept(xs, {ws})
  {
    if |xs| == 0 {
    } else if xs[0] == ws {
      assert ws !in xs[1..];
      KeptAll(xs[1..], {ws});
    } else {
      RemoveFirstIsKept(xs[1..], ws);
    }
  }

  lemma {:induction false} KeptAll(xs: seq<Socket>, gone: set<Socket>)
    requires forall x :: x in xs ==> x !in gone
    ensures Kept(xs, gone) == xs
  {
    if |xs| == 0 {
    } else {
      assert xs == [xs[0]] + xs[1..];
      assert xs[0] in xs;
      KeptAll(xs[1..], gone);
    }
  }

  lemma {:induction false} KeptTwice(xs: seq<Socket>, a: set<Socket>, b: set<Socket>)
    ensures Kept(Kept(xs, a), b) == Kept(xs, a + b)
  {
    if |xs| == 0 {
    } else {
      KeptTwice(xs[1..], a, b);
      if xs[0] !in a {
        assert ([xs[0]] + Kept(xs[1..], a))[1..] == Kept(xs[1..], a);
      }
    }
  }

  // ---------- the four table changes ----------

  function ListOf<K>(m: map<K, seq<Socket>>, k: K): seq<Socket> {
    if k in m then m[k] else []
  }

  /** An entry is popped when its list becomes empty. */
  function WithList<K>(m: map<K, seq<Socket>>, k: K, xs: seq<Socket>): map<K, seq<Socket>> {
    if |xs| == 0 then m - {k} else m[k := xs]
  }

  function Connected(t: Tables, ws: Socket, r: M.RoomId, u: M.UserId): Tables {
    t.(rooms := t.rooms[r := ListOf(t.rooms, r) + [ws]], contexts := t.contexts[ws := Context(Some(r), u)])
  }

  function UserConnected(t: Tables, ws: Socket, u: M.UserId): Tables {
    t.(users := t.users[u := ListOf(t.users, u) + [ws]], contexts := t.contexts[ws := Context(None, u)])
  }

  function Disconnected(t: Tables, ws: Socket, r: M.RoomId): Tables {
    t.(rooms := if |ListOf(t.rooms, r)| == 0 then t.rooms else WithList(t.rooms, r, RemoveFirst(t.rooms[r], ws)),
       contexts := t.contexts - {ws})
  }

  function UserDisconnected(t: Tables, ws: Socket): Tables {
    if ws !in t.contexts then t
    else
      var u := t.contexts[ws].user;
      t.(users := if |ListOf(t.users, u)| == 0 then t.users else WithList(t.users, u, RemoveFirst(t.users[u], ws)),
         contexts := t.contexts - {ws})
  }

  // ---------- consistency ----------

  ghost predicate RoomsOk(t: Tables) {
    forall r :: r in t.rooms ==> RoomOk(t, r)
  }

  ghost predicate RoomOk(t: Tables, r: M.RoomId)
    requires r in t.rooms
  {
    && |t.rooms[r]| > 0 && NoDup(t.rooms[r])
    && forall ws :: ws in t.rooms[r] ==> ws in t.contexts && t.contexts[ws].room == Some(r)
  }

  ghost predicate UsersOk(t: Tables) {
    forall u :: u in t.users ==> UserOk(t, u)
  }

  ghost predicate UserOk(t: Tables, u: M.UserId)
    requires u in t.users
  {
    && |t.users[u]| > 0 && NoDup(t.users[u])
    && forall ws :: ws in t.users[u] ==> ws in t.contexts && t.contexts[ws] == Context(None, u)
  }

  ghost predicate Listed(t: Tables, ws: Socket)
    requires ws in t.contexts
  {
    match t.contexts[ws].room
    case Some(r) => r in t.rooms && ws in t.rooms[r]
    case None => t.contexts[ws].user in t.users && ws in t.users[t.contexts[ws].user]
  }

  /** Every socket is in exactly one list, the one its context names, once; no list is empty. */
  ghost predicate TablesOk(t: Tables) {
    RoomsOk(t) && UsersOk(t) && forall ws :: ws in t.contexts ==> Listed(t, ws)
  }

  lemma ConnectKeeps(t: Tables, ws: Socket, r: M.RoomId, u: M.UserId)
    requires TablesOk(t) && ws !in t.contexts
    ensures TablesOk(Connected(t, ws, r, u))
  {
    var t' := Connected(t, ws, r, u);
    assert r in t.rooms ==> RoomOk(t, r);
    forall q | q in t'.rooms ensures RoomOk(t', q) {
      if q != r { assert RoomOk(t, q); }
    }
    forall v | v in t'.users ensures UserOk(t', v) {
      assert UserOk(t, v);
    }
    assert ws in t'.rooms[r] by { assert t'.rooms[r][|t'.rooms[r]| - 1] == ws; }
    forall x | x in t'.contexts ensures Listed(t', x) {
      if x != ws { assert Listed(t, x); }
    }
  }

  lemma UserConnectKeeps(t: Tables, ws: Socket, u: M.UserId)
    requires TablesOk(t) && ws !in t.contexts
    ensures TablesOk(UserConnected(t, ws, u))
  {
    var t' := UserConnected(t, ws, u);
    assert u in t.users ==> UserOk(t, u);
    forall q | q in t'.rooms ensures RoomOk(t', q) {
      assert RoomOk(t, q);
    }
    forall v | v in t'.users ensures UserOk(t', v) {
      if v != u { assert UserOk(t, v); }
    }
    assert ws in t'.users[u] by { assert t'.users[u][|t'.users[u]| - 1] == ws; }
    forall x | x in t'.contexts ensures Listed(t', x) {
      if x != ws { assert Listed(t, x); }
    }
  }

  /** A connect registers the socket, last in its room's list, and leaves every other list and context as it is. */
  lemma ConnectRegisters(t: Tables, ws: Socket, r: M.RoomId, u: M.UserId)
    ensures var t' := Connected(t, ws, r, u);
            && ws in t'.contexts && t'.contexts[ws] == Context(Some(r), u)
            && r in t'.rooms && t'.rooms[r] == (if r in t.rooms then t.rooms[r] else []) + [ws]
            && t'.users == t.users && t'.rooms - {r} == t.rooms - {r} && t'.contexts - {ws} == t.contexts - {ws}
  {
  }

  lemma UserConnectRegisters(t: Tables, ws: Socket, u: M.UserId)
    ensures var t' := UserConnected(t, ws, u);
            && ws in t'.contexts && t'.contexts[ws] == Context(None, u)
            && u in t'.users && t'.users[u] == (if u in t.users then t.users[u] else []) + [ws]
            && t'.rooms == t.rooms && t'.users - {u} == t.users - {u} && t'.contexts - {ws} == t.contexts - {ws}
  {
  }

  // ---------- dropping sockets ----------

  function KeptLists<K>(m: map<K, seq<Socket>>, gone: set<Socket>): map<K, seq<Socket>> {
    map k | k in m && |Kept(m[k], gone)| > 0 :: Kept(m[k], gone)
  }

  /** The tables as if the sockets in gone had never connected. */
  function Dropped(t: Tables, gone: set<Socket>): Tables {
    Tables(KeptLists(t.rooms, gone), KeptLists(t.users, gone), t.contexts - gone)
  }

  lemma DroppedKeeps(t: Tables, gone: set<Socket>)
    requires TablesOk(t)
    ensures TablesOk(Dropped(t, gone))
  {
    var t' := Dropped(t, gone);
    forall r | r in t'.rooms ensures RoomOk(t', r) {
      assert RoomOk(t, r);
    }
    forall u | u in t'.users ensures UserOk(t', u) {
      assert UserOk(t, u);
    }
    forall ws | ws in t'.contexts ensures Listed(t', ws) {
      assert Listed(t, ws);
    }
  }

  lemma KeptListsTwice<K>(m: map<K, seq<Socket>>, a: set<Socket>, b: set<Socket>)
    ensures KeptLists(KeptLists(m, a), b) == KeptLists(m, a + b)
  {
    forall k | k in m
      ensures Kept(Kept(m[k], a), b) == Kept(m[k], a + b)
      ensures |Kept(m[k], a)| == 0 ==> |Kept(m[k], a + b)| == 0
    {
      KeptTwice(m[k], a, b);
    }
  }

  lemma DroppedTwice(t: Tables, a: set<Socket>, b: set<Socket>)
    ensures Dropped(Dropped(t, a), b) == Dropped(t, a + b)
  {
    KeptListsTwice(t.rooms, a, b);
    KeptListsTwice(t.users, a, b);
  }

  lemma ListsUntouched<K>(m: map<K, seq<Socket>>, gone: set<Socket>)
    requires forall k :: k in m ==> |m[k]| > 0 && forall ws :: ws in m[k] ==> ws !in gone
    ensures KeptLists(m, gone) == m
  {
    forall k | k in m ensures Kept(m[k], gone) == m[k] {
      KeptAll(m[k], gone);
    }
  }

  /** Only list k can hold ws, and it holds it once. */
  lemma OneListTouched<K>(m: map<K, seq<Socket>>, k: K, ws: Socket)
    requires k in m && NoDup(m[k])
    requires forall j :: j in m ==> |m[j]| > 0 && (j != k ==> ws !in m[j])
    ensures KeptLists(m, {ws}) == WithList(m, k, RemoveFirst(m[k], ws))
  {
    RemoveFirstIsKept(m[k], ws);
    forall j | j in m && j != k ensures Kept(m[j], {ws}) == m[j] {
      KeptAll(m[j], {ws});
    }
  }

  lemma InRoomList(t: Tables, ws: Socket, r: M.RoomId)
    requires RoomsOk(t) && forall q :: q in t.rooms && ws in t.rooms[q] ==> q == r
    ensures KeptLists(t.rooms, {ws}) ==
            if |ListOf(t.rooms, r)| == 0 then t.rooms else WithList(t.rooms, r, RemoveFirst(t.rooms[r], ws))
  {
    forall q | q in t.rooms ensures |t.rooms[q]| > 0 && NoDup(t.rooms[q]) {
      assert RoomOk(t, q);
    }
    if r in t.rooms {
      OneListTouched(t.rooms, r, ws);
    } else {
      ListsUntouched(t.rooms, {ws});
    }
  }

  lemma DisconnectDrops(t: Tables, ws: Socket, r: M.RoomId)
    requires TablesOk(t) && (ws in t.contexts ==> t.contexts[ws].room == Some(r))
    ensures Disconnected(t, ws, r) == Dropped(t, {ws})
  {
    NotInUsers(t, ws);
    forall q | q in t.rooms && ws in t.rooms[q] ensures q == r {
      assert RoomOk(t, q);
    }
    InRoomList(t, ws, r);
  }

  lemma NotInRooms(t: Tables, ws: Socket)
    requires TablesOk(t) && (ws in t.contexts ==> t.contexts[ws].room.None?)
    ensures KeptLists(t.rooms, {ws}) == t.rooms
  {
    forall q | q in t.rooms ensures |t.rooms[q]| > 0 && ws !in t.rooms[q] {
      assert RoomOk(t, q);
    }
    ListsUntouched(t.rooms, {ws});
  }

  lemma NotInUsers(t: Tables, ws: Socket)
    requires TablesOk(t) && (ws in t.contexts ==> t.contexts[ws].room.Some?)
    ensures KeptLists(t.users, {ws}) == t.users
  {
    forall u | u in t.users ensures |t.users[u]| > 0 && ws !in t.users[u] {
      assert UserOk(t, u);
    }
    ListsUntouched(t.users, {ws});
  }

  lemma InOwnList(t: Tables, ws: Socket)
    requires TablesOk(t) && ws in t.contexts && t.contexts[ws].room.None?
    ensures var u := t.contexts[ws].user;
            && u in t.users && |t.users[u]| > 0
            && KeptLists(t.users, {ws}) == WithList(t.users, u, RemoveFirst(t.users[u], ws))
  {
    var u := t.contexts[ws].user;
    assert Listed(t, ws);
    forall v | v in t.users ensures |t.users[v]| > 0 && NoDup(t.users[v]) && (v != u ==> ws !in t.users[v]) {
      assert UserOk(t, v);
    }
    OneListTouched(t.users, u, ws);
  }

  lemma UserDisconnectDrops(t: Tables, ws: Socket)
    requires TablesOk(t) && (ws in t.contexts ==> t.contexts[ws].room.None?)
    ensures UserDisconnected(t, ws) == Dropped(t, {ws})
  {
    NotInRooms(t, ws);
    if ws in t.contexts {
      InOwnList(t, ws);
    } else {
      NotInUsers(t, ws);
    }
  }

  /** Disconnecting a socket under a room keeps the tables consistent exactly if that is the socket's room. */
  lemma DisconnectKeepsIff(t: Tables, ws: Socket, r: M.RoomId)
    requires TablesOk(t)
    ensures TablesOk(Disconnected(t, ws, r)) <==> (ws in t.contexts ==> t.contexts[ws].room == Some(r))
  {
    if ws in t.contexts && t.contexts[ws].room != Some(r) {
      var t' := Disconnected(t, ws, r);
      assert Listed(t, ws);
      match t.contexts[ws].room {
        case Some(q) => assert ws in t'.rooms[q] && !RoomOk(t', q);
        case None => assert !UserOk(t', t.contexts[ws].user);
      }
    } else {
      DisconnectDrops(t, ws, r);
      DroppedKeeps(t, {ws});
    }
  }

  lemma UserDisconnectKeepsIff(t: Tables, ws: Socket)
    requires TablesOk(t)
    ensures TablesOk(UserDisconnected(t, ws)) <==> (ws in t.contexts ==> t.contexts[ws].room.None?)
  {
    if ws in t.contexts && t.contexts[ws].room.Some? {
      var t' := UserDisconnected(t, ws);
      assert Listed(t, ws);
      assert !RoomOk(t', t.contexts[ws].room.value);
    } else {
      UserDisconnectDrops(t, ws);
      DroppedKeeps(t, {ws});
    }
  }

  lemma {:induction false} KeptAppended(xs: seq<Socket>, ws: Socket, gone: set<Socket>)
    requires ws in gone
    ensures Kept(xs + [ws], gone) == Kept(xs, gone)
  {
    if |xs| == 0 {
    } else {
      KeptAppended(xs[1..], ws, gone);
      assert (xs + [ws])[1..] == xs[1..] + [ws];
    }
  }

  lemma KeptListsAppended<K>(m: map<K, seq<Socket>>, k: K, ws: Socket, gone: set<Socket>)
    requires ws in gone
    ensures KeptLists(m[k := ListOf(m, k) + [ws]], gone) == KeptLists(m, gone)
  {
    KeptAppended(ListOf(m, k), ws, gone);
  }

  /** A socket that was in no list before leaves no trace in the lists once it is dropped. */
  lemma ListsAsIfNeverThere<K>(m: map<K, seq<Socket>>, k: K, ws: Socket, gone: set<Socket>)
    requires forall j :: j in m ==> ws !in m[j]
    ensures KeptLists(KeptLists(m[k := ListOf(m, k) + [ws]], gone), {ws}) == KeptLists(m, gone)
    ensures KeptLists(KeptLists(m, gone), {ws}) == KeptLists(m, gone)
  {
    KeptListsTwice(m[k := ListOf(m, k) + [ws]], gone, {ws});
    KeptListsAppended(m, k, ws, gone + {ws});
    ListsUntouched(KeptLists(m, gone), {ws});
    KeptListsTwice(m, gone, {ws});
  }

  lemma NowhereListed(t: Tables, ws: Socket)
    requires TablesOk(t) && ws !in t.contexts
    ensures forall q :: q in t.rooms ==> ws !in t.rooms[q]
    ensures forall u :: u in t.users ==> ws !in t.users[u]
  {
    forall q | q in t.rooms ensures ws !in t.rooms[q] { assert RoomOk(t, q); }
    forall u | u in t.users ensures ws !in t.users[u] { assert UserOk(t, u); }
  }

  lemma ContextsAsIfNeverThere(contexts: map<Socket, Context>, ws: Socket, c: Context, gone: set<Socket>)
    requires ws !in contexts
    ensures contexts[ws := c] - gone - {ws} == contexts - gone
  {
  }

  /**
   A connection of a room's socket leaves nothing behind: whoever was unregistered while it lasted,
   its own socket included, the tables after the disconnect are as if it had never been there.
   */
  lemma ConnectThenDisconnect(t: Tables, ws: Socket, r: M.RoomId, u: M.UserId, gone: set<Socket>)
    requires TablesOk(t) && ws !in t.contexts
    ensures Disconnected(Dropped(Connected(t, ws, r, u), gone), ws, r) == Dropped(t, gone)
  {
    assert Disconnected(Dropped(Connected(t, ws, r, u), gone), ws, r) ==
           Dropped(Dropped(Connected(t, ws, r, u), gone), {ws}) by {
      ConnectKeeps(t, ws, r, u);
      DroppedKeeps(Connected(t, ws, r, u), gone);
      DisconnectDrops(Dropped(Connected(t, ws, r, u), gone), ws, r);
    }
    NowhereListed(t, ws);
    ListsAsIfNeverThere(t.rooms, r, ws, gone);
    ListsAsIfNeverThere(t.users, u, ws, gone);
    ContextsAsIfNeverThere(t.contexts, ws, Context(Some(r), u), gone);
  }

  lemma UserConnectThenDisconnect(t: Tables, ws: Socket, u: M.UserId, gone: set<Socket>)
    requires TablesOk(t) && ws !in t.contexts
    ensures UserDisconnected(Dropped(UserConnected(t, ws, u), gone), ws) == Dropped(t, gone)
  {
    assert UserDisconnected(Dropped(UserConnected(t, ws, u), gone), ws) ==
           Dropped(Dropped(UserConnected(t, ws, u), gone), {ws}) by {
      UserConnectKeeps(t, ws, u);
      DroppedKeeps(UserConnected(t, ws, u), gone);
      UserDisconnectDrops(Dropped(UserConnected(t, ws, u), gone), ws);
    }
    NowhereListed(t, ws);
    ListsAsIfNeverThere(t.rooms, 0, ws, gone);
    ListsAsIfNeverThere(t.users, u, ws, gone);
    ContextsAsIfNeverThere(t.contexts, ws, Context(None, u), gone);
  }

  // ---------- fan-out ----------

  function UserSockets(t: Tables): set<Socket> {
    set u, ws | u in t.users && ws in t.users[u] :: ws
  }

  /** Everybody a room event looks at: the room's sockets and every user-level socket. */
  function Audience(t: Tables, r: M.RoomId): set<Socket> {
    (set ws | ws in ListOf(t.rooms, r)) + UserSockets(t)
  }

  predicate MayHear(t: Tables, w: World, r: M.RoomId, ws: Socket) {
    ws in t.contexts && ws in w.valid && (r, t.contexts[ws].user) in w.access
  }

  function RoomHearers(t: Tables, w: World, r: M.RoomId): set<Socket> {
    set ws | ws in Audience(t, r) && MayHear(t, w, r, ws) && ws in w.alive
  }

  function UserHearers(t: Tables, w: World, u: M.UserId): set<Socket> {
    set ws | ws in ListOf(t.users, u) && ws in w.valid && ws in w.alive
  }

  /** A room event unregisters everybody it looked at and did not reach. */
  function AfterRoomEvent(t: Tables, w: World, r: M.RoomId): Tables {
    Dropped(t, Audience(t, r) - RoomHearers(t, w, r))
  }

  function AfterUserEvent(t: Tables, w: World, u: M.UserId): Tables {
    Dropped(t, (set ws | ws in ListOf(t.users, u)) - UserHearers(t, w, u))
  }

  /** Other rooms keep their sockets, whatever an event in room r unregisters. */
  lemma OtherRoomsUntouched(t: Tables, w: World, r: M.RoomId, q: M.RoomId)
    requires TablesOk(t) && q != r
    ensures var t' := AfterRoomEvent(t, w, r);
            (q in t'.rooms <==> q in t.rooms) && (q in t.rooms ==> t'.rooms[q] == t.rooms[q])
  {
    if q in t.rooms {
      assert RoomOk(t, q);
      forall ws | ws in t.rooms[q] ensures ws !in Audience(t, r) {
        if r in t.rooms { assert RoomOk(t, r); }
        forall u | u in t.users ensures ws !in t.users[u] { assert UserOk(t, u); }
      }
      KeptAll(t.rooms[q], Audience(t, r) - RoomHearers(t, w, r));
    }
  }

  /**
   A registered socket stays after a room event exactly if it belongs to another room or could hear
   the event. A user-level socket in perfect order is dropped for not having access to the room.
   */
  lemma StaysIff(t: Tables, w: World, r: M.RoomId, ws: Socket)
    requires TablesOk(t) && ws in t.contexts
    ensures ws in AfterRoomEvent(t, w, r).contexts <==>
            || (t.contexts[ws].room.Some? && t.contexts[ws].room != Some(r))
            || (ws in w.valid && (r, t.contexts[ws].user) in w.access && ws in w.alive)
  {
    assert Listed(t, ws);
    if r in t.rooms { assert RoomOk(t, r); }
    forall u | u in t.users && ws in t.users[u] ensures t.contexts[ws] == Context(None, u) { assert UserOk(t, u); }
  }

  /**
   Somebody hears an event of room r exactly through a live socket with a valid token, listed for the
   room or for its user, and with access to the room.
   */
  lemma HearsIff(t: Tables, w: World, r: M.RoomId, ws: Socket)
    requires TablesOk(t)
    ensures ws in RoomHearers(t, w, r) <==>
            && ws in t.contexts && (t.contexts[ws].room == Some(r) || t.contexts[ws].room == None)
            && ws in w.valid && (r, t.contexts[ws].user) in w.access && ws in w.alive
  {
    if ws in t.contexts { assert Listed(t, ws); }
    if r in t.rooms { assert RoomOk(t, r); }
    forall u | u in t.users && ws in t.users[u] ensures ws in t.contexts && t.contexts[ws] == Context(None, u) {
      assert UserOk(t, u);
    }
  }

  /** A user's own event is heard exactly through their live user-level sockets with valid tokens. */
  lemma UserHearsIff(t: Tables, w: World, u: M.UserId, ws: Socket)
    requires TablesOk(t)
    ensures ws in UserHearers(t, w, u) <==>
            ws in t.contexts && t.contexts[ws] == Context(None, u) && ws in w.valid && ws in w.alive
  {
    if ws in t.contexts { assert Listed(t, ws); }
    if u in t.users { assert UserOk(t, u); }
  }

  /** After a user's own event exactly those of their user-level sockets stay that heard it; no other goes. */
  lemma UserStaysIff(t: Tables, w: World, u: M.UserId, ws: Socket)
    requires TablesOk(t) && ws in t.contexts
    ensures ws in AfterUserEvent(t, w, u).contexts <==>
            t.contexts[ws] != Context(None, u) || (ws in w.valid && ws in w.alive)
  {
    assert Listed(t, ws);
    if u in t.users { assert UserOk(t, u); }
  }

  /** A socket that stays keeps its context, and its place in a list. */
  lemma StayersAreListed(t: Tables, gone: set<Socket>, ws: Socket)
    requires TablesOk(t) && ws in t.contexts && ws !in gone
    ensures var t' := Dropped(t, gone);
            ws in t'.contexts && t'.contexts[ws] == t.contexts[ws] && Listed(t', ws)
  {
    DroppedKeeps(t, gone);
    assert Listed(Dropped(t, gone), ws);
  }

  // ---------- runs ----------

  datatype Op =
    | Connect(socket: Socket, room: M.RoomId, user: M.UserId)
    | ConnectUser(socket: Socket, user: M.UserId)
    | Disconnect(socket: Socket, room: M.RoomId)
    | DisconnectUser(socket: Socket)
    | RoomEvent(room: M.RoomId, world: World)
    | UserEvent(user: M.UserId, world: World)

  function Step(t: Tables, op: Op): Tables {
    match op
    case Connect(ws, r, u) => Connected(t, ws, r, u)
    case ConnectUser(ws, u) => UserConnected(t, ws, u)
    case Disconnect(ws, r) => Disconnected(t, ws, r)
    case DisconnectUser(ws) => UserDisconnected(t, ws)
    case RoomEvent(r, w) => AfterRoomEvent(t, w, r)
    case UserEvent(u, w) => AfterUserEvent(t, w, u)
  }

  function Run(ops: seq<Op>): Tables {
    if |ops| == 0 then Tables(map[], map[], map[]) else Step(Run(ops[..|ops| - 1]), ops[|ops| - 1])
  }

  /** A socket is connected once, and a handler disconnects it as what it connected it. */
  ghost predicate Proper(t: Tables, op: Op) {
    match op
    case Connect(ws, _, _) => ws !in t.contexts
    case ConnectUser(ws, _) => ws !in t.contexts
    case Disconnect(ws, r) => ws in t.contexts ==> t.contexts[ws].room == Some(r)
    case DisconnectUser(ws) => ws in t.contexts ==> t.contexts[ws].room.None?
    case _ => true
  }

  ghost predicate AllProper(ops: seq<Op>) {
    |ops| == 0 || (AllProper(ops[..|ops| - 1]) && Proper(Run(ops[..|ops| - 1]), ops[|ops| - 1]))
  }

  lemma {:induction false} RunKeepsTables(ops: seq<Op>)
    requires AllProper(ops)
    ensures TablesOk(Run(ops))
  {
    if |ops| == 0 {
    } else {
      var t := Run(ops[..|ops| - 1]);
      RunKeepsTables(ops[..|ops| - 1]);
      match ops[|ops| - 1]
      case Connect(ws, r, u) => ConnectKeeps(t, ws, r, u);
      case ConnectUser(ws, u) => UserConnectKeeps(t, ws, u);
      case Disconnect(ws, r) => DisconnectKeepsIff(t, ws, r);
      case DisconnectUser(ws) => UserDisconnectKeepsIff(t, ws);
      case RoomEvent(r, w) => DroppedKeeps(t, Audience(t, r) - RoomHearers(t, w, r));
      case UserEvent(u, w) => DroppedKeeps(t, (set ws | ws in ListOf(t.users, u)) - UserHearers(t, w, u));
    }
  }
}
