/**
 The services as they run: methods that change the stored collections step by step. Each method is
 proved to leave exactly the state that ChatModel gives for its operation.
 */
module ChatService {
  import opened Wrappers
  import opened ChatModel
  import opened ChatInvariants

  class UnreadCounterService {
    var rows: map<Pair, int>

    constructor ()
      ensures rows == map[]
    {
      rows := map[];
    }

    /** Bumps every member but the sender; raises after the updates the faults allow. */
    method IncrementForNewMessage(room: Room, r: RoomId, sender: UserId, f: SendFaults) returns (ok: bool)
      requires NoDup(MemberIds(room))
      modifies this
      ensures rows == Incremented(old(rows), r, Reached(room, sender, f))
      ensures ok == !(f.increments.Some? && Recipients(room, sender) != [])
    {
      var to := Recipients(room, sender);
      var stop := match f.increments case None => |to| case Some(n) => if n < |to| then n else |to|;
      assert to[..|to|] == to;
      for i := 0 to stop
        invariant rows == Incremented(old(rows), r, Users(to[..i]))
      {
        OneMoreUser(to, i);
        IncrementOneMore(old(rows), r, Users(to[..i]), to[i]);
        Bump(r, to[i]);
      }
      return f.increments.None? || to == [];
    }

    /** The upserting $inc of one row. */
    method Bump(r: RoomId, u: UserId)
      modifies this
      ensures rows == old(rows)[(r, u) := CounterOf(old(rows), (r, u)) + 1]
    {
      rows := rows[(r, u) := CounterOf(rows, (r, u)) + 1];
    }

    method Decrement(r: RoomId, u: UserId, amount: int)
      modifies this
      ensures rows == if amount <= 0 then old(rows) else Decremented(old(rows), r, {u}, amount)
    {
      if amount <= 0 {
        return;
      }
      if (r, u) in rows {
        rows := rows[(r, u) := Max0(rows[(r, u)] - amount)];
      }
    }

    method SetExactly(r: RoomId, u: UserId, n: int)
      modifies this
      ensures rows == SetExact(old(rows), (r, u), n)
    {
      rows := rows[(r, u) := Max0(n)];
    }

    method RemoveForRoom(r: RoomId)
      modifies this
      ensures rows == ForgetRoom(old(rows), r)
    {
      rows := map k | k in rows && k.0 != r :: rows[k];
    }

    method RemoveForRoomUser(r: RoomId, u: UserId)
      modifies this
      ensures rows == old(rows) - {(r, u)}
    {
      rows := rows - {(r, u)};
    }
  }

  lemma OneMoreUser(us: seq<UserId>, i: nat)
    requires i < |us| && NoDup(us)
    ensures Users(us[..i + 1]) == Users(us[..i]) + {us[i]} && us[i] !in Users(us[..i])
  {
    assert us[..i + 1] == us[..i] + [us[i]];
  }

  lemma IncrementOneMore(counters: map<Pair, int>, r: RoomId, us: set<UserId>, u: UserId)
    requires u !in us
    ensures var before := Incremented(counters, r, us);
      Incremented(counters, r, us + {u}) == before[(r, u) := CounterOf(before, (r, u)) + 1]
  {
  }

  /** Lowering one more user's row. */
  lemma DecrementOneMore(counters: map<Pair, int>, r: RoomId, us: set<UserId>, u: UserId)
    requires u !in us
    ensures Decremented(Decremented(counters, r, us, 1), r, {u}, 1) == Decremented(counters, r, us + {u}, 1)
  {
  }

  /** A send whose insert raises, or whose preview update does, gets no further. */
  lemma SendStopsEarly(s: Chat, r: RoomId, sender: UserId, voice: bool, body: Body, f: SendFaults)
    requires r in s.rooms && s.nextId !in s.messages && (f.insert.Raised? || !f.previewOk)
    ensures SendEncrypted(s, r, sender, voice, body, f) ==
            Outcome(s.(nextId := s.nextId + 1,
                       messages := if f.insert.TookEffect()
                                   then s.messages[s.nextId := NewMessage(r, sender, voice, body)]
                                   else s.messages),
                    Failed)
  {
    assert s.messages - {s.nextId} == s.messages;
  }

  /** One that gets further is indexed and counted, or rolled back. */
  lemma SendGoesOn(s: Chat, r: RoomId, sender: UserId, voice: bool, body: Body, f: SendFaults)
    requires r in s.rooms && s.nextId !in s.messages && f.insert.Returned? && f.previewOk
    ensures var m, some := s.nextId, Recipients(s.rooms[r], sender) != [];
            var stored := s.messages[m := NewMessage(r, sender, voice, body)];
            SendEncrypted(s, r, sender, voice, body, f) ==
            Outcome(s.(nextId := m + 1,
                       messages := if RollsBack(f, some) && f.drop.TookEffect() then stored - {m} else stored,
                       counters := if CountsReached(f) then Incremented(s.counters, r, Reached(s.rooms[r], sender, f))
                                   else s.counters,
                       index := if Unindexes(f, some) then s.index - {m}
                                else if Indexes(f) then s.index[m := body.text] else s.index,
                       pending := if LeavesJob(f, some)
                                  then Queued(s.pending, s.finished + s.dead, MessageCleanup(m)) else s.pending),
                    if Succeeds(f, some) then Done else Failed)
  {
    var m := s.nextId;
    assert s.messages[m := NewMessage(r, sender, voice, body)] - {m} == s.messages - {m};
  }

  /** The rows are already what a reconciliation makes of them. */
  ghost predicate Exact(s: Chat) {
    && s.counters.Keys == ValidPairs(s.rooms)
    && forall k :: k in s.counters ==> s.counters[k] == TrueUnread(s.messages, k.0, k.1)
  }

  class ChatServices {
    const unread: UnreadCounterService
    var users: set<UserId>
    var nextId: nat
    var rooms: map<RoomId, Room>
    var messages: map<MessageId, Message>
    var access: map<Pair, bool>
    var index: map<MessageId, string>
    var pending: set<Cleanup>
    var finished: set<Cleanup>
    var dead: set<Cleanup>

    ghost function State(): Chat
      reads this, unread
    {
      Chat(users, nextId, rooms, messages, unread.rows, access, index, pending, finished, dead)
    }

    /** Kept by every operation: see ChatInvariants.StepKeeps. */
    ghost predicate Valid()
      reads this, unread
    {
      Core(State()) && JobsOk(State())
    }

    constructor (users: set<UserId>)
      ensures Valid() && fresh(unread)
      ensures State() == Init(users)
    {
      unread := new UnreadCounterService();
      this.users := users;
      nextId := 0;
      rooms, messages, access, index := map[], map[], map[], map[];
      pending, finished, dead := {}, {}, {};
    }

    // ---------- access ----------

    method CheckAccess(r: RoomId, u: UserId) returns (reply: Reply)
      modifies this`access
      ensures Outcome(State(), reply) == GetForUser(old(State()), r, u)
    {
      if r !in rooms {
        return Refused(404);
      }
      if (r, u) in access {
        return if access[(r, u)] then Done else Refused(403);
      }
      var allowed := Allowed(rooms[r], u);
      access := access[(r, u) := allowed];
      return if allowed then Done else Refused(403);
    }

    // ---------- sending ----------

    method EnqueueJob(c: Cleanup)
      modifies this`pending
      ensures pending == Queued(old(pending), finished + dead, c)
    {
      if !exists j :: j in pending + (finished + dead) && j.SameKey(c) {
        pending := pending + {c};
      } else {
        assert exists j :: j in pending + (finished + dead) && j.SameKey(c);
      }
    }

    method RollBackSend(m: MessageId, f: SendFaults)
      modifies this`messages, this`index, this`pending
      ensures messages == if f.drop.TookEffect() then old(messages) - {m} else old(messages)
      ensures index == if f.drop.Returned? && f.unindex.TookEffect() then old(index) - {m} else old(index)
      ensures pending == if f.drop.Returned? && f.unindex.Raised? && f.enqueueOk
                         then Queued(old(pending), finished + dead, MessageCleanup(m)) else old(pending)
    {
      if f.drop.TookEffect() {
        messages := messages - {m};
      }
      if f.drop.Raised? {
        return;
      }
      if f.unindex.TookEffect() {
        index := index - {m};
      }
      if f.unindex.Raised? && f.enqueueOk {
        EnqueueJob(MessageCleanup(m));
      }
    }

    /** The stored message m is indexed and counted; a failure of either rolls the send back. */
    method IndexAndCount(r: RoomId, sender: UserId, m: MessageId, text: string, f: SendFaults) returns (ok: bool)
      requires r in rooms && NoDup(MemberIds(rooms[r])) && f.insert.Returned? && f.previewOk
      modifies this`messages, this`index, this`pending, unread
      ensures ok == Succeeds(f, Recipients(rooms[r], sender) != [])
      ensures messages == if RollsBack(f, Recipients(rooms[r], sender) != []) && f.drop.TookEffect()
                          then old(messages) - {m} else old(messages)
      ensures unread.rows == if CountsReached(f) then Incremented(old(unread.rows), r, Reached(rooms[r], sender, f))
                             else old(unread.rows)
      ensures index == if Unindexes(f, Recipients(rooms[r], sender) != []) then old(index) - {m}
                       else if Indexes(f) then old(index)[m := text] else old(index)
      ensures pending == if LeavesJob(f, Recipients(rooms[r], sender) != [])
                         then Queued(old(pending), finished + dead, MessageCleanup(m)) else old(pending)
    {
      if f.index.TookEffect() {
        index := index[m := text];
      }
      assert index - {m} == old(index) - {m};
      ok := false;
      if f.index.Returned? {
        ok := unread.IncrementForNewMessage(rooms[r], r, sender, f);
      }
      if !ok {
        RollBackSend(m, f);
      }
    }

    /** The message under a new id, and the room's preview; says whether both calls returned. */
    method StoreMessage(r: RoomId, sender: UserId, voice: bool, body: Body, f: SendFaults)
      returns (m: MessageId, ok: bool)
      modifies this`nextId, this`messages
      ensures m == old(nextId) && nextId == m + 1 && ok == (f.insert.Returned? && f.previewOk)
      ensures messages == if f.insert.TookEffect() then old(messages)[m := NewMessage(r, sender, voice, body)]
                          else old(messages)
    {
      m := nextId;
      nextId := nextId + 1;
      if f.insert.TookEffect() {
        messages := messages[m := NewMessage(r, sender, voice, body)];
      }
      ok := f.insert.Returned? && f.previewOk;
    }

    method SendStored(r: RoomId, sender: UserId, voice: bool, body: Body, f: SendFaults) returns (reply: Reply)
      requires r in rooms && NoDup(MemberIds(rooms[r])) && nextId !in messages
      modifies this, unread
      ensures Outcome(State(), reply) == SendEncrypted(old(State()), r, sender, voice, body, f)
    {
      var m, stored := StoreMessage(r, sender, voice, body, f);
      if !stored {
        SendStopsEarly(old(State()), r, sender, voice, body, f);
        return Failed;
      }
      SendGoesOn(old(State()), r, sender, voice, body, f);
      var ok := IndexAndCount(r, sender, m, body.text, f);
      return if ok then Done else Failed;
    }

    method Send(r: RoomId, sender: UserId, voice: bool, body: Body, f: SendFaults) returns (reply: Reply)
      requires Valid()
      modifies this, unread
      ensures Outcome(State(), reply) == SendMessage(old(State()), r, sender, voice, body, f)
    {
      GetForUserKeeps(State(), r, sender);
      reply := CheckAccess(r, sender);
      if reply != Done {
        return;
      }
      if sender !in users {
        return Refused(404);
      }
      reply := SendStored(r, sender, voice, body, f);
    }

    method CheckSourceRooms(rs: seq<RoomId>, u: UserId) returns (reply: Reply)
      modifies this`access
      ensures Outcome(State(), reply) == CheckRooms(old(State()), rs, u)
    {
      reply := Done;
      for i := 0 to |rs|
        invariant Outcome(State(), reply) == CheckRooms(old(State()), rs[..i], u)
        invariant reply == Done
      {
        assert rs[..i + 1][..i] == rs[..i];
        reply := CheckAccess(rs[i], u);
        if reply != Done {
          StopsChecking(old(State()), rs, i + 1, u);
          return;
        }
      }
      assert rs[..|rs|] == rs;
    }

    method Forward(target: RoomId, u: UserId, ids: seq<MessageId>, fs: seq<SendFaults>) returns (reply: Reply)
      requires Valid()
      modifies this, unread
      ensures Outcome(State(), reply) == ForwardMessages(old(State()), target, u, ids, fs)
    {
      GetForUserKeeps(State(), target, u);
      reply := CheckAccess(target, u);
      if reply != Done {
        return;
      }
      if u !in users {
        return Refused(404);
      }
      if exists i :: 0 <= i < |ids| && ids[i] !in messages {
        return Refused(404);
      }
      var sources := Lookup(messages, ids);
      CheckRoomsKeeps(State(), RoomsOf(sources), u);
      reply := CheckSourceRooms(RoomsOf(sources), u);
      if reply != Done {
        return;
      }
      if exists i :: 0 <= i < |sources| && sources[i].isDeleted {
        return Refused(422);
      }
      ForwardCopies(target, u, sources, fs);
      return Done;
    }

    method ForwardCopies(target: RoomId, u: UserId, sources: seq<Message>, fs: seq<SendFaults>)
      requires Core(State()) && target in rooms
      modifies this, unread
      ensures State() == ForwardAll(old(State()), target, u, sources, fs)
    {
      for i := 0 to |sources|
        invariant State() == ForwardAll(old(State()), target, u, sources[..i], fs)
      {
        ForwardKeeps(old(State()), target, u, sources[..i], fs);
        assert sources[..i + 1][..i] == sources[..i];
        var f := FaultsAt(fs, i);
        var sent := SendStored(target, u, sources[i].voice, Body(sources[i].body.text, [], None), f);
      }
      assert sources[..|sources|] == sources;
    }

    // ---------- editing, reading, deleting ----------

    method EditMessage(m: MessageId, u: UserId, body: Body, f: EditFaults) returns (reply: Reply)
      modifies this
      ensures Outcome(State(), reply) == Edit(old(State()), m, u, body, f)
    {
      if m !in messages {
        return Refused(404);
      }
      var msg := messages[m];
      if msg.sender != u {
        return Refused(403);
      }
      if msg.isDeleted {
        return Refused(400);
      }
      if msg.voice {
        return Refused(422);
      }
      reply := CheckAccess(msg.room, u);
      if reply != Done {
        return;
      }
      reply := SaveEdit(m, body, f);
    }

    method SaveEdit(m: MessageId, body: Body, f: EditFaults) returns (reply: Reply)
      requires m in messages
      modifies this`messages, this`index
      ensures Outcome(State(), reply) == EditStored(old(State()), m, body, f)
    {
      var previous := messages[m];
      assert messages == messages[m := previous.(body := previous.body)];
      if f.save.TookEffect() {
        messages := messages[m := previous.(body := body)];
      }
      if f.save.Raised? {
        return Failed;
      }
      if f.index.TookEffect() {
        index := index[m := body.text];
      }
      if f.index.Returned? {
        return Done;
      }
      if f.restore.TookEffect() {
        messages := messages[m := previous];
      }
      if f.restore.Raised? {
        return Failed;
      }
      if f.reindex.TookEffect() {
        index := index[m := previous.body.text];
      }
      return Failed;
    }

    method MarkMessageRead(m: MessageId, u: UserId) returns (reply: Reply)
      modifies this, unread
      ensures Outcome(State(), reply) == MarkRead(old(State()), m, u)
    {
      if m !in messages {
        return Refused(404);
      }
      var msg := messages[m];
      reply := CheckAccess(msg.room, u);
      if reply != Done {
        return;
      }
      if u !in users {
        return Refused(404);
      }
      if !msg.isDeleted && msg.sender != u && u !in msg.readBy {
        messages := messages[m := msg.(readBy := msg.readBy + {u})];
        unread.Decrement(msg.room, u, 1);
      }
      return Done;
    }

    /** Also returns how many messages were marked. */
    method MarkAllRead(r: RoomId, u: UserId) returns (reply: Reply, marked: nat)
      requires Valid()
      modifies this, unread
      ensures Outcome(State(), reply) == MarkRoomRead(old(State()), r, u)
      ensures marked == if reply == Done then TrueUnread(old(messages), r, u) else 0
      ensures reply == Done ==> TrueUnread(messages, r, u) == 0
    {
      marked := 0;
      reply := CheckAccess(r, u);
      if reply != Done {
        return;
      }
      if u !in users {
        return Refused(404), 0;
      }
      marked := ReadEverything(r, u);
      return Done, marked;
    }

    method ReadEverything(r: RoomId, u: UserId) returns (marked: nat)
      requires RowsOk(State())
      modifies this`messages, unread
      ensures messages == AllRead(old(messages), r, u) && marked == TrueUnread(old(messages), r, u)
      ensures unread.rows == Decremented(old(unread.rows), r, {u}, marked)
      ensures TrueUnread(messages, r, u) == 0
    {
      marked := TrueUnread(messages, r, u);
      messages := AllRead(messages, r, u);
      assert UnreadIds(messages, r, u) == {};
      if marked != 0 {
        unread.Decrement(r, u, marked);
      } else {
        DecrementByNothing(unread.rows, r, u);
      }
    }

    method DeleteMessage(m: MessageId, u: UserId, unindex: CallResult) returns (reply: Reply)
      requires Valid()
      modifies this, unread
      ensures Outcome(State(), reply) == Delete(old(State()), m, u, unindex)
    {
      if m !in messages {
        return Refused(404);
      }
      var msg := messages[m];
      if msg.sender != u {
        return Refused(403);
      }
      if !msg.isDeleted {
        if msg.room in rooms {
          LowerUnreadMembers(rooms[msg.room], msg);
        }
        messages := messages[m := msg.(isDeleted := true)];
      }
      if unindex.TookEffect() {
        index := index - {m};
      }
      if unindex.Raised? {
        return Failed;
      }
      EnqueueJob(MessageCleanup(m));
      return if msg.isDeleted then Failed else Done;
    }

    method LowerUnreadMembers(room: Room, msg: Message)
      requires NoDup(MemberIds(room))
      modifies unread
      ensures unread.rows == Decremented(old(unread.rows), msg.room, UnreadMembers(room, msg), 1)
    {
      var ids := MemberIds(room);
      ghost var done := {};
      for i := 0 to |ids|
        invariant done == set u | u in ids[..i] && u != msg.sender && u !in msg.readBy
        invariant unread.rows == Decremented(old(unread.rows), msg.room, done, 1)
      {
        assert ids[..i + 1] == ids[..i] + [ids[i]];
        if ids[i] == msg.sender || ids[i] in msg.readBy {
          continue;
        }
        unread.Decrement(msg.room, ids[i], 1);
        DecrementOneMore(old(unread.rows), msg.room, done, ids[i]);
        done := done + {ids[i]};
      }
      assert ids[..|ids|] == ids;
    }

    // ---------- rooms ----------

    method NewGroup(creator: UserId, others: seq<UserId>) returns (reply: Reply)
      modifies this
      ensures Outcome(State(), reply) == CreateGroup(old(State()), creator, others)
    {
      if creator !in users {
        return Refused(401);
      }
      var members := Dedupe([creator] + others);
      if exists u :: u in members && u !in users {
        return Refused(400);
      }
      rooms := rooms[nextId := Room(true, members, creator, [], None)];
      nextId := nextId + 1;
      return Done;
    }

    method AddGroupMember(r: RoomId, u: UserId, actor: UserId) returns (reply: Reply)
      modifies this, unread
      ensures Outcome(State(), reply) == AddMember(old(State()), r, u, actor)
    {
      if r !in rooms {
        return Refused(404);
      }
      if !rooms[r].isGroup {
        return Refused(400);
      }
      if !IsAdmin(rooms[r], actor) {
        return Refused(403);
      }
      if u !in users {
        return Refused(400);
      }
      Admit(r, u);
      return Done;
    }

    method Admit(r: RoomId, u: UserId)
      requires r in rooms
      modifies this`rooms, this`access, unread
      ensures State() == Joined(old(State()), r, u)
    {
      rooms := rooms[r := rooms[r].(members := AddToSet(rooms[r].members, u))];
      access := ForgetRoom(access, r);
      var count := TrueUnread(messages, r, u);
      unread.SetExactly(r, u, count);
    }

    method Expel(r: RoomId, u: UserId)
      requires r in rooms
      modifies this`rooms, this`access, unread
      ensures State() == Removed(old(State()), r, u)
    {
      var room := rooms[r];
      rooms := rooms[r := room.(members := Without(room.members, u), admins := Without(room.admins, u))];
      access := ForgetRoom(access, r);
      unread.RemoveForRoomUser(r, u);
    }

    method RemoveGroupMember(r: RoomId, u: UserId, actor: UserId) returns (reply: Reply)
      modifies this, unread
      ensures Outcome(State(), reply) == RemoveMember(old(State()), r, u, actor)
    {
      if r !in rooms {
        return Refused(404);
      }
      if !rooms[r].isGroup {
        return Refused(400);
      }
      if !IsAdmin(rooms[r], actor) {
        return Refused(403);
      }
      if u == rooms[r].createdBy {
        return Refused(400);
      }
      if u !in users {
        return Refused(400);
      }
      Expel(r, u);
      return Done;
    }

    method LeaveGroup(r: RoomId, u: UserId) returns (reply: Reply)
      modifies this, unread
      ensures Outcome(State(), reply) == Leave(old(State()), r, u)
    {
      if r !in rooms {
        return Refused(404);
      }
      if !rooms[r].isGroup {
        return Refused(400);
      }
      if u == rooms[r].createdBy {
        return Refused(400);
      }
      reply := CheckAccess(r, u);
      if reply != Done {
        return;
      }
      if u !in users {
        return Refused(401);
      }
      Expel(r, u);
      return Done;
    }

    method JoinGroup(r: RoomId, token: Token, u: UserId) returns (reply: Reply)
      modifies this, unread
      ensures Outcome(State(), reply) == JoinByInvite(old(State()), r, token, u)
    {
      if r !in rooms || rooms[r].invite != Some(token) {
        return Refused(404);
      }
      if !rooms[r].isGroup {
        return Refused(400);
      }
      if u in rooms[r].members {
        return Done;
      }
      if u !in users {
        return Refused(401);
      }
      Admit(r, u);
      return Done;
    }

    method PromoteAdmin(r: RoomId, u: UserId, actor: UserId) returns (reply: Reply)
      modifies this
      ensures Outcome(State(), reply) == Promote(old(State()), r, u, actor)
    {
      if r !in rooms {
        return Refused(404);
      }
      if !rooms[r].isGroup {
        return Refused(400);
      }
      if rooms[r].createdBy != actor {
        return Refused(403);
      }
      if u == actor {
        return Done;
      }
      if u !in rooms[r].members {
        return Refused(400);
      }
      if u !in users {
        return Refused(401);
      }
      rooms := rooms[r := rooms[r].(admins := AddToSet(rooms[r].admins, u))];
      return Done;
    }

    method DemoteAdmin(r: RoomId, u: UserId, actor: UserId) returns (reply: Reply)
      modifies this
      ensures Outcome(State(), reply) == Demote(old(State()), r, u, actor)
    {
      if r !in rooms {
        return Refused(404);
      }
      if !rooms[r].isGroup {
        return Refused(400);
      }
      if rooms[r].createdBy != actor {
        return Refused(403);
      }
      if u == actor {
        return Refused(400);
      }
      if u !in users {
        return Refused(401);
      }
      rooms := rooms[r := rooms[r].(admins := Without(rooms[r].admins, u))];
      return Done;
    }

    method NewInvite(r: RoomId, actor: UserId, token: Token) returns (reply: Reply)
      modifies this
      ensures Outcome(State(), reply) == CreateInvite(old(State()), r, actor, token)
    {
      if r !in rooms {
        return Refused(404);
      }
      if !rooms[r].isGroup {
        return Refused(400);
      }
      if !IsAdmin(rooms[r], actor) {
        return Refused(403);
      }
      if rooms[r].invite.Some? {
        return Done;
      }
      if actor !in users {
        return Refused(401);
      }
      rooms := rooms[r := rooms[r].(invite := Some(token))];
      return Done;
    }

    method DropInvite(r: RoomId, actor: UserId) returns (reply: Reply)
      modifies this
      ensures Outcome(State(), reply) == RevokeInvite(old(State()), r, actor)
    {
      if r !in rooms {
        return Refused(404);
      }
      if !rooms[r].isGroup {
        return Refused(400);
      }
      if !IsAdmin(rooms[r], actor) {
        return Refused(403);
      }
      rooms := rooms[r := rooms[r].(invite := None)];
      return Done;
    }

    method OpenDirectRoom(creator: UserId, other: UserId) returns (reply: Reply)
      modifies this
      ensures Outcome(State(), reply) == OpenDm(old(State()), creator, other)
    {
      if other == creator {
        return Refused(400);
      }
      if creator !in users {
        return Refused(401);
      }
      if other !in users {
        return Refused(400);
      }
      if exists r :: r in rooms && IsDmOf(rooms[r], creator, other) {
        return Done;
      }
      rooms := rooms[nextId := Room(false, [creator, other], creator, [], None)];
      nextId := nextId + 1;
      return Done;
    }

    method DeleteWholeRoom(r: RoomId, actor: UserId) returns (reply: Reply)
      modifies this, unread
      ensures Outcome(State(), reply) == DeleteRoom(old(State()), r, actor)
    {
      if r !in rooms {
        return Done;
      }
      if rooms[r].createdBy != actor {
        return Refused(403);
      }
      var gone := RoomMessages(messages, r);
      rooms := rooms - {r};
      messages := messages - gone;
      unread.RemoveForRoom(r);
      EnqueueJob(RoomCleanup(r, gone));
      return Done;
    }

    // ---------- background work ----------

    /** One reconciliation: recompute every member's row, then drop the rows of nobody. */
    method RunReconciliation()
      modifies unread
      ensures State() == Reconcile(old(State())).chat
      ensures unread.rows.Keys == ValidPairs(rooms)
      ensures forall k :: k in unread.rows ==> unread.rows[k] == TrueUnread(messages, k.0, k.1)
      ensures Exact(old(State())) ==> unread.rows == old(unread.rows)
    {
      var validPairs := RecomputeAllRooms();
      DropStaleRows(validPairs);
      assert Reconcile(old(State())).chat == State();
    }

    method RecomputeAllRooms() returns (validPairs: set<Pair>)
      modifies unread
      ensures validPairs == ValidPairs(rooms)
      ensures forall k :: k in validPairs ==> k in unread.rows && unread.rows[k] == TrueUnread(messages, k.0, k.1)
    {
      validPairs := {};
      var todo := rooms.Keys;
      while todo != {}
        invariant todo <= rooms.Keys
        invariant validPairs == PairsOutside(rooms, todo)
        invariant forall k :: k in validPairs ==> k in unread.rows && unread.rows[k] == TrueUnread(messages, k.0, k.1)
      {
        var r :| r in todo;
        PairsOfOneMore(rooms, todo, r);
        validPairs := RecomputeRoom(r, validPairs);
        todo := todo - {r};
      }
    }

    method RecomputeRoom(r: RoomId, before: set<Pair>) returns (validPairs: set<Pair>)
      requires r in rooms
      modifies unread
      requires forall k :: k in before ==> k in unread.rows && unread.rows[k] == TrueUnread(messages, k.0, k.1)
      ensures validPairs == before + set u | u in MemberIds(rooms[r]) :: (r, u)
      ensures forall k :: k in validPairs ==> k in unread.rows && unread.rows[k] == TrueUnread(messages, k.0, k.1)
    {
      validPairs := before;
      var ids := MemberIds(rooms[r]);
      for i := 0 to |ids|
        invariant validPairs == before + set u | u in ids[..i] :: (r, u)
        invariant forall k :: k in validPairs ==> k in unread.rows && unread.rows[k] == TrueUnread(messages, k.0, k.1)
      {
        assert ids[..i + 1] == ids[..i] + [ids[i]];
        var count := TrueUnread(messages, r, ids[i]);
        unread.SetExactly(r, ids[i], count);
        validPairs := validPairs + {(r, ids[i])};
      }
      assert ids[..|ids|] == ids;
    }

    method DropStaleRows(validPairs: set<Pair>)
      modifies unread
      requires validPairs <= unread.rows.Keys
      ensures unread.rows == map k | k in validPairs :: old(unread.rows)[k]
    {
      var todo := unread.rows.Keys;
      while todo != {}
        invariant validPairs <= unread.rows.Keys <= validPairs + todo
        invariant todo <= unread.rows.Keys + todo
        invariant forall k :: k in unread.rows ==> k in old(unread.rows) && unread.rows[k] == old(unread.rows)[k]
      {
        var k :| k in todo;
        todo := todo - {k};
        if k in validPairs {
          continue;
        }
        unread.rows := unread.rows - {k};
      }
    }

    /** One execution of a claimed job; the call at position failAt raises, counting from the first message. */
    method ExecuteJob(c: Cleanup, ids: seq<MessageId>, failAt: Option<nat>) returns (ok: bool)
      requires forall m :: m in ids <==> m in Subjects(c)
      modifies this`index, this`access, unread
      ensures ok <==> failAt.None? || failAt.value > |ids| + (if c.RoomCleanup? then 1 else -1)
      ensures State() == Execute(old(State()), c,
                if ok then None else Some(Reach(Users(ids[..if failAt.value < |ids| then failAt.value else |ids|]),
                                                        failAt.value > |ids|)))
    {
      for i := 0 to |ids|
        invariant failAt.Some? ==> i <= failAt.value
        invariant State() == old(State()).(index := old(index) - Users(ids[..i]))
      {
        if failAt == Some(i) {
          assert Users(ids[..i]) * Subjects(c) == Users(ids[..i]);
          return false;
        }
        assert Users(ids[..i + 1]) == Users(ids[..i]) + {ids[i]};
        assert old(index) - Users(ids[..i + 1]) == old(index) - Users(ids[..i]) - {ids[i]};
        index := index - {ids[i]};
      }
      assert ids[..|ids|] == ids && Users(ids) == Subjects(c);
      if c.MessageCleanup? {
        return true;
      }
      if failAt == Some(|ids|) {
        return false;
      }
      access := ForgetRoom(access, c.room);
      if failAt == Some(|ids| + 1) {
        return false;
      }
      unread.RemoveForRoom(c.room);
      return true;
    }
  }

  /** The valid pairs of all rooms but those in todo. */
  ghost function PairsOutside(rooms: map<RoomId, Room>, todo: set<RoomId>): set<Pair> {
    set k | k in ValidPairs(rooms) && k.0 !in todo
  }

  lemma PairsOfOneMore(rooms: map<RoomId, Room>, todo: set<RoomId>, r: RoomId)
    requires r in todo && r in rooms
    ensures PairsOutside(rooms, todo - {r}) == PairsOutside(rooms, todo) + set u | u in MemberIds(rooms[r]) :: (r, u)
  {
    forall k ensures k in PairsOutside(rooms, todo - {r})
                     <==> k in PairsOutside(rooms, todo) || (k.0 == r && k.1 in MemberIds(rooms[r]))
    {
    }
  }

  lemma DecrementByNothing(counters: map<Pair, int>, r: RoomId, u: UserId)
    requires forall k :: k in counters ==> counters[k] >= 0
    ensures Decremented(counters, r, {u}, 0) == counters
  {
  }

  /** Once a room is refused, later rooms are not looked at. */
  lemma {:induction false} StopsChecking(s: Chat, rs: seq<RoomId>, n: nat, u: UserId)
    requires n <= |rs| && CheckRooms(s, rs[..n], u).reply != Done
    ensures CheckRooms(s, rs, u) == CheckRooms(s, rs[..n], u)
    decreases |rs|
  {
    if n < |rs| {
      assert rs[..|rs| - 1][..n] == rs[..n];
      StopsChecking(s, rs[..|rs| - 1], n, u);
    } else {
      assert rs[..n] == rs;
    }
  }
}
