/**
 When each request to the room and message services goes through, what refuses it, and what it then
 changes, in terms of the stored rooms, users and messages alone.
 */
module ChatAnswers {
  import opened Wrappers
  import opened ChatModel
  import opened ChatInvariants

  /** The user created the room or is one of its members. */
  predicate Belongs(room: Room, u: UserId) {
    u == room.createdBy || u in room.members
  }

  predicate MayEnter(s: Chat, r: RoomId, u: UserId) {
    r in s.rooms && Belongs(s.rooms[r], u)
  }

  /** The room is a group, and the user created it or is one of its admins. */
  predicate Leads(s: Chat, r: RoomId, u: UserId) {
    r in s.rooms && s.rooms[r].isGroup && (u == s.rooms[r].createdBy || u in s.rooms[r].admins)
  }

  /** Nobody else belongs to the room. */
  ghost predicate Alone(room: Room, u: UserId) {
    forall v :: Belongs(room, v) ==> v == u
  }

  /** Where the user u of room r had a row it is lowered by n, but not below 0; all other rows are as before. */
  ghost predicate OneRowFalls(before: map<Pair, int>, after: map<Pair, int>, r: RoomId, u: UserId, n: nat) {
    && after.Keys == before.Keys
    && forall k :: k in before ==>
         after[k] == if k != (r, u) then before[k] else if before[k] < n then 0 else before[k] - n
  }

  // ---------- access ----------

  lemma AccessIff(s: Chat, r: RoomId, u: UserId)
    requires Core(s)
    ensures var o := GetForUser(s, r, u);
            && (o.reply == Done <==> MayEnter(s, r, u))
            && (o.reply == Refused(404) <==> r !in s.rooms)
            && (o.reply == Refused(403) <==> r in s.rooms && !MayEnter(s, r, u))
            && o.chat == s.(access := o.chat.access)
  {
    GetForUserKeeps(s, r, u);
  }

  // ---------- sending ----------

  /** The message is in the room, unread by everybody else, indexed, and counted once for each of them. */
  ghost predicate Delivered(s: Chat, s': Chat, r: RoomId, u: UserId, voice: bool, body: Body)
    requires r in s.rooms
  {
    && s' == s.(nextId := s.nextId + 1, messages := s'.messages, counters := s'.counters, index := s'.index,
                access := s'.access)
    && s'.messages == s.messages[s.nextId := Message(r, u, voice, body, {u}, false)]
    && s'.index == s.index[s.nextId := body.text]
    && forall k: Pair :: CounterOf(s'.counters, k) ==
         CounterOf(s.counters, k) + (if k.0 == r && k.1 != u && Belongs(s.rooms[r], k.1) then 1 else 0)
  }

  lemma NobodyElse(room: Room, u: UserId)
    ensures Recipients(room, u) == [] <==> Alone(room, u)
    ensures forall v :: v in Recipients(room, u) <==> Belongs(room, v) && v != u
  {
    var to := Recipients(room, u);
    forall v ensures v in to <==> Belongs(room, v) && v != u {
      assert v in MemberIds(room) <==> Belongs(room, v);
    }
    if to != [] {
      assert to[0] in to;
    }
  }

  lemma SentIsDelivered(s: Chat, r: RoomId, u: UserId, voice: bool, body: Body, f: SendFaults)
    requires Core(s) && r in s.rooms
    ensures var o := SendEncrypted(s, r, u, voice, body, f);
            && (o.reply == Done || o.reply == Failed)
            && (o.reply == Done <==>
                f.insert.Returned? && f.previewOk && f.index.Returned? && (f.increments.None? || Alone(s.rooms[r], u)))
            && (o.reply == Done ==> Delivered(s, o.chat, r, u, voice, body))
  {
    NobodyElse(s.rooms[r], u);
    var o := SendEncrypted(s, r, u, voice, body, f);
    if o.reply == Done {
      var to := Recipients(s.rooms[r], u);
      assert Reached(s.rooms[r], u, f) == Users(to);
      forall k: Pair ensures CounterOf(o.chat.counters, k) ==
        CounterOf(s.counters, k) + (if k.0 == r && k.1 != u && Belongs(s.rooms[r], k.1) then 1 else 0)
      {
        assert k.1 in Users(to) <==> k.1 in to;
        assert k == (k.0, k.1);
      }
    }
  }

  /** A send goes through exactly for a known user of the room whose calls return; then it is delivered. */
  lemma SendIff(s: Chat, r: RoomId, u: UserId, voice: bool, body: Body, f: SendFaults)
    requires Core(s)
    ensures var o := SendMessage(s, r, u, voice, body, f);
            && (o.reply == Done <==>
                && MayEnter(s, r, u) && u in s.users
                && f.insert.Returned? && f.previewOk && f.index.Returned?
                && (f.increments.None? || Alone(s.rooms[r], u)))
            && (o.reply == Refused(403) <==> r in s.rooms && !MayEnter(s, r, u))
            && (o.reply == Refused(404) <==> r !in s.rooms || (MayEnter(s, r, u) && u !in s.users))
            && (o.reply == Done ==> Delivered(s, o.chat, r, u, voice, body))
  {
    AccessIff(s, r, u);
    GetForUserKeeps(s, r, u);
    if MayEnter(s, r, u) && u in s.users {
      SentIsDelivered(GetForUser(s, r, u).chat, r, u, voice, body, f);
    }
  }

  // ---------- forwarding ----------

  lemma {:induction false} CheckRoomsIff(s: Chat, rs: seq<RoomId>, u: UserId)
    requires Core(s) && forall r :: r in rs ==> r in s.rooms
    ensures CheckRooms(s, rs, u).reply == Done <==> forall r :: r in rs ==> MayEnter(s, r, u)
    ensures CheckRooms(s, rs, u).reply == Done || CheckRooms(s, rs, u).reply == Refused(403)
  {
    if |rs| != 0 {
      var n := |rs| - 1;
      CheckRoomsIff(s, rs[..n], u);
      CheckRoomsKeeps(s, rs[..n], u);
      AccessIff(CheckRooms(s, rs[..n], u).chat, rs[n], u);
      assert rs[n] in rs && forall r :: r in rs <==> r in rs[..n] || r == rs[n] by {
        assert rs == rs[..n] + [rs[n]];
      }
    }
  }

  /** The message can be forwarded by u. */
  predicate Forwardable(s: Chat, m: MessageId, u: UserId) {
    m in s.messages && !s.messages[m].isDeleted && MayEnter(s, s.messages[m].room, u)
  }

  lemma RoomsOfSources(s: Chat, ids: seq<MessageId>, u: UserId)
    requires forall i :: 0 <= i < |ids| ==> ids[i] in s.messages
    ensures (forall r :: r in RoomsOf(Lookup(s.messages, ids)) ==> MayEnter(s, r, u)) <==>
            (forall i :: 0 <= i < |ids| ==> MayEnter(s, s.messages[ids[i]].room, u))
  {
    var sources := Lookup(s.messages, ids);
    var rooms := seq(|sources|, i requires 0 <= i < |sources| => sources[i].room);
    forall i | 0 <= i < |ids| ensures rooms[i] == s.messages[ids[i]].room && rooms[i] in RoomsOf(sources) {
      assert rooms[i] in rooms;
    }
    forall r | r in RoomsOf(sources) ensures exists i :: 0 <= i < |ids| && s.messages[ids[i]].room == r {
      assert r in rooms;
    }
  }

  predicate AllStored(s: Chat, ids: seq<MessageId>) {
    forall i :: 0 <= i < |ids| ==> ids[i] in s.messages
  }

  /** u may enter the room of every source. */
  predicate AllEntered(s: Chat, ids: seq<MessageId>, u: UserId)
    requires AllStored(s, ids)
  {
    forall i :: 0 <= i < |ids| ==> MayEnter(s, s.messages[ids[i]].room, u)
  }

  lemma SourceRoomsChecked(s: Chat, ids: seq<MessageId>, u: UserId)
    requires Core(s) && AllStored(s, ids)
    ensures var reply := CheckRooms(s, RoomsOf(Lookup(s.messages, ids)), u).reply;
            (reply == Done <==> AllEntered(s, ids, u)) && (reply == Done || reply == Refused(403))
  {
    RoomsOfSources(s, ids, u);
    var rooms := RoomsOf(Lookup(s.messages, ids));
    forall r | r in rooms ensures r in s.rooms {
      assert r in seq(|ids|, i requires 0 <= i < |ids| => Lookup(s.messages, ids)[i].room);
    }
    CheckRoomsIff(s, rooms, u);
  }

  lemma ForwardWhenStored(s: Chat, target: RoomId, u: UserId, ids: seq<MessageId>, fs: seq<SendFaults>)
    requires Core(s) && MayEnter(s, target, u) && u in s.users && AllStored(s, ids)
    ensures ForwardMessages(s, target, u, ids, fs).reply ==
            if !AllEntered(s, ids, u) then Refused(403)
            else if exists i :: 0 <= i < |ids| && s.messages[ids[i]].isDeleted then Refused(422)
            else Done
  {
    AccessIff(s, target, u);
    GetForUserKeeps(s, target, u);
    SourceRoomsChecked(GetForUser(s, target, u).chat, ids, u);
    assert forall i :: 0 <= i < |ids| ==> Lookup(s.messages, ids)[i] == s.messages[ids[i]];
  }

  lemma ForwardWhenMissing(s: Chat, target: RoomId, u: UserId, ids: seq<MessageId>, fs: seq<SendFaults>)
    requires Core(s) && !(MayEnter(s, target, u) && u in s.users && AllStored(s, ids))
    ensures ForwardMessages(s, target, u, ids, fs).reply ==
            if target in s.rooms && !MayEnter(s, target, u) then Refused(403) else Refused(404)
  {
    AccessIff(s, target, u);
  }

  /**
   A forward goes through exactly for a known user who may enter the target and the room of every
   source, all of them stored and undeleted; what is missing comes first, then access, then deletion.
   */
  lemma ForwardIff(s: Chat, target: RoomId, u: UserId, ids: seq<MessageId>, fs: seq<SendFaults>)
    requires Core(s)
    ensures var reply := ForwardMessages(s, target, u, ids, fs).reply;
            && (reply == Done <==>
                MayEnter(s, target, u) && u in s.users && forall i :: 0 <= i < |ids| ==> Forwardable(s, ids[i], u))
            && (reply == Refused(404) <==>
                target !in s.rooms || (MayEnter(s, target, u) && !(u in s.users && AllStored(s, ids))))
            && (reply == Refused(403) <==>
                || (target in s.rooms && !MayEnter(s, target, u))
                || (MayEnter(s, target, u) && u in s.users && AllStored(s, ids) && !AllEntered(s, ids, u)))
            && (reply == Refused(422) <==>
                && MayEnter(s, target, u) && u in s.users && AllStored(s, ids) && AllEntered(s, ids, u)
                && exists i :: 0 <= i < |ids| && s.messages[ids[i]].isDeleted)
  {
    if MayEnter(s, target, u) && u in s.users && AllStored(s, ids) {
      ForwardWhenStored(s, target, u, ids, fs);
    } else {
      ForwardWhenMissing(s, target, u, ids, fs);
    }
  }

  /** A stored message is kept, whatever happens to its send afterwards. */
  ghost predicate Keeps(room: Room, u: UserId, f: SendFaults) {
    && f.insert.TookEffect()
    && (f.insert.Raised? || !f.previewOk || !f.drop.TookEffect()
        || (f.index.Returned? && (f.increments.None? || Alone(room, u))))
  }

  lemma CopyStored(s: Chat, r: RoomId, u: UserId, voice: bool, body: Body, f: SendFaults)
    requires Core(s) && r in s.rooms
    ensures var s' := SendEncrypted(s, r, u, voice, body, f).chat;
            && (s.nextId in s'.messages <==> Keeps(s.rooms[r], u, f))
            && (s.nextId in s'.messages ==> s'.messages[s.nextId] == Message(r, u, voice, body, {u}, false))
            && (forall m :: m != s.nextId ==> (m in s'.messages <==> m in s.messages))
            && (forall m :: m != s.nextId && m in s.messages ==> s'.messages[m] == s.messages[m])
  {
    NobodyElse(s.rooms[r], u);
  }

  /** Message m after copies of the sources were sent to room r from state t. */
  ghost predicate CopyOrSame(t: Chat, s': Chat, r: RoomId, u: UserId, sources: seq<Message>, fs: seq<SendFaults>,
                             m: MessageId)
    requires r in t.rooms
  {
    var i := m - t.nextId;
    if 0 <= i < |sources| then
      && (m in s'.messages <==> Keeps(t.rooms[r], u, FaultsAt(fs, i)))
      && (m in s'.messages ==>
            s'.messages[m] == Message(r, u, sources[i].voice, Body(sources[i].body.text, [], None), {u}, false))
    else
      && (m in s'.messages <==> m in t.messages)
      && (m in t.messages ==> s'.messages[m] == t.messages[m])
  }

  lemma {:induction false} CopiesStored(s: Chat, r: RoomId, u: UserId, sources: seq<Message>, fs: seq<SendFaults>,
                                        m: MessageId)
    requires Core(s) && r in s.rooms
    ensures ForwardAll(s, r, u, sources, fs).nextId == s.nextId + |sources|
    ensures CopyOrSame(s, ForwardAll(s, r, u, sources, fs), r, u, sources, fs, m)
  {
    if |sources| != 0 {
      var n := |sources| - 1;
      CopiesStored(s, r, u, sources[..n], fs, m);
      ForwardKeeps(s, r, u, sources[..n], fs);
      CopyStored(ForwardAll(s, r, u, sources[..n], fs), r, u, sources[n].voice, Body(sources[n].body.text, [], None),
                 FaultsAt(fs, n));
      assert 0 <= m - s.nextId < n ==> sources[..n][m - s.nextId] == sources[m - s.nextId];
    }
  }

  lemma ForwardStores(s: Chat, target: RoomId, u: UserId, ids: seq<MessageId>, fs: seq<SendFaults>, m: MessageId)
    requires Core(s) && JobsOk(s) && ForwardMessages(s, target, u, ids, fs).reply == Done
    ensures target in s.rooms && forall i :: 0 <= i < |ids| ==> ids[i] in s.messages
    ensures ForwardMessages(s, target, u, ids, fs).chat.nextId == s.nextId + |ids|
    ensures CopyOrSame(s, ForwardMessages(s, target, u, ids, fs).chat, target, u, Lookup(s.messages, ids), fs, m)
  {
    ForwardMessagesSplit(s, target, u, ids, fs);
    CheckedKeeps(s, target, u, ids);
    CopiesStored(Checked(s, target, u, ids), target, u, Lookup(s.messages, ids), fs, m);
  }

  /**
   After a forward that went through, copy i is in the target, from u, with the text and kind of
   source i, unless its own faults took it back; every earlier message is as it was.
   */
  lemma ForwardCopiesEach(s: Chat, target: RoomId, u: UserId, ids: seq<MessageId>, fs: seq<SendFaults>, i: nat)
    requires Core(s) && JobsOk(s) && ForwardMessages(s, target, u, ids, fs).reply == Done && i < |ids|
    ensures target in s.rooms && ids[i] in s.messages
    ensures var s' := ForwardMessages(s, target, u, ids, fs).chat;
            && s'.nextId == s.nextId + |ids|
            && (s.nextId + i in s'.messages <==> Keeps(s.rooms[target], u, FaultsAt(fs, i)))
            && (s.nextId + i in s'.messages ==>
                  var source := s.messages[ids[i]];
                  s'.messages[s.nextId + i] ==
                  Message(target, u, source.voice, Body(source.body.text, [], None), {u}, false))
            && (forall m :: m in s.messages ==> m in s'.messages && s'.messages[m] == s.messages[m])
  {
    ForwardStores(s, target, u, ids, fs, s.nextId + i);
    var s' := ForwardMessages(s, target, u, ids, fs).chat;
    forall m | m in s.messages ensures m in s'.messages && s'.messages[m] == s.messages[m] {
      ForwardStores(s, target, u, ids, fs, m);
    }
  }

  // ---------- editing ----------

  /**
   An edit goes through exactly for the sender of an undeleted text message who may still enter the
   room; it replaces the body, in the database and in the index, and nothing else.
   */
  lemma EditIff(s: Chat, m: MessageId, u: UserId, body: Body, f: EditFaults)
    requires Core(s)
    ensures var o := Edit(s, m, u, body, f);
            var mine := m in s.messages && s.messages[m].sender == u;
            && (o.reply == Done <==>
                && mine && !s.messages[m].isDeleted && !s.messages[m].voice && MayEnter(s, s.messages[m].room, u)
                && f.save.Returned? && f.index.Returned?)
            && (o.reply == Refused(404) <==> m !in s.messages)
            && (o.reply == Refused(400) <==> mine && s.messages[m].isDeleted)
            && (o.reply == Refused(422) <==> mine && !s.messages[m].isDeleted && s.messages[m].voice)
            && (o.reply == Done ==>
                  && o.chat == s.(messages := o.chat.messages, index := o.chat.index, access := o.chat.access)
                  && o.chat.messages == s.messages[m := s.messages[m].(body := body)]
                  && o.chat.index == s.index[m := body.text])
  {
    if m in s.messages {
      AccessIff(s, s.messages[m].room, u);
    }
  }

  // ---------- reading ----------

  /** u has not read it, did not send it, and it is not deleted. */
  predicate NewTo(msg: Message, u: UserId) {
    !msg.isDeleted && msg.sender != u && u !in msg.readBy
  }

  /** The message is read by u, and their row falls, if it was new to them. */
  ghost predicate ReadOnce(s: Chat, s': Chat, m: MessageId, u: UserId)
    requires m in s.messages
  {
    var msg := s.messages[m];
    && s'.messages == (if NewTo(msg, u) then s.messages[m := msg.(readBy := msg.readBy + {u})] else s.messages)
    && OneRowFalls(s.counters, s'.counters, msg.room, u, if NewTo(msg, u) then 1 else 0)
  }

  lemma RowFallsByOne(counters: map<Pair, int>, r: RoomId, u: UserId)
    ensures OneRowFalls(counters, Decremented(counters, r, {u}, 1), r, u, 1)
  {
  }

  lemma RowStays(s: Chat, r: RoomId, u: UserId)
    requires RowsOk(s)
    ensures OneRowFalls(s.counters, s.counters, r, u, 0)
  {
  }

  /** Marking a message read works exactly for a known user of its room; it counts once. */
  lemma MarkReadIff(s: Chat, m: MessageId, u: UserId)
    requires Core(s)
    ensures var o := MarkRead(s, m, u);
            && (o.reply == Done <==> m in s.messages && MayEnter(s, s.messages[m].room, u) && u in s.users)
            && (o.reply == Refused(403) <==> m in s.messages && !MayEnter(s, s.messages[m].room, u))
            && (o.reply == Refused(404) <==>
                m !in s.messages || (MayEnter(s, s.messages[m].room, u) && u !in s.users))
            && (o.reply == Done ==>
                  && o.chat == s.(messages := o.chat.messages, counters := o.chat.counters, access := o.chat.access)
                  && ReadOnce(s, o.chat, m, u))
  {
    if m in s.messages {
      AccessIff(s, s.messages[m].room, u);
      RowFallsByOne(s.counters, s.messages[m].room, u);
      RowStays(s, s.messages[m].room, u);
    }
  }

  /** The room's messages that are new to u. */
  function NewIn(s: Chat, r: RoomId, u: UserId): set<MessageId> {
    set m | m in s.messages && s.messages[m].room == r && NewTo(s.messages[m], u)
  }

  lemma NewAreUnread(s: Chat, r: RoomId, u: UserId)
    ensures NewIn(s, r, u) == UnreadIds(s.messages, r, u)
    ensures |NewIn(s, r, u)| == TrueUnread(s.messages, r, u)
  {
  }

  lemma AllNewRead(s: Chat, r: RoomId, u: UserId)
    ensures var after := AllRead(s.messages, r, u);
            && after.Keys == s.messages.Keys
            && forall m :: m in s.messages ==>
                 after[m] == if m in NewIn(s, r, u) then s.messages[m].(readBy := s.messages[m].readBy + {u})
                             else s.messages[m]
    ensures OneRowFalls(s.counters, Decremented(s.counters, r, {u}, TrueUnread(s.messages, r, u)), r, u,
                        |NewIn(s, r, u)|)
  {
    NewAreUnread(s, r, u);
  }

  /**
   Marking a room read works exactly for a known user of the room. Then u has read everything there
   that was new, no other message changed, and u's row fell by the number of those messages.
   */
  lemma MarkRoomReadIff(s: Chat, r: RoomId, u: UserId)
    requires Core(s)
    ensures var o := MarkRoomRead(s, r, u);
            && (o.reply == Done <==> MayEnter(s, r, u) && u in s.users)
            && (o.reply == Refused(403) <==> r in s.rooms && !MayEnter(s, r, u))
            && (o.reply == Refused(404) <==> r !in s.rooms || (MayEnter(s, r, u) && u !in s.users))
            && (o.reply == Done ==>
                  && o.chat == s.(messages := o.chat.messages, counters := o.chat.counters, access := o.chat.access)
                  && o.chat.messages.Keys == s.messages.Keys
                  && (forall m :: m in s.messages ==>
                        o.chat.messages[m] == if m in NewIn(s, r, u)
                                              then s.messages[m].(readBy := s.messages[m].readBy + {u})
                                              else s.messages[m])
                  && OneRowFalls(s.counters, o.chat.counters, r, u, |NewIn(s, r, u)|))
  {
    AccessIff(s, r, u);
    AllNewRead(s, r, u);
  }

  // ---------- deleting a message ----------

  /** The rows of those to whom the message is new fall by one, but not below 0. */
  ghost predicate RowsFall(before: map<Pair, int>, after: map<Pair, int>, msg: Message) {
    && after.Keys == before.Keys
    && forall k :: k in before ==>
         after[k] == if k.0 == msg.room && NewTo(msg, k.1) && before[k] > 0 then before[k] - 1 else before[k]
  }

  lemma UnreadRowsFall(s: Chat, msg: Message)
    requires RowsOk(s) && msg.room in s.rooms && !msg.isDeleted
    ensures RowsFall(s.counters, Decremented(s.counters, msg.room, UnreadMembers(s.rooms[msg.room], msg), 1), msg)
  {
    forall k | k in s.counters && k.0 == msg.room
      ensures k.1 in UnreadMembers(s.rooms[msg.room], msg) <==> NewTo(msg, k.1)
    {
      assert k.1 in MemberIds(s.rooms[k.0]);
    }
  }

  /** What the first delete of a message by its sender does, whatever its index call answers. */
  lemma DeleteMarks(s: Chat, m: MessageId, u: UserId, unindex: CallResult)
    requires Core(s)
    ensures var o := Delete(s, m, u, unindex);
            && (o.reply == Refused(404) <==> m !in s.messages)
            && (o.reply == Refused(403) <==> m in s.messages && s.messages[m].sender != u)
            && (m in s.messages && s.messages[m].sender == u && !s.messages[m].isDeleted ==>
                  && o.chat == s.(messages := o.chat.messages, counters := o.chat.counters, index := o.chat.index,
                                  pending := o.chat.pending)
                  && o.chat.messages == s.messages[m := s.messages[m].(isDeleted := true)]
                  && o.chat.index == (if unindex.TookEffect() then s.index - {m} else s.index)
                  && RowsFall(s.counters, o.chat.counters, s.messages[m]))
  {
    if m in s.messages && s.messages[m].sender == u && !s.messages[m].isDeleted {
      UnreadRowsFall(s, s.messages[m]);
    }
  }

  // ---------- refusals ----------

  lemma RefusedWrite(s: Chat, op: Op)
    requires Step(s, op).reply.Refused? && (op.SendOp? || op.EditOp? || op.DeleteOp?)
    ensures Step(s, op).chat == s.(access := Step(s, op).chat.access)
  {
  }

  lemma RefusedRead(s: Chat, op: Op)
    requires Step(s, op).reply.Refused? && (op.MarkReadOp? || op.MarkRoomReadOp?)
    ensures Step(s, op).chat == s.(access := Step(s, op).chat.access)
  {
  }

  /** A request that a check refuses fills the access cache at most. */
  lemma RefusedChangesNothing(s: Chat, op: Op)
    requires Step(s, op).reply.Refused?
    ensures Step(s, op).chat == s.(access := Step(s, op).chat.access)
  {
    if op.SendOp? || op.EditOp? || op.DeleteOp? {
      RefusedWrite(s, op);
    } else if op.MarkReadOp? || op.MarkRoomReadOp? {
      RefusedRead(s, op);
    } else if op.ForwardOp? {
      ForwardMessagesSplit(s, op.room, op.user, op.sources, op.itemFaults);
    }
  }
}
