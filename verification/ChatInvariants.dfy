/**
 What every operation of the chat store keeps: well-formed rooms, no dangling messages, no counter
 row of a non-member, and an access cache that agrees with membership.
 */
module ChatInvariants {
  import opened Wrappers
  import opened ChatModel

  ghost predicate RoomOk(room: Room) {
    && NoDup(room.members)
    && NoDup(room.admins)
    && room.createdBy in room.members
    && forall a :: a in room.admins ==> a in room.members
  }

  ghost predicate RoomsOk(s: Chat) {
    forall r :: r in s.rooms ==> r < s.nextId && RoomOk(s.rooms[r])
  }

  /** No message of a deleted room survives, and ids are never reused. */
  ghost predicate MessagesOk(s: Chat) {
    forall m :: m in s.messages ==> m < s.nextId && s.messages[m].room in s.rooms
  }

  /** Every counter row belongs to a member of an existing room. */
  ghost predicate RowsOk(s: Chat) {
    forall k :: k in s.counters ==> k.0 in s.rooms && k.1 in MemberIds(s.rooms[k.0]) && s.counters[k] >= 0
  }

  /** A cached answer about an existing room is the answer membership gives. */
  ghost predicate CacheOk(s: Chat) {
    forall k :: k in s.access ==> k.0 < s.nextId && (k.0 in s.rooms ==> s.access[k] == Allowed(s.rooms[k.0], k.1))
  }

  ghost predicate Core(s: Chat) {
    RoomsOk(s) && MessagesOk(s) && RowsOk(s) && CacheOk(s)
  }

  lemma GetForUserKeeps(s: Chat, r: RoomId, u: UserId)
    requires Core(s)
    ensures Core(GetForUser(s, r, u).chat)
    ensures GetForUser(s, r, u).reply == Done <==> r in s.rooms && Allowed(s.rooms[r], u)
    ensures GetForUser(s, r, u).chat == s.(access := GetForUser(s, r, u).chat.access)
  {
    var s' := GetForUser(s, r, u).chat;
    assert forall k :: k in s'.access && k !in s.access ==> k == (r, u);
  }

  lemma {:induction false} CheckRoomsKeeps(s: Chat, rs: seq<RoomId>, u: UserId)
    requires Core(s)
    ensures Core(CheckRooms(s, rs, u).chat)
  {
    if |rs| != 0 {
      CheckRoomsKeeps(s, rs[..|rs| - 1], u);
      GetForUserKeeps(CheckRooms(s, rs[..|rs| - 1], u).chat, rs[|rs| - 1], u);
    }
  }

  /** Counting for members of a room leaves rows of members only. */
  lemma IncrementKeepsRows(s: Chat, r: RoomId, us: set<UserId>)
    requires RowsOk(s) && r in s.rooms
    requires forall u :: u in us ==> u in MemberIds(s.rooms[r])
    ensures RowsOk(s.(counters := Incremented(s.counters, r, us)))
  {
  }

  lemma SendKeeps(s: Chat, r: RoomId, sender: UserId, voice: bool, body: Body, f: SendFaults)
    requires Core(s) && r in s.rooms
    ensures Core(SendEncrypted(s, r, sender, voice, body, f).chat)
  {
    var s' := SendEncrypted(s, r, sender, voice, body, f).chat;
    var reached := Reached(s.rooms[r], sender, f);
    assert forall u :: u in reached ==> u in Recipients(s.rooms[r], sender);
    IncrementKeepsRows(s, r, reached);
    assert RowsOk(s.(counters := s'.counters));
  }

  lemma {:induction false} ForwardKeeps(s: Chat, target: RoomId, u: UserId, sources: seq<Message>, fs: seq<SendFaults>)
    requires Core(s) && target in s.rooms
    ensures Core(ForwardAll(s, target, u, sources, fs))
  {
    if |sources| != 0 {
      var i := |sources| - 1;
      ForwardKeeps(s, target, u, sources[..i], fs);
      SendKeeps(ForwardAll(s, target, u, sources[..i], fs), target, u, sources[i].voice,
                Body(sources[i].body.text, [], None), FaultsAt(fs, i));
    }
  }

  lemma AddToSetKeeps(xs: seq<UserId>, x: UserId)
    requires NoDup(xs)
    ensures NoDup(AddToSet(xs, x))
    ensures forall y :: y in AddToSet(xs, x) <==> y in xs || y == x
  {
  }

  lemma JoinedKeepsRooms(s: Chat, r: RoomId, u: UserId)
    requires RoomsOk(s) && r in s.rooms
    ensures RoomsOk(Joined(s, r, u)) && Joined(s, r, u).rooms.Keys == s.rooms.Keys
  {
    AddToSetKeeps(s.rooms[r].members, u);
  }

  lemma JoinedMembers(room: Room, u: UserId, v: UserId)
    ensures v in MemberIds(room.(members := AddToSet(room.members, u))) <==> v in MemberIds(room) || v == u
  {
    if u !in room.members {
      assert (room.members + [u])[|room.members|] == u;
    }
  }

  lemma JoinedKeeps(s: Chat, r: RoomId, u: UserId)
    requires Core(s) && r in s.rooms
    ensures Core(Joined(s, r, u))
  {
    JoinedKeepsRooms(s, r, u);
    var s' := Joined(s, r, u);
    forall k | k in s'.counters
      ensures k.0 in s'.rooms && k.1 in MemberIds(s'.rooms[k.0]) && s'.counters[k] >= 0
    {
      if k.0 == r { JoinedMembers(s.rooms[r], u, k.1); }
    }
    assert MessagesOk(s');
    assert CacheOk(s') by {
      assert forall k :: k in s'.access ==> k in s.access && k.0 != r;
    }
  }

  lemma RemovedKeeps(s: Chat, r: RoomId, u: UserId)
    requires Core(s) && r in s.rooms && u != s.rooms[r].createdBy
    ensures Core(Removed(s, r, u))
  {
    var s' := Removed(s, r, u);
    assert forall r' :: r' in s'.rooms ==> r' == r || s'.rooms[r'] == s.rooms[r'];
    forall k | k in s'.counters
      ensures k.0 in s'.rooms && k.1 in MemberIds(s'.rooms[k.0]) && s'.counters[k] >= 0
    {
      assert k in s.counters && k != (r, u);
    }
  }

  lemma AddMemberKeeps(s: Chat, r: RoomId, u: UserId, actor: UserId)
    requires Core(s)
    ensures Core(AddMember(s, r, u, actor).chat)
  {
    if r in s.rooms { JoinedKeeps(s, r, u); }
  }

  lemma JoinByInviteKeeps(s: Chat, r: RoomId, token: Token, u: UserId)
    requires Core(s)
    ensures Core(JoinByInvite(s, r, token, u).chat)
  {
    if r in s.rooms { JoinedKeeps(s, r, u); }
  }

  lemma RemoveMemberKeeps(s: Chat, r: RoomId, u: UserId, actor: UserId)
    requires Core(s)
    ensures Core(RemoveMember(s, r, u, actor).chat)
  {
    if r in s.rooms && u != s.rooms[r].createdBy { RemovedKeeps(s, r, u); }
  }

  lemma LeaveKeeps(s: Chat, r: RoomId, u: UserId)
    requires Core(s)
    ensures Core(Leave(s, r, u).chat)
  {
    GetForUserKeeps(s, r, u);
    if r in s.rooms && u != s.rooms[r].createdBy { RemovedKeeps(GetForUser(s, r, u).chat, r, u); }
  }

  /** Changing only a room's invite or admins, within its members. */
  lemma RoomEditKeeps(s: Chat, r: RoomId, room: Room)
    requires Core(s) && r in s.rooms
    requires room.members == s.rooms[r].members && room.createdBy == s.rooms[r].createdBy && RoomOk(room)
    ensures Core(s.(rooms := s.rooms[r := room]))
  {
  }

  lemma PromoteKeeps(s: Chat, r: RoomId, u: UserId, actor: UserId)
    requires Core(s)
    ensures Core(Promote(s, r, u, actor).chat)
  {
    if r in s.rooms && u in s.rooms[r].members {
      AddToSetKeeps(s.rooms[r].admins, u);
      RoomEditKeeps(s, r, s.rooms[r].(admins := AddToSet(s.rooms[r].admins, u)));
    }
  }

  lemma DemoteKeeps(s: Chat, r: RoomId, u: UserId, actor: UserId)
    requires Core(s)
    ensures Core(Demote(s, r, u, actor).chat)
  {
    if r in s.rooms {
      RoomEditKeeps(s, r, s.rooms[r].(admins := Without(s.rooms[r].admins, u)));
    }
  }

  lemma CreateInviteKeeps(s: Chat, r: RoomId, actor: UserId, token: Token)
    requires Core(s)
    ensures Core(CreateInvite(s, r, actor, token).chat)
  {
    if r in s.rooms {
      RoomEditKeeps(s, r, s.rooms[r].(invite := Some(token)));
    }
  }

  lemma RevokeInviteKeeps(s: Chat, r: RoomId, actor: UserId)
    requires Core(s)
    ensures Core(RevokeInvite(s, r, actor).chat)
  {
    if r in s.rooms {
      RoomEditKeeps(s, r, s.rooms[r].(invite := None));
    }
  }

  lemma NewRoomKeeps(s: Chat, room: Room)
    requires Core(s) && RoomOk(room)
    ensures Core(s.(nextId := s.nextId + 1, rooms := s.rooms[s.nextId := room]))
  {
  }

  lemma CreateGroupKeeps(s: Chat, creator: UserId, others: seq<UserId>)
    requires Core(s)
    ensures Core(CreateGroup(s, creator, others).chat)
  {
    var members := Dedupe([creator] + others);
    assert creator == ([creator] + others)[0];
    NewRoomKeeps(s, Room(true, members, creator, [], None));
  }

  lemma OpenDmKeeps(s: Chat, creator: UserId, other: UserId)
    requires Core(s)
    ensures Core(OpenDm(s, creator, other).chat)
  {
    if creator != other {
      NewRoomKeeps(s, Room(false, [creator, other], creator, [], None));
    }
  }

  /** Rewriting messages without moving them, and counters without new rows. */
  lemma RewriteKeeps(s: Chat, s': Chat)
    requires Core(s)
    requires s'.rooms == s.rooms && s'.access == s.access && s'.nextId == s.nextId
    requires s'.messages.Keys == s.messages.Keys
    requires forall m :: m in s.messages ==> s'.messages[m].room == s.messages[m].room
    requires s'.counters.Keys <= s.counters.Keys
    requires forall k :: k in s'.counters ==> s'.counters[k] >= 0
    ensures Core(s')
  {
  }

  lemma SendMessageKeeps(s: Chat, r: RoomId, u: UserId, voice: bool, body: Body, f: SendFaults)
    requires Core(s)
    ensures Core(SendMessage(s, r, u, voice, body, f).chat)
  {
    GetForUserKeeps(s, r, u);
    var o := GetForUser(s, r, u);
    if o.reply == Done { SendKeeps(o.chat, r, u, voice, body, f); }
  }

  lemma ForwardMessagesKeeps(s: Chat, r: RoomId, u: UserId, ids: seq<MessageId>, fs: seq<SendFaults>)
    requires Core(s)
    ensures Core(ForwardMessages(s, r, u, ids, fs).chat)
  {
    GetForUserKeeps(s, r, u);
    var o := GetForUser(s, r, u);
    if o.reply == Done && forall i :: 0 <= i < |ids| ==> ids[i] in s.messages {
      var sources := Lookup(s.messages, ids);
      CheckRoomsKeeps(o.chat, RoomsOf(sources), u);
      ForwardKeeps(CheckRooms(o.chat, RoomsOf(sources), u).chat, r, u, sources, fs);
    }
  }

  lemma EditKeeps(s: Chat, m: MessageId, u: UserId, body: Body, f: EditFaults)
    requires Core(s)
    ensures Core(Edit(s, m, u, body, f).chat)
  {
    if m in s.messages {
      GetForUserKeeps(s, s.messages[m].room, u);
      var o := GetForUser(s, s.messages[m].room, u);
      RewriteKeeps(o.chat, EditStored(o.chat, m, body, f).chat);
    }
  }

  lemma MarkReadKeeps(s: Chat, m: MessageId, u: UserId)
    requires Core(s)
    ensures Core(MarkRead(s, m, u).chat)
  {
    if m in s.messages {
      GetForUserKeeps(s, s.messages[m].room, u);
      RewriteKeeps(GetForUser(s, s.messages[m].room, u).chat, MarkRead(s, m, u).chat);
    }
  }

  lemma DecrementedOk(counters: map<Pair, int>, r: RoomId, us: set<UserId>, amount: int)
    requires forall k :: k in counters ==> counters[k] >= 0
    ensures Decremented(counters, r, us, amount).Keys == counters.Keys
    ensures forall k :: k in Decremented(counters, r, us, amount) ==> Decremented(counters, r, us, amount)[k] >= 0
  {
  }

  lemma AllReadOk(messages: map<MessageId, Message>, r: RoomId, u: UserId)
    ensures AllRead(messages, r, u).Keys == messages.Keys
    ensures forall m :: m in messages ==> AllRead(messages, r, u)[m].room == messages[m].room
  {
  }

  lemma MarkRoomReadKeeps(s: Chat, r: RoomId, u: UserId)
    requires Core(s)
    ensures Core(MarkRoomRead(s, r, u).chat)
  {
    GetForUserKeeps(s, r, u);
    var o := GetForUser(s, r, u);
    if o.reply == Done && u in s.users {
      AllReadOk(s.messages, r, u);
      DecrementedOk(s.counters, r, {u}, TrueUnread(s.messages, r, u));
      RewriteKeeps(o.chat, MarkRoomRead(s, r, u).chat);
    }
  }

  /** A delete marks one message and lowers counters of members who had it unread. */
  lemma DeleteWrites(s: Chat, m: MessageId, u: UserId, unindex: CallResult)
    requires m in s.messages && s.messages[m].sender == u
    ensures var s' := Delete(s, m, u, unindex).chat; var msg := s.messages[m];
      && s' == s.(messages := s'.messages, counters := s'.counters, index := s'.index, pending := s'.pending)
      && s'.messages == s.messages[m := msg.(isDeleted := true)]
      && s'.counters == if msg.isDeleted || msg.room !in s.rooms then s.counters
                        else Decremented(s.counters, msg.room, UnreadMembers(s.rooms[msg.room], msg), 1)
  {
    if s.messages[m].isDeleted {
      assert s.messages[m := s.messages[m]] == s.messages;
    }
  }

  lemma DeleteKeeps(s: Chat, m: MessageId, u: UserId, unindex: CallResult)
    requires Core(s)
    ensures Core(Delete(s, m, u, unindex).chat)
  {
    if m in s.messages && s.messages[m].sender == u {
      DeleteWrites(s, m, u, unindex);
      var msg := s.messages[m];
      if msg.room in s.rooms {
        DecrementedOk(s.counters, msg.room, UnreadMembers(s.rooms[msg.room], msg), 1);
      }
      RewriteKeeps(s, Delete(s, m, u, unindex).chat);
    }
  }

  lemma DeleteRoomKeeps(s: Chat, r: RoomId, actor: UserId)
    requires Core(s)
    ensures Core(DeleteRoom(s, r, actor).chat)
  {
  }

  lemma ReconcileKeeps(s: Chat)
    requires Core(s)
    ensures Core(Reconcile(s).chat)
  {
  }

  lemma RunCleanupKeeps(s: Chat, c: Cleanup, reached: Option<Reach>, lastTry: bool)
    requires Core(s)
    ensures Core(RunCleanup(s, c, reached, lastTry).chat)
  {
  }

  lemma MessageStepKeepsCore(s: Chat, op: Op)
    requires Core(s)
    requires op.SendOp? || op.ForwardOp? || op.EditOp? || op.MarkReadOp? || op.MarkRoomReadOp? || op.DeleteOp?
    ensures Core(Step(s, op).chat)
  {
    match op
    case SendOp(r, u, voice, body, f) => SendMessageKeeps(s, r, u, voice, body, f);
    case ForwardOp(r, u, ids, fs) => ForwardMessagesKeeps(s, r, u, ids, fs);
    case EditOp(m, u, body, f) => EditKeeps(s, m, u, body, f);
    case MarkReadOp(m, u) => MarkReadKeeps(s, m, u);
    case MarkRoomReadOp(r, u) => MarkRoomReadKeeps(s, r, u);
    case DeleteOp(m, u, unindex) => DeleteKeeps(s, m, u, unindex);
  }

  lemma RoomStepKeepsCore(s: Chat, op: Op)
    requires Core(s)
    requires op.CreateGroupOp? || op.OpenDmOp? || op.AddMemberOp? || op.RemoveMemberOp? || op.LeaveOp? || op.JoinOp?
             || op.DeleteRoomOp?
    ensures Core(Step(s, op).chat)
  {
    match op
    case CreateGroupOp(creator, others) => CreateGroupKeeps(s, creator, others);
    case OpenDmOp(creator, other) => OpenDmKeeps(s, creator, other);
    case AddMemberOp(r, u, actor) => AddMemberKeeps(s, r, u, actor);
    case RemoveMemberOp(r, u, actor) => RemoveMemberKeeps(s, r, u, actor);
    case LeaveOp(r, u) => LeaveKeeps(s, r, u);
    case JoinOp(r, token, u) => JoinByInviteKeeps(s, r, token, u);
    case DeleteRoomOp(r, actor) => DeleteRoomKeeps(s, r, actor);
  }

  lemma StepKeepsCore(s: Chat, op: Op)
    requires Core(s)
    ensures Core(Step(s, op).chat)
  {
    match op
    case CreateInviteOp(r, actor, token) => CreateInviteKeeps(s, r, actor, token);
    case RevokeInviteOp(r, actor) => RevokeInviteKeeps(s, r, actor);
    case PromoteOp(r, u, actor) => PromoteKeeps(s, r, u, actor);
    case DemoteOp(r, u, actor) => DemoteKeeps(s, r, u, actor);
    case GetRoomOp(r, u) => GetForUserKeeps(s, r, u);
    case ExpireAccessOp(keys) => ExpireKeeps(s, keys);
    case ReconcileOp => ReconcileKeeps(s);
    case RunCleanupOp(job, reached, lastTry) => RunCleanupKeeps(s, job, reached, lastTry);
    case SendOp(_, _, _, _, _) => MessageStepKeepsCore(s, op);
    case ForwardOp(_, _, _, _) => MessageStepKeepsCore(s, op);
    case EditOp(_, _, _, _) => MessageStepKeepsCore(s, op);
    case MarkReadOp(_, _) => MessageStepKeepsCore(s, op);
    case MarkRoomReadOp(_, _) => MessageStepKeepsCore(s, op);
    case DeleteOp(_, _, _) => MessageStepKeepsCore(s, op);
    case _ => RoomStepKeepsCore(s, op);
  }

  lemma ExpireKeeps(s: Chat, keys: set<Pair>)
    requires Core(s)
    ensures Core(ExpireAccess(s, keys).chat)
  {
  }

  // ---------- cleanup jobs ----------

  /** A job names only what is gone: deleted messages, or a deleted room and its messages. */
  ghost predicate JobOk(s: Chat, j: Cleanup) {
    match j
    case MessageCleanup(m) => m < s.nextId && (m in s.messages ==> s.messages[m].isDeleted)
    case RoomCleanup(r, ms) =>
      r < s.nextId && r !in s.rooms && forall m :: m in ms ==> m < s.nextId && m !in s.messages
  }

  ghost predicate JobsOk(s: Chat) {
    forall j :: j in s.pending + (s.finished + s.dead) ==> JobOk(s, j)
  }

  /** Only ids not yet issued appear, and deleted messages stay deleted. */
  ghost predicate Forward(s: Chat, s': Chat) {
    && s.nextId <= s'.nextId
    && (forall r :: r in s'.rooms && r !in s.rooms ==> s.nextId <= r)
    && (forall m :: m in s'.messages && m !in s.messages ==> s.nextId <= m)
    && (forall m :: m in s'.messages && m in s.messages && s.messages[m].isDeleted ==> s'.messages[m].isDeleted)
  }

  lemma ForwardKeepsJob(s: Chat, s': Chat, j: Cleanup)
    requires Forward(s, s') && JobOk(s, j)
    ensures JobOk(s', j)
  {
  }

  lemma ForwardKeepsJobs(s: Chat, s': Chat)
    requires Forward(s, s') && JobsOk(s)
    requires forall j :: j in s'.pending + (s'.finished + s'.dead) && j !in s.pending + (s.finished + s.dead) ==>
               JobOk(s', j)
    ensures JobsOk(s')
  {
    forall j | j in s.pending + (s.finished + s.dead) ensures JobOk(s', j) {
      ForwardKeepsJob(s, s', j);
    }
  }

  lemma SendKeepsJobs(s: Chat, r: RoomId, sender: UserId, voice: bool, body: Body, f: SendFaults)
    requires Core(s) && JobsOk(s) && r in s.rooms
    ensures JobsOk(SendEncrypted(s, r, sender, voice, body, f).chat)
  {
    ForwardKeepsJobs(s, SendEncrypted(s, r, sender, voice, body, f).chat);
  }

  lemma {:induction false} ForwardAllKeepsJobs(s: Chat, target: RoomId, u: UserId, sources: seq<Message>,
          fs: seq<SendFaults>)
    requires Core(s) && JobsOk(s) && target in s.rooms
    ensures JobsOk(ForwardAll(s, target, u, sources, fs))
  {
    if |sources| != 0 {
      var i := |sources| - 1;
      ForwardAllKeepsJobs(s, target, u, sources[..i], fs);
      ForwardKeeps(s, target, u, sources[..i], fs);
      SendKeepsJobs(ForwardAll(s, target, u, sources[..i], fs), target, u, sources[i].voice,
                    Body(sources[i].body.text, [], None), FaultsAt(fs, i));
    }
  }

  lemma SendMessageKeepsJobs(s: Chat, r: RoomId, u: UserId, voice: bool, body: Body, f: SendFaults)
    requires Core(s) && JobsOk(s)
    ensures JobsOk(SendMessage(s, r, u, voice, body, f).chat)
  {
    GetForUserKeeps(s, r, u);
    var o := GetForUser(s, r, u);
    if o.reply == Done { SendKeepsJobs(o.chat, r, u, voice, body, f); }
  }

  lemma ForwardMessagesKeepsJobs(s: Chat, r: RoomId, u: UserId, ids: seq<MessageId>, fs: seq<SendFaults>)
    requires Core(s) && JobsOk(s)
    ensures JobsOk(ForwardMessages(s, r, u, ids, fs).chat)
  {
    GetForUserKeeps(s, r, u);
    var o := GetForUser(s, r, u);
    if o.reply == Done && forall i :: 0 <= i < |ids| ==> ids[i] in s.messages {
      var sources := Lookup(s.messages, ids);
      CheckRoomsKeeps(o.chat, RoomsOf(sources), u);
      ForwardAllKeepsJobs(CheckRooms(o.chat, RoomsOf(sources), u).chat, r, u, sources, fs);
    }
  }

  lemma EditKeepsJobs(s: Chat, m: MessageId, u: UserId, body: Body, f: EditFaults)
    requires Core(s) && JobsOk(s)
    ensures JobsOk(Edit(s, m, u, body, f).chat)
  {
    if m in s.messages { GetForUserKeeps(s, s.messages[m].room, u); }
    ForwardKeepsJobs(s, Edit(s, m, u, body, f).chat);
  }

  lemma DeleteKeepsJobs(s: Chat, m: MessageId, u: UserId, unindex: CallResult)
    requires Core(s) && JobsOk(s)
    ensures JobsOk(Delete(s, m, u, unindex).chat)
  {
    if m in s.messages && s.messages[m].sender == u {
      DeleteWrites(s, m, u, unindex);
      ForwardKeepsJobs(s, Delete(s, m, u, unindex).chat);
    }
  }

  lemma DeleteRoomKeepsJobs(s: Chat, r: RoomId, actor: UserId)
    requires Core(s) && JobsOk(s)
    ensures JobsOk(DeleteRoom(s, r, actor).chat)
  {
    ForwardKeepsJobs(s, DeleteRoom(s, r, actor).chat);
  }

  lemma MarkReadKeepsJobs(s: Chat, m: MessageId, u: UserId)
    requires Core(s) && JobsOk(s)
    ensures JobsOk(MarkRead(s, m, u).chat)
  {
    if m in s.messages { GetForUserKeeps(s, s.messages[m].room, u); }
    ForwardKeepsJobs(s, MarkRead(s, m, u).chat);
  }

  lemma MarkRoomReadKeepsJobs(s: Chat, r: RoomId, u: UserId)
    requires Core(s) && JobsOk(s)
    ensures JobsOk(MarkRoomRead(s, r, u).chat)
  {
    GetForUserKeeps(s, r, u);
    ForwardKeepsJobs(s, MarkRoomRead(s, r, u).chat);
  }

  lemma SameIdsKeepsJobs(s: Chat, s': Chat)
    requires JobsOk(s) && SameIds(s, s')
    ensures JobsOk(s')
  {
    ForwardKeepsJobs(s, s');
  }

  lemma SameMembersKeepsJobs(s: Chat, s': Chat)
    requires JobsOk(s) && SameMembers(s, s')
    ensures JobsOk(s')
  {
    ForwardKeepsJobs(s, s');
  }

  lemma NewRoomKeepsJobs(s: Chat, room: Room)
    requires JobsOk(s)
    ensures JobsOk(s.(nextId := s.nextId + 1, rooms := s.rooms[s.nextId := room]))
  {
    ForwardKeepsJobs(s, s.(nextId := s.nextId + 1, rooms := s.rooms[s.nextId := room]));
  }

  lemma RunCleanupKeepsJobs(s: Chat, c: Cleanup, reached: Option<Reach>, lastTry: bool)
    requires Core(s) && JobsOk(s)
    ensures JobsOk(RunCleanup(s, c, reached, lastTry).chat)
  {
    ForwardKeepsJobs(s, RunCleanup(s, c, reached, lastTry).chat);
  }

  // ---------- forwards ----------

  /** The store a forward has once it checked access to every source room. */
  function Checked(s: Chat, r: RoomId, u: UserId, ids: seq<MessageId>): Chat
    requires forall i :: 0 <= i < |ids| ==> ids[i] in s.messages
  {
    CheckRooms(GetForUser(s, r, u).chat, RoomsOf(Lookup(s.messages, ids)), u).chat
  }

  lemma CheckedKeeps(s: Chat, r: RoomId, u: UserId, ids: seq<MessageId>)
    requires Core(s) && JobsOk(s) && forall i :: 0 <= i < |ids| ==> ids[i] in s.messages
    ensures var t := Checked(s, r, u, ids); Core(t) && JobsOk(t) && t == s.(access := t.access)
  {
    GetForUserKeeps(s, r, u);
    CheckRoomsKeeps(GetForUser(s, r, u).chat, RoomsOf(Lookup(s.messages, ids)), u);
  }

  /** A forward either fills the access cache and no more, or sends every copy and says so. */
  lemma ForwardMessagesSplit(s: Chat, r: RoomId, u: UserId, ids: seq<MessageId>, fs: seq<SendFaults>)
    ensures var o := ForwardMessages(s, r, u, ids, fs);
            if o.reply != Done then o.chat == s.(access := o.chat.access)
            else r in s.rooms && (forall i :: 0 <= i < |ids| ==> ids[i] in s.messages)
                 && o.chat == ForwardAll(Checked(s, r, u, ids), r, u, Lookup(s.messages, ids), fs)
  {
  }

  lemma {:induction false} ForwardAllNextId(s: Chat, r: RoomId, u: UserId, sources: seq<Message>, fs: seq<SendFaults>)
    requires r in s.rooms
    ensures ForwardAll(s, r, u, sources, fs).nextId == s.nextId + |sources|
  {
    if |sources| != 0 {
      ForwardAllNextId(s, r, u, sources[..|sources| - 1], fs);
    }
  }

  lemma EditKeepsRooms(s: Chat, m: MessageId, u: UserId, body: Body, f: EditFaults)
    requires Core(s)
    ensures Edit(s, m, u, body, f).chat.rooms == s.rooms && Edit(s, m, u, body, f).chat.nextId == s.nextId
  {
    if m in s.messages { GetForUserKeeps(s, s.messages[m].room, u); }
  }

  lemma DeleteKeepsRooms(s: Chat, m: MessageId, u: UserId, unindex: CallResult)
    requires Core(s)
    ensures Delete(s, m, u, unindex).chat.rooms == s.rooms && Delete(s, m, u, unindex).chat.nextId == s.nextId
  {
    if m in s.messages && s.messages[m].sender == u { DeleteWrites(s, m, u, unindex); }
  }

  /** Operations on messages leave rooms alone. */
  lemma MessageStepKeepsRooms(s: Chat, op: Op)
    requires Core(s)
    requires op.SendOp? || op.ForwardOp? || op.EditOp? || op.MarkReadOp? || op.MarkRoomReadOp? || op.DeleteOp?
    ensures Step(s, op).chat.rooms == s.rooms && s.nextId <= Step(s, op).chat.nextId
  {
    match op
    case SendOp(r, u, _, _, _) => GetForUserKeeps(s, r, u);
    case ForwardOp(r, u, ids, fs) => ForwardKeepsRooms(s, r, u, ids, fs);
    case EditOp(m, u, body, f) => EditKeepsRooms(s, m, u, body, f);
    case MarkReadOp(m, u) => if m in s.messages { GetForUserKeeps(s, s.messages[m].room, u); }
    case MarkRoomReadOp(r, u) => GetForUserKeeps(s, r, u);
    case DeleteOp(m, u, unindex) => DeleteKeepsRooms(s, m, u, unindex);
  }

  lemma ForwardKeepsRooms(s: Chat, r: RoomId, u: UserId, ids: seq<MessageId>, fs: seq<SendFaults>)
    ensures ForwardMessages(s, r, u, ids, fs).chat.rooms == s.rooms
    ensures s.nextId <= ForwardMessages(s, r, u, ids, fs).chat.nextId
  {
    ForwardMessagesSplit(s, r, u, ids, fs);
    if ForwardMessages(s, r, u, ids, fs).reply == Done {
      ForwardAllNextId(Checked(s, r, u, ids), r, u, Lookup(s.messages, ids), fs);
    }
  }

  lemma MessageStepKeepsJobs(s: Chat, op: Op)
    requires Core(s) && JobsOk(s)
    requires op.SendOp? || op.ForwardOp? || op.EditOp? || op.MarkReadOp? || op.MarkRoomReadOp? || op.DeleteOp?
    ensures JobsOk(Step(s, op).chat)
  {
    match op
    case SendOp(r, u, voice, body, f) => SendMessageKeepsJobs(s, r, u, voice, body, f);
    case ForwardOp(r, u, ids, fs) => ForwardMessagesKeepsJobs(s, r, u, ids, fs);
    case EditOp(m, u, body, f) => EditKeepsJobs(s, m, u, body, f);
    case DeleteOp(m, u, unindex) => DeleteKeepsJobs(s, m, u, unindex);
    case MarkReadOp(m, u) => MarkReadKeepsJobs(s, m, u);
    case MarkRoomReadOp(r, u) => MarkRoomReadKeepsJobs(s, r, u);
  }

  lemma AdminStepKeepsJobs(s: Chat, op: Op)
    requires Core(s) && JobsOk(s)
    requires op.CreateInviteOp? || op.RevokeInviteOp? || op.PromoteOp? || op.DemoteOp?
    ensures JobsOk(Step(s, op).chat)
  {
    match op
    case CreateInviteOp(r, actor, token) => SameMembersKeepsJobs(s, CreateInvite(s, r, actor, token).chat);
    case RevokeInviteOp(r, actor) => SameMembersKeepsJobs(s, RevokeInvite(s, r, actor).chat);
    case PromoteOp(r, u, actor) => SameMembersKeepsJobs(s, Promote(s, r, u, actor).chat);
    case DemoteOp(r, u, actor) => SameMembersKeepsJobs(s, Demote(s, r, u, actor).chat);
  }

  lemma StepKeepsJobs(s: Chat, op: Op)
    requires Core(s) && JobsOk(s)
    ensures JobsOk(Step(s, op).chat)
  {
    if op.CreateInviteOp? || op.RevokeInviteOp? || op.PromoteOp? || op.DemoteOp? {
      AdminStepKeepsJobs(s, op);
    } else if op.SendOp? || op.ForwardOp? || op.EditOp? || op.MarkReadOp? || op.MarkRoomReadOp? || op.DeleteOp? {
      MessageStepKeepsJobs(s, op);
    } else {
      RoomStepKeepsJobs(s, op);
    }
  }

  lemma RoomStepKeepsJobs(s: Chat, op: Op)
    requires Core(s) && JobsOk(s)
    requires !(op.CreateInviteOp? || op.RevokeInviteOp? || op.PromoteOp? || op.DemoteOp?)
    requires !(op.SendOp? || op.ForwardOp? || op.EditOp? || op.MarkReadOp? || op.MarkRoomReadOp? || op.DeleteOp?)
    ensures JobsOk(Step(s, op).chat)
  {
    match op
    case DeleteRoomOp(r, actor) => DeleteRoomKeepsJobs(s, r, actor);
    case GetRoomOp(r, u) => SameIdsKeepsJobs(s, GetForUser(s, r, u).chat);
    case LeaveOp(r, u) => SameIdsKeepsJobs(s, Leave(s, r, u).chat);
    case AddMemberOp(r, u, actor) => SameIdsKeepsJobs(s, AddMember(s, r, u, actor).chat);
    case RemoveMemberOp(r, u, actor) => SameIdsKeepsJobs(s, RemoveMember(s, r, u, actor).chat);
    case JoinOp(r, token, u) => SameIdsKeepsJobs(s, JoinByInvite(s, r, token, u).chat);
    case CreateGroupOp(creator, others) =>
      NewRoomKeepsJobs(s, Room(true, Dedupe([creator] + others), creator, [], None));
    case OpenDmOp(creator, other) => NewRoomKeepsJobs(s, Room(false, [creator, other], creator, [], None));
    case ExpireAccessOp(keys) => SameIdsKeepsJobs(s, ExpireAccess(s, keys).chat);
    case ReconcileOp => SameIdsKeepsJobs(s, Reconcile(s).chat);
    case RunCleanupOp(job, reached, lastTry) => RunCleanupKeepsJobs(s, job, reached, lastTry);
  }

  /** Every operation, with whatever faults, keeps all of this. */
  lemma StepKeeps(s: Chat, op: Op)
    requires Core(s) && JobsOk(s)
    ensures Core(Step(s, op).chat) && JobsOk(Step(s, op).chat)
  {
    StepKeepsCore(s, op);
    StepKeepsJobs(s, op);
  }

  /** In every run rooms, messages, counter rows, cached answers and jobs stay consistent. */
  lemma {:induction false} RunKeepsCore(users: set<UserId>, ops: seq<Op>)
    ensures Core(Run(users, ops)) && JobsOk(Run(users, ops))
  {
    if |ops| != 0 {
      RunKeepsCore(users, ops[..|ops| - 1]);
      StepKeeps(Run(users, ops[..|ops| - 1]), ops[|ops| - 1]);
    }
  }
}
