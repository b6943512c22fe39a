/**
 What callers of the room and message services can rely on afterwards: round trips, operations that
 change nothing the second time, and what stays true however the run goes on.
 */
module ChatEffects {
  import opened Wrappers
  import opened ChatModel
  import opened ChatInvariants
  import opened ChatUnread

  // ---------- reading and deleting ----------

  /** Marking a message read takes it off the reader's count, once: a second time changes nothing. */
  lemma ReadCountsOnce(s: Chat, m: MessageId, u: UserId, k: Pair)
    requires MarkRead(s, m, u).reply == Done
    ensures m in s.messages && MarkRead(MarkRead(s, m, u).chat, m, u) == MarkRead(s, m, u)
    ensures var s' := MarkRead(s, m, u).chat; var r := s.messages[m].room;
            TrueUnread(s'.messages, k.0, k.1) ==
            TrueUnread(s.messages, k.0, k.1) - Bit(k == (r, u) && IsUnread(s.messages[m], r, u))
  {
    var msg := s.messages[m];
    CountWrite(s.messages, m, msg.(readBy := msg.readBy + {u}), k.0, k.1);
  }

  /** A delete answers well exactly the first time, to the sender, when the index call returns. */
  lemma DeleteAnswersIff(s: Chat, m: MessageId, u: UserId, unindex: CallResult)
    ensures Delete(s, m, u, unindex).reply == Done <==>
            m in s.messages && s.messages[m].sender == u && !s.messages[m].isDeleted && unindex.Returned?
    ensures Delete(s, m, u, unindex).reply == Done ==>
              var s' := Delete(s, m, u, unindex).chat;
              s'.messages[m].isDeleted && m !in s'.index && s'.messages - {m} == s.messages - {m}
  {
    if Delete(s, m, u, unindex).reply == Done {
      assert s.messages[m := s.messages[m].(isDeleted := true)] - {m} == s.messages - {m};
    }
  }

  /** After a delete that answered well, a second one fails and leaves everything as it is. */
  lemma SecondDeleteFails(s: Chat, m: MessageId, u: UserId)
    requires JobsOk(s) && Delete(s, m, u, Returned).reply == Done
    ensures var s' := Delete(s, m, u, Returned).chat;
            forall unindex: CallResult :: Delete(s', m, u, unindex) == Outcome(s', Failed)
  {
    var s' := Delete(s, m, u, Returned).chat;
    assert s'.index - {m} == s'.index;
    QueuedOnce(s, m, u);
    assert MessageCleanup(m) in s'.pending + (s'.finished + s'.dead) && MessageCleanup(m).SameKey(MessageCleanup(m));
  }

  lemma QueuedOnce(s: Chat, m: MessageId, u: UserId)
    requires JobsOk(s) && Delete(s, m, u, Returned).reply == Done
    ensures MessageCleanup(m) in Delete(s, m, u, Returned).chat.pending
  {
    assert forall j :: j in s.pending + (s.finished + s.dead) ==> JobOk(s, j) && !j.SameKey(MessageCleanup(m));
  }

  /** After a delete whose index call raised, a second one still fails, but takes the entry out and queues the job. */
  lemma SecondDeleteRepairs(s: Chat, m: MessageId, u: UserId, applied: bool)
    requires JobsOk(s) && m in s.messages && s.messages[m].sender == u && !s.messages[m].isDeleted
    ensures var first := Delete(s, m, u, Raised(applied)); var second := Delete(first.chat, m, u, Returned);
            && first.reply == Failed && second.reply == Failed
            && second.chat == first.chat.(index := second.chat.index, pending := second.chat.pending)
            && second.chat.index == first.chat.index - {m}
            && MessageCleanup(m) in second.chat.pending
  {
    assert forall j :: j in s.pending + (s.finished + s.dead) ==> JobOk(s, j) && !j.SameKey(MessageCleanup(m));
  }

  // ---------- members ----------

  /** Somebody who was added or joined has access and an exact counter; nobody else's membership changed. */
  lemma JoinedHasAccess(s: Chat, r: RoomId, u: UserId)
    requires Core(s) && r in s.rooms
    ensures var s' := Joined(s, r, u);
            && GetForUser(s', r, u).reply == Done
            && CounterOf(s'.counters, (r, u)) == TrueUnread(s'.messages, r, u)
            && (forall v :: v in s'.rooms[r].members <==> v in s.rooms[r].members || v == u)
            && (forall k :: k != (r, u) ==> CounterOf(s'.counters, k) == CounterOf(s.counters, k))
  {
    JoinedKeeps(s, r, u);
    var s' := Joined(s, r, u);
    assert u in s'.rooms[r].members by {
      if u !in s.rooms[r].members { assert s'.rooms[r].members[|s.rooms[r].members|] == u; }
    }
    GetForUserKeeps(s', r, u);
  }

  lemma AddedMemberHasAccess(s: Chat, r: RoomId, u: UserId, actor: UserId)
    requires Core(s) && AddMember(s, r, u, actor).reply == Done
    ensures var s' := AddMember(s, r, u, actor).chat;
            && GetForUser(s', r, u).reply == Done
            && CounterOf(s'.counters, (r, u)) == TrueUnread(s'.messages, r, u)
            && (forall v :: v in s'.rooms[r].members <==> v in s.rooms[r].members || v == u)
  {
    JoinedHasAccess(s, r, u);
  }

  /** Somebody who was removed or left has no access, no row and no admin rights; nobody else's membership changed. */
  lemma RemovedIsOut(s: Chat, r: RoomId, u: UserId)
    requires Core(s) && r in s.rooms && u != s.rooms[r].createdBy
    ensures var s' := Removed(s, r, u);
            && GetForUser(s', r, u).reply == Refused(403)
            && (r, u) !in s'.counters && u !in s'.rooms[r].admins
            && (forall v :: v in s'.rooms[r].members <==> v in s.rooms[r].members && v != u)
  {
    RemovedKeeps(s, r, u);
    GetForUserKeeps(Removed(s, r, u), r, u);
  }

  lemma RemovedMemberIsOut(s: Chat, r: RoomId, u: UserId, actor: UserId)
    requires Core(s) && RemoveMember(s, r, u, actor).reply == Done
    ensures var s' := RemoveMember(s, r, u, actor).chat;
            && GetForUser(s', r, u).reply == Refused(403)
            && (r, u) !in s'.counters && u !in s'.rooms[r].admins
            && (forall v :: v in s'.rooms[r].members <==> v in s.rooms[r].members && v != u)
  {
    RemovedIsOut(s, r, u);
  }

  lemma LeaverIsOut(s: Chat, r: RoomId, u: UserId)
    requires Core(s) && Leave(s, r, u).reply == Done
    ensures var s' := Leave(s, r, u).chat;
            && r in s.rooms && u in s.rooms[r].members
            && GetForUser(s', r, u).reply == Refused(403)
            && (r, u) !in s'.counters && u !in s'.rooms[r].admins
            && (forall v :: v in s'.rooms[r].members <==> v in s.rooms[r].members && v != u)
  {
    GetForUserKeeps(s, r, u);
    RemovedIsOut(GetForUser(s, r, u).chat, r, u);
  }

  lemma RoomRestored(room: Room, u: UserId)
    requires RoomOk(room) && u !in room.members
    ensures var members := AddToSet(room.members, u);
            room.(members := Without(members, u), admins := Without(room.admins, u)) == room
  {
    WithoutAppended(room.members, u);
    WithoutShorter(room.members, u);
    WithoutShorter(room.admins, u);
  }

  lemma RowRestored(rows: map<Pair, int>, k: Pair, n: int)
    requires k !in rows
    ensures rows[k := n] - {k} == rows
  {
  }

  lemma RoomsRestored(rooms: map<RoomId, Room>, r: RoomId, u: UserId)
    requires r in rooms && RoomOk(rooms[r]) && u !in rooms[r].members
    ensures var joined := rooms[r].(members := AddToSet(rooms[r].members, u));
            rooms[r := joined]
              [r := joined.(members := Without(joined.members, u), admins := Without(joined.admins, u))] == rooms
  {
    RoomRestored(rooms[r], u);
  }

  lemma JoinedThenRemoved(s: Chat, r: RoomId, u: UserId)
    requires Core(s) && r in s.rooms && u !in s.rooms[r].members
    ensures Removed(Joined(s, r, u), r, u) == s.(access := ForgetRoom(s.access, r))
  {
    RoomsRestored(s.rooms, r, u);
    RowRestored(s.counters, (r, u), Max0(TrueUnread(s.messages, r, u)));
    assert ForgetRoom(ForgetRoom(s.access, r), r) == ForgetRoom(s.access, r);
  }

  /** Adding an outsider and removing them again leaves the room, its rows and everything but the cache as before. */
  lemma AddThenRemove(s: Chat, r: RoomId, u: UserId, actor: UserId)
    requires Core(s) && AddMember(s, r, u, actor).reply == Done && u !in MemberIds(s.rooms[r])
    ensures RemoveMember(AddMember(s, r, u, actor).chat, r, u, actor) ==
            Outcome(s.(access := ForgetRoom(s.access, r)), Done)
  {
    JoinedThenRemoved(s, r, u);
  }

  // ---------- invites and admins ----------

  /** Joining works exactly with the current invite of a group; it gives access and an exact counter. */
  lemma JoinNeedsInvite(s: Chat, r: RoomId, token: Token, u: UserId)
    requires Core(s)
    ensures JoinByInvite(s, r, token, u).reply == Done <==>
            r in s.rooms && s.rooms[r].invite == Some(token) && s.rooms[r].isGroup
              && (u in s.rooms[r].members || u in s.users)
    ensures JoinByInvite(s, r, token, u).reply == Done ==>
              var s' := JoinByInvite(s, r, token, u).chat;
              && GetForUser(s', r, u).reply == Done
              && (u !in s.rooms[r].members ==> CounterOf(s'.counters, (r, u)) == TrueUnread(s'.messages, r, u))
              && (forall v :: v in s'.rooms[r].members <==> v in s.rooms[r].members || v == u)
  {
    if r in s.rooms {
      JoinedHasAccess(s, r, u);
      GetForUserKeeps(s, r, u);
    }
  }

  /** The first invite stays until it is revoked, whoever asks for one again. */
  lemma InviteStays(s: Chat, r: RoomId, a: UserId, first: Token, b: UserId, second: Token)
    requires CreateInvite(s, r, a, first).reply == Done
    ensures var s' := CreateInvite(s, r, a, first).chat;
            && s'.rooms[r].invite == (if s.rooms[r].invite.Some? then s.rooms[r].invite else Some(first))
            && CreateInvite(s', r, b, second).chat == s'
  {
  }

  /** Once the invite is revoked, no token lets anybody in, until there is a new one. */
  lemma RevokedInviteAdmitsNobody(s: Chat, r: RoomId, actor: UserId, token: Token, u: UserId, later: Token)
    requires RevokeInvite(s, r, actor).reply == Done
    ensures var s' := RevokeInvite(s, r, actor).chat;
            && JoinByInvite(s', r, token, u) == Outcome(s', Refused(404))
            && (token != later ==>
                  JoinByInvite(CreateInvite(s', r, actor, later).chat, r, token, u).reply == Refused(404))
  {
  }

  /** Promoting somebody gives them admin rights; demoting them again undoes it. */
  lemma PromoteThenDemote(s: Chat, r: RoomId, u: UserId, actor: UserId)
    requires Core(s) && Promote(s, r, u, actor).reply == Done && !IsAdmin(s.rooms[r], u)
    ensures var s' := Promote(s, r, u, actor).chat;
            && IsAdmin(s'.rooms[r], u) && (forall v :: v != u ==> (IsAdmin(s'.rooms[r], v) <==> IsAdmin(s.rooms[r], v)))
            && Demote(s', r, u, actor) == Outcome(s, Done)
  {
    var room := s.rooms[r];
    var s' := Promote(s, r, u, actor).chat;
    assert s'.rooms[r].admins[|room.admins|] == u;
    WithoutAppended(room.admins, u);
    WithoutShorter(room.admins, u);
    assert s'.rooms[r].(admins := room.admins) == room;
    assert s'.rooms[r := room] == s.rooms;
  }

  // ---------- new rooms ----------

  /** A new group holds its creator and the others, each once; all of them have access and nothing unread. */
  lemma NewGroupIsOpen(s: Chat, creator: UserId, others: seq<UserId>, u: UserId)
    requires Core(s) && CreateGroup(s, creator, others).reply == Done
    ensures var s' := CreateGroup(s, creator, others).chat; var r := s.nextId;
            && r in s'.rooms && r !in s.rooms && NoDup(s'.rooms[r].members)
            && (u in MemberIds(s'.rooms[r]) <==> u == creator || u in others)
            && (GetForUser(s', r, u).reply == Done <==> u == creator || u in others)
            && TrueUnread(s'.messages, r, u) == 0 && (r, u) !in s'.counters
            && (forall q :: q in s.rooms ==> q in s'.rooms && s'.rooms[q] == s.rooms[q])
  {
    var s' := CreateGroup(s, creator, others).chat;
    CreateGroupKeeps(s, creator, others);
    GetForUserKeeps(s', s.nextId, u);
    CountEmpty(s.messages, s.nextId, u);
    assert ([creator] + others)[0] == creator;
    assert creator in s'.rooms[s.nextId].members;
  }

  ghost predicate OneDm(s: Chat) {
    forall r, q, a, b :: r in s.rooms && q in s.rooms && IsDmOf(s.rooms[r], a, b) && IsDmOf(s.rooms[q], a, b) ==> r == q
  }

  /** Groups stay groups, and the other rooms stay as they are. */
  ghost predicate SameDms(s: Chat, s': Chat) {
    forall r :: r in s'.rooms ==>
      r in s.rooms && (s'.rooms[r] == s.rooms[r] || (s.rooms[r].isGroup && s'.rooms[r].isGroup))
  }

  lemma SameDmsKeep(s: Chat, s': Chat)
    requires OneDm(s) && SameDms(s, s')
    ensures OneDm(s')
  {
    forall r, q, a, b | r in s'.rooms && q in s'.rooms && IsDmOf(s'.rooms[r], a, b) && IsDmOf(s'.rooms[q], a, b)
      ensures r == q
    {
      assert IsDmOf(s.rooms[r], a, b) && IsDmOf(s.rooms[q], a, b);
    }
  }

  lemma MemberStepKeepsDms(s: Chat, op: Op)
    requires op.AddMemberOp? || op.RemoveMemberOp? || op.LeaveOp? || op.JoinOp?
    ensures SameDms(s, Step(s, op).chat) && s.nextId == Step(s, op).chat.nextId
  {
  }

  lemma AdminStepKeepsDms(s: Chat, op: Op)
    requires op.CreateInviteOp? || op.RevokeInviteOp? || op.PromoteOp? || op.DemoteOp?
    ensures SameDms(s, Step(s, op).chat) && s.nextId == Step(s, op).chat.nextId
  {
  }

  /** No operation but the creation of a room makes one, and no other touches a direct room. */
  lemma RoomStepKeepsDms(s: Chat, op: Op)
    requires !(op.SendOp? || op.ForwardOp? || op.EditOp? || op.MarkReadOp? || op.MarkRoomReadOp? || op.DeleteOp?)
    requires !op.CreateGroupOp? && !op.OpenDmOp?
    ensures SameDms(s, Step(s, op).chat) && s.nextId == Step(s, op).chat.nextId
  {
    if op.AddMemberOp? || op.RemoveMemberOp? || op.LeaveOp? || op.JoinOp? {
      MemberStepKeepsDms(s, op);
    } else if op.CreateInviteOp? || op.RevokeInviteOp? || op.PromoteOp? || op.DemoteOp? {
      AdminStepKeepsDms(s, op);
    }
  }

  lemma NewDmIsAlone(s: Chat, a: UserId, b: UserId, r: RoomId, c: UserId, d: UserId)
    requires !exists q :: q in s.rooms && IsDmOf(s.rooms[q], a, b)
    requires r in s.rooms && IsDmOf(Room(false, [a, b], a, [], None), c, d)
    ensures !IsDmOf(s.rooms[r], c, d)
  {
    SamePair(Room(false, [a, b], a, [], None), a, b, c, d);
    assert !IsDmOf(s.rooms[r], a, b);
  }

  lemma OpenDmKeepsOne(s: Chat, a: UserId, b: UserId)
    requires Core(s) && OneDm(s)
    ensures OneDm(OpenDm(s, a, b).chat)
  {
    var s' := OpenDm(s, a, b).chat;
    if s' != s {
      forall r, q, c, d | r in s'.rooms && q in s'.rooms && IsDmOf(s'.rooms[r], c, d) && IsDmOf(s'.rooms[q], c, d)
        ensures r == q
      {
        if r in s.rooms && q in s.rooms {
          assert IsDmOf(s.rooms[r], c, d) && IsDmOf(s.rooms[q], c, d);
        } else if r in s.rooms {
          NewDmIsAlone(s, a, b, r, c, d);
        } else if q in s.rooms {
          NewDmIsAlone(s, a, b, q, c, d);
        }
      }
    }
  }

  lemma SamePair(room: Room, a: UserId, b: UserId, c: UserId, d: UserId)
    requires room.members == [a, b] && IsDmOf(room, c, d)
    ensures (c == a && d == b) || (c == b && d == a)
  {
    if room.members == [c, d] {
      assert [a, b][0] == [c, d][0] && [a, b][1] == [c, d][1];
    } else {
      assert [a, b][0] == [d, c][0] && [a, b][1] == [d, c][1];
    }
  }

  lemma CreateGroupKeepsOne(s: Chat, creator: UserId, others: seq<UserId>)
    requires OneDm(s)
    ensures OneDm(CreateGroup(s, creator, others).chat)
  {
    var s' := CreateGroup(s, creator, others).chat;
    forall r, q, a, b | r in s'.rooms && q in s'.rooms && IsDmOf(s'.rooms[r], a, b) && IsDmOf(s'.rooms[q], a, b)
      ensures r == q
    {
      assert IsDmOf(s.rooms[r], a, b) && IsDmOf(s.rooms[q], a, b);
    }
  }

  lemma StepKeepsOneDm(s: Chat, op: Op)
    requires Core(s) && OneDm(s)
    ensures OneDm(Step(s, op).chat)
  {
    if op.SendOp? || op.ForwardOp? || op.EditOp? || op.MarkReadOp? || op.MarkRoomReadOp? || op.DeleteOp? {
      MessageStepKeepsRooms(s, op);
    } else if op.OpenDmOp? {
      OpenDmKeepsOne(s, op.creator, op.other);
    } else if op.CreateGroupOp? {
      CreateGroupKeepsOne(s, op.creator, op.others);
    } else {
      RoomStepKeepsDms(s, op);
      SameDmsKeep(s, Step(s, op).chat);
    }
  }

  /** In every run two users share one direct room at most. */
  lemma {:induction false} OneDmPerPair(users: set<UserId>, ops: seq<Op>)
    ensures OneDm(Run(users, ops))
  {
    if |ops| != 0 {
      RunKeepsCore(users, ops[..|ops| - 1]);
      OneDmPerPair(users, ops[..|ops| - 1]);
      StepKeepsOneDm(Run(users, ops[..|ops| - 1]), ops[|ops| - 1]);
    }
  }

  /** Opening a direct room again, from either side, changes nothing. */
  lemma OpenDmTwice(s: Chat, a: UserId, b: UserId)
    requires OpenDm(s, a, b).reply == Done
    ensures var s' := OpenDm(s, a, b).chat;
            && (exists r :: r in s'.rooms && IsDmOf(s'.rooms[r], a, b))
            && OpenDm(s', a, b) == Outcome(s', Done) && OpenDm(s', b, a) == Outcome(s', Done)
  {
    var s' := OpenDm(s, a, b).chat;
    if s' != s {
      assert IsDmOf(s'.rooms[s.nextId], a, b);
    }
    var r :| r in s'.rooms && IsDmOf(s'.rooms[r], a, b);
    assert IsDmOf(s'.rooms[r], b, a);
  }

  // ---------- deleted rooms ----------

  /** A deleted room answers nobody, and has neither messages nor rows. */
  lemma DeletedRoomIsEmpty(s: Chat, r: RoomId, actor: UserId, u: UserId)
    requires Core(s) && r in s.rooms && DeleteRoom(s, r, actor).reply == Done
    ensures var s' := DeleteRoom(s, r, actor).chat;
            && GetForUser(s', r, u) == Outcome(s', Refused(404))
            && (r, u) !in s'.counters && RoomMessages(s'.messages, r) == {}
            && (forall m :: m in s.messages && s.messages[m].room != r ==>
                  m in s'.messages && s'.messages[m] == s.messages[m])
  {
  }

  lemma StepKeepsGone(s: Chat, op: Op, r: RoomId)
    requires Core(s) && r < s.nextId && r !in s.rooms
    ensures r < Step(s, op).chat.nextId && r !in Step(s, op).chat.rooms
  {
    if op.SendOp? || op.ForwardOp? || op.EditOp? || op.MarkReadOp? || op.MarkRoomReadOp? || op.DeleteOp? {
      MessageStepKeepsRooms(s, op);
    } else if !op.CreateGroupOp? && !op.OpenDmOp? {
      RoomStepKeepsDms(s, op);
    }
  }

  /** A room that is gone never comes back, whatever the run does next: it has no members, messages or rows again. */
  lemma {:induction false} GoneForGood(users: set<UserId>, ops: seq<Op>, k: nat, r: RoomId, u: UserId)
    requires k <= |ops| && r < Run(users, ops[..k]).nextId && r !in Run(users, ops[..k]).rooms
    ensures var s := Run(users, ops);
            r < s.nextId && r !in s.rooms && RoomMessages(s.messages, r) == {} && (r, u) !in s.counters
  {
    RunKeepsCore(users, ops);
    if k == |ops| {
      assert ops[..k] == ops;
    } else {
      var front := ops[..|ops| - 1];
      assert front[..k] == ops[..k];
      RunKeepsCore(users, front);
      GoneForGood(users, front, k, r, u);
      StepKeepsGone(Run(users, front), ops[|ops| - 1], r);
    }
  }
}
