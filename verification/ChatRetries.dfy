/**
 Retried cleanup jobs. Executions of a job may break off anywhere, any number of times, with any
 other operations in between; once one gets through, nothing shows that the others were there. And
 there is never more than one job for a message or a room.
 */
module ChatRetries {
  import opened Wrappers
  import opened ChatModel
  import opened ChatInvariants
  import opened ChatIndex

  /** Something else happens, or an execution of the job breaks off and is to be tried again. */
  datatype Act = Other(op: Op) | BreakOff(reach: Reach)

  function WithAttempts(s: Chat, c: Cleanup, acts: seq<Act>): Chat {
    if |acts| == 0 then s
    else
      var before := WithAttempts(s, c, acts[..|acts| - 1]);
      match acts[|acts| - 1]
      case Other(op) => Step(before, op).chat
      case BreakOff(reach) => RunCleanup(before, c, Some(reach), false).chat
  }

  function WithoutAttempts(s: Chat, acts: seq<Act>): Chat {
    if |acts| == 0 then s
    else
      var before := WithoutAttempts(s, acts[..|acts| - 1]);
      if acts[|acts| - 1].Other? then Step(before, acts[|acts| - 1].op).chat else before
  }

  predicate IsOf(op: Op, c: Cleanup) {
    op.RunCleanupOp? && op.job == c
  }

  ghost predicate SameAccess(a: map<Pair, bool>, b: map<Pair, bool>, c: Cleanup) {
    if c.RoomCleanup? then ForgetRoom(a, c.room) == ForgetRoom(b, c.room) else a == b
  }

  /** The two stores differ only in entries job c is for. */
  ghost predicate Alike(s: Chat, t: Chat, c: Cleanup) {
    && t == s.(index := t.index, access := t.access)
    && t.index - Subjects(c) == s.index - Subjects(c)
    && SameAccess(s.access, t.access, c)
  }

  lemma AccessAt(a: map<Pair, bool>, b: map<Pair, bool>, c: Cleanup, k: Pair)
    requires SameAccess(a, b, c) && (c.RoomCleanup? ==> k.0 != c.room)
    ensures k in a <==> k in b
    ensures k in a ==> a[k] == b[k]
  {
    if c.RoomCleanup? {
      assert k in a <==> k in ForgetRoom(a, c.room);
      assert k in b <==> k in ForgetRoom(b, c.room);
    }
  }

  lemma AccessSet(a: map<Pair, bool>, b: map<Pair, bool>, c: Cleanup, k: Pair, v: bool)
    requires SameAccess(a, b, c)
    ensures SameAccess(a[k := v], b[k := v], c)
  {
    if c.RoomCleanup? {
      ForgetSet(a, c.room, k, v);
      ForgetSet(b, c.room, k, v);
    }
  }

  lemma ForgetSet(a: map<Pair, bool>, r: RoomId, k: Pair, v: bool)
    ensures ForgetRoom(a[k := v], r) == if k.0 == r then ForgetRoom(a, r) else ForgetRoom(a, r)[k := v]
  {
  }

  lemma AccessForgotten(a: map<Pair, bool>, b: map<Pair, bool>, c: Cleanup, r: RoomId)
    requires SameAccess(a, b, c)
    ensures SameAccess(ForgetRoom(a, r), ForgetRoom(b, r), c)
  {
    if c.RoomCleanup? {
      assert ForgetRoom(ForgetRoom(a, r), c.room) == ForgetRoom(ForgetRoom(a, c.room), r);
      assert ForgetRoom(ForgetRoom(b, r), c.room) == ForgetRoom(ForgetRoom(b, c.room), r);
    }
  }

  lemma AccessExpired(a: map<Pair, bool>, b: map<Pair, bool>, c: Cleanup, keys: set<Pair>)
    requires SameAccess(a, b, c)
    ensures SameAccess(a - keys, b - keys, c)
  {
    if c.RoomCleanup? {
      assert ForgetRoom(a - keys, c.room) == ForgetRoom(a, c.room) - keys;
      assert ForgetRoom(b - keys, c.room) == ForgetRoom(b, c.room) - keys;
    }
  }

  /** The room of a room job is gone, so nobody asks for access to it. */
  lemma AccessAlike(s: Chat, t: Chat, c: Cleanup, r: RoomId, u: UserId)
    requires Alike(s, t, c) && (c.RoomCleanup? ==> c.room !in s.rooms)
    ensures Alike(GetForUser(s, r, u).chat, GetForUser(t, r, u).chat, c)
    ensures GetForUser(s, r, u).reply == GetForUser(t, r, u).reply
  {
    if r in s.rooms {
      AccessAt(s.access, t.access, c, (r, u));
      AccessSet(s.access, t.access, c, (r, u), Allowed(s.rooms[r], u));
    }
  }

  lemma IndexSet(a: map<MessageId, string>, b: map<MessageId, string>, gone: set<MessageId>, m: MessageId, v: string)
    requires a - gone == b - gone
    ensures a[m := v] - gone == b[m := v] - gone
  {
    forall k | k !in gone ensures (k in a <==> k in b) && (k in a ==> a[k] == b[k]) {
      assert k in a - gone <==> k in b - gone;
    }
  }

  lemma IndexDrop(a: map<MessageId, string>, b: map<MessageId, string>, gone: set<MessageId>, ms: set<MessageId>)
    requires a - gone == b - gone
    ensures (a - ms) - gone == (b - ms) - gone
  {
    assert (a - ms) - gone == (a - gone) - ms;
    assert (b - ms) - gone == (b - gone) - ms;
  }

  lemma SendAlike(s: Chat, t: Chat, c: Cleanup, r: RoomId, u: UserId, voice: bool, body: Body, f: SendFaults)
    requires Alike(s, t, c) && r in s.rooms
    ensures Alike(SendEncrypted(s, r, u, voice, body, f).chat, SendEncrypted(t, r, u, voice, body, f).chat, c)
    ensures SendEncrypted(s, r, u, voice, body, f).reply == SendEncrypted(t, r, u, voice, body, f).reply
  {
    IndexSet(s.index, t.index, Subjects(c), s.nextId, body.text);
    IndexDrop(s.index, t.index, Subjects(c), {s.nextId});
  }

  lemma {:induction false} CheckRoomsAlike(s: Chat, t: Chat, c: Cleanup, rs: seq<RoomId>, u: UserId)
    requires Alike(s, t, c) && (c.RoomCleanup? ==> c.room !in s.rooms)
    ensures Alike(CheckRooms(s, rs, u).chat, CheckRooms(t, rs, u).chat, c)
    ensures CheckRooms(s, rs, u).reply == CheckRooms(t, rs, u).reply
  {
    if |rs| != 0 {
      var front := rs[..|rs| - 1];
      CheckRoomsAlike(s, t, c, front, u);
      AccessAlike(CheckRooms(s, front, u).chat, CheckRooms(t, front, u).chat, c, rs[|rs| - 1], u);
    }
  }

  lemma {:induction false} ForwardAllAlike(s: Chat, t: Chat, c: Cleanup, r: RoomId, u: UserId, sources: seq<Message>,
                                           fs: seq<SendFaults>)
    requires Alike(s, t, c) && r in s.rooms
    ensures Alike(ForwardAll(s, r, u, sources, fs), ForwardAll(t, r, u, sources, fs), c)
  {
    if |sources| != 0 {
      var i := |sources| - 1;
      ForwardAllAlike(s, t, c, r, u, sources[..i], fs);
      SendAlike(ForwardAll(s, r, u, sources[..i], fs), ForwardAll(t, r, u, sources[..i], fs), c, r, u, sources[i].voice,
                Body(sources[i].body.text, [], None), FaultsAt(fs, i));
    }
  }

  /** What a forward does with the store it has checked access in. */
  function Copied(checked: Outcome, r: RoomId, u: UserId, sources: seq<Message>, fs: seq<SendFaults>): Outcome
    requires r in checked.chat.rooms
  {
    if checked.reply != Done then checked
    else if exists i :: 0 <= i < |sources| && sources[i].isDeleted then Outcome(checked.chat, Refused(422))
    else Outcome(ForwardAll(checked.chat, r, u, sources, fs), Done)
  }

  lemma ForwardIsCopied(s: Chat, r: RoomId, u: UserId, ids: seq<MessageId>, fs: seq<SendFaults>)
    requires Sends(s, r, u) && forall i :: 0 <= i < |ids| ==> ids[i] in s.messages
    ensures var sources := Lookup(s.messages, ids);
            var checked := CheckRooms(GetForUser(s, r, u).chat, RoomsOf(sources), u);
            r in checked.chat.rooms && ForwardMessages(s, r, u, ids, fs) == Copied(checked, r, u, sources, fs)
  {
  }

  lemma ForwardAlike(s: Chat, t: Chat, c: Cleanup, r: RoomId, u: UserId, ids: seq<MessageId>, fs: seq<SendFaults>)
    requires Alike(s, t, c) && (c.RoomCleanup? ==> c.room !in s.rooms)
    ensures Alike(ForwardMessages(s, r, u, ids, fs).chat, ForwardMessages(t, r, u, ids, fs).chat, c)
  {
    AccessAlike(s, t, c, r, u);
    if Sends(s, r, u) && forall i :: 0 <= i < |ids| ==> ids[i] in s.messages {
      var sources := Lookup(s.messages, ids);
      ForwardIsCopied(s, r, u, ids, fs);
      ForwardIsCopied(t, r, u, ids, fs);
      CheckRoomsAlike(GetForUser(s, r, u).chat, GetForUser(t, r, u).chat, c, RoomsOf(sources), u);
      ForwardAllAlike(CheckRooms(GetForUser(s, r, u).chat, RoomsOf(sources), u).chat,
                      CheckRooms(GetForUser(t, r, u).chat, RoomsOf(sources), u).chat, c, r, u, sources, fs);
    } else {
      assert ForwardMessages(s, r, u, ids, fs).chat == GetForUser(s, r, u).chat;
      assert ForwardMessages(t, r, u, ids, fs).chat == GetForUser(t, r, u).chat;
    }
  }

  lemma SendMessageAlike(s: Chat, t: Chat, c: Cleanup, r: RoomId, u: UserId, voice: bool, body: Body, f: SendFaults)
    requires Alike(s, t, c) && (c.RoomCleanup? ==> c.room !in s.rooms)
    ensures Alike(SendMessage(s, r, u, voice, body, f).chat, SendMessage(t, r, u, voice, body, f).chat, c)
  {
    AccessAlike(s, t, c, r, u);
    if r in s.rooms {
      SendAlike(GetForUser(s, r, u).chat, GetForUser(t, r, u).chat, c, r, u, voice, body, f);
    }
  }

  lemma EditStoredAlike(s: Chat, t: Chat, c: Cleanup, m: MessageId, body: Body, f: EditFaults)
    requires Alike(s, t, c) && m in s.messages
    ensures Alike(EditStored(s, m, body, f).chat, EditStored(t, m, body, f).chat, c)
  {
    IndexSet(s.index, t.index, Subjects(c), m, s.messages[m].body.text);
    IndexSet(s.index, t.index, Subjects(c), m, body.text);
  }

  lemma EditAlike(s: Chat, t: Chat, c: Cleanup, m: MessageId, u: UserId, body: Body, f: EditFaults)
    requires Alike(s, t, c) && (c.RoomCleanup? ==> c.room !in s.rooms)
    ensures Alike(Edit(s, m, u, body, f).chat, Edit(t, m, u, body, f).chat, c)
  {
    if m in s.messages {
      var r := s.messages[m].room;
      AccessAlike(s, t, c, r, u);
      EditStoredAlike(GetForUser(s, r, u).chat, GetForUser(t, r, u).chat, c, m, body, f);
    }
  }

  lemma MarkReadAlike(s: Chat, t: Chat, c: Cleanup, m: MessageId, u: UserId)
    requires Alike(s, t, c) && (c.RoomCleanup? ==> c.room !in s.rooms)
    ensures Alike(MarkRead(s, m, u).chat, MarkRead(t, m, u).chat, c)
  {
    if m in s.messages { AccessAlike(s, t, c, s.messages[m].room, u); }
  }

  lemma MarkRoomReadAlike(s: Chat, t: Chat, c: Cleanup, r: RoomId, u: UserId)
    requires Alike(s, t, c) && (c.RoomCleanup? ==> c.room !in s.rooms)
    ensures Alike(MarkRoomRead(s, r, u).chat, MarkRoomRead(t, r, u).chat, c)
  {
    AccessAlike(s, t, c, r, u);
  }

  /** Whether a job is queued depends on the stored jobs alone. */
  lemma EnqueueAlike(s: Chat, t: Chat, c: Cleanup, j: Cleanup)
    requires Alike(s, t, c)
    ensures Alike(Enqueue(s, j), Enqueue(t, j), c)
  {
  }

  /** The delete up to its job. */
  function Unindexed(s: Chat, m: MessageId, unindex: CallResult): Chat
    requires m in s.messages
  {
    var msg := s.messages[m];
    var marked :=
      if msg.isDeleted then s
      else s.(messages := s.messages[m := msg.(isDeleted := true)],
              counters := if msg.room in s.rooms
                          then Decremented(s.counters, msg.room, UnreadMembers(s.rooms[msg.room], msg), 1)
                          else s.counters);
    if unindex.TookEffect() then marked.(index := marked.index - {m}) else marked
  }

  lemma DeleteIs(s: Chat, m: MessageId, u: UserId, unindex: CallResult)
    requires m in s.messages && s.messages[m].sender == u
    ensures var a := Unindexed(s, m, unindex);
            Delete(s, m, u, unindex).chat == if unindex.Raised? then a else Enqueue(a, MessageCleanup(m))
  {
  }

  lemma UnindexedAlike(s: Chat, t: Chat, c: Cleanup, m: MessageId, unindex: CallResult)
    requires Alike(s, t, c) && m in s.messages
    ensures Alike(Unindexed(s, m, unindex), Unindexed(t, m, unindex), c)
  {
    IndexDrop(s.index, t.index, Subjects(c), {m});
  }

  lemma DeleteAlike(s: Chat, t: Chat, c: Cleanup, m: MessageId, u: UserId, unindex: CallResult)
    requires Alike(s, t, c)
    ensures Alike(Delete(s, m, u, unindex).chat, Delete(t, m, u, unindex).chat, c)
  {
    if m in s.messages && s.messages[m].sender == u {
      DeleteIs(s, m, u, unindex);
      DeleteIs(t, m, u, unindex);
      UnindexedAlike(s, t, c, m, unindex);
      EnqueueAlike(Unindexed(s, m, unindex), Unindexed(t, m, unindex), c, MessageCleanup(m));
    }
  }

  lemma DeleteRoomAlike(s: Chat, t: Chat, c: Cleanup, r: RoomId, actor: UserId)
    requires Alike(s, t, c)
    ensures Alike(DeleteRoom(s, r, actor).chat, DeleteRoom(t, r, actor).chat, c)
  {
    if r in s.rooms && s.rooms[r].createdBy == actor {
      var gone := RoomMessages(s.messages, r);
      var a := s.(rooms := s.rooms - {r}, messages := s.messages - gone, counters := ForgetRoom(s.counters, r));
      var b := t.(rooms := s.rooms - {r}, messages := s.messages - gone, counters := ForgetRoom(s.counters, r));
      EnqueueAlike(a, b, c, RoomCleanup(r, gone));
    }
  }

  lemma AddMemberAlike(s: Chat, t: Chat, c: Cleanup, r: RoomId, u: UserId, actor: UserId)
    requires Alike(s, t, c)
    ensures Alike(AddMember(s, r, u, actor).chat, AddMember(t, r, u, actor).chat, c)
  {
    AccessForgotten(s.access, t.access, c, r);
  }

  lemma RemoveMemberAlike(s: Chat, t: Chat, c: Cleanup, r: RoomId, u: UserId, actor: UserId)
    requires Alike(s, t, c)
    ensures Alike(RemoveMember(s, r, u, actor).chat, RemoveMember(t, r, u, actor).chat, c)
  {
    AccessForgotten(s.access, t.access, c, r);
  }

  lemma JoinAlike(s: Chat, t: Chat, c: Cleanup, r: RoomId, token: Token, u: UserId)
    requires Alike(s, t, c)
    ensures Alike(JoinByInvite(s, r, token, u).chat, JoinByInvite(t, r, token, u).chat, c)
  {
    AccessForgotten(s.access, t.access, c, r);
  }

  lemma RemovedAlike(s: Chat, t: Chat, c: Cleanup, r: RoomId, u: UserId)
    requires Alike(s, t, c) && r in s.rooms
    ensures Alike(Removed(s, r, u), Removed(t, r, u), c)
  {
    AccessForgotten(s.access, t.access, c, r);
  }

  lemma LeaveAlike(s: Chat, t: Chat, c: Cleanup, r: RoomId, u: UserId)
    requires Alike(s, t, c) && (c.RoomCleanup? ==> c.room !in s.rooms)
    ensures Alike(Leave(s, r, u).chat, Leave(t, r, u).chat, c)
  {
    AccessAlike(s, t, c, r, u);
    if r in s.rooms {
      RemovedAlike(GetForUser(s, r, u).chat, GetForUser(t, r, u).chat, c, r, u);
    }
  }

  lemma CleanupAlike(s: Chat, t: Chat, c: Cleanup, j: Cleanup, reached: Option<Reach>, lastTry: bool)
    requires Alike(s, t, c)
    ensures Alike(RunCleanup(s, j, reached, lastTry).chat, RunCleanup(t, j, reached, lastTry).chat, c)
  {
    IndexDrop(s.index, t.index, Subjects(c), Subjects(j));
    if reached.Some? { IndexDrop(s.index, t.index, Subjects(c), reached.value.messages * Subjects(j)); }
    if j.RoomCleanup? { AccessForgotten(s.access, t.access, c, j.room); }
  }

  lemma InviteStepAlike(s: Chat, t: Chat, c: Cleanup, op: Op)
    requires Alike(s, t, c) && (op.CreateInviteOp? || op.RevokeInviteOp?)
    ensures Alike(Step(s, op).chat, Step(t, op).chat, c)
  {
  }

  lemma AdminStepAlike(s: Chat, t: Chat, c: Cleanup, op: Op)
    requires Alike(s, t, c) && (op.PromoteOp? || op.DemoteOp?)
    ensures Alike(Step(s, op).chat, Step(t, op).chat, c)
  {
  }

  lemma CreateGroupAlike(s: Chat, t: Chat, c: Cleanup, creator: UserId, others: seq<UserId>)
    requires Alike(s, t, c)
    ensures Alike(CreateGroup(s, creator, others).chat, CreateGroup(t, creator, others).chat, c)
  {
  }

  lemma OpenDmAlike(s: Chat, t: Chat, c: Cleanup, creator: UserId, other: UserId)
    requires Alike(s, t, c)
    ensures Alike(OpenDm(s, creator, other).chat, OpenDm(t, creator, other).chat, c)
  {
    assert (exists r :: r in s.rooms && IsDmOf(s.rooms[r], creator, other)) <==>
           (exists r :: r in t.rooms && IsDmOf(t.rooms[r], creator, other));
  }

  lemma QuietStepAlike(s: Chat, t: Chat, c: Cleanup, op: Op)
    requires Alike(s, t, c)
    requires op.CreateGroupOp? || op.OpenDmOp? || op.CreateInviteOp? || op.RevokeInviteOp? || op.PromoteOp?
             || op.DemoteOp? || op.DeleteRoomOp? || op.ReconcileOp?
    ensures Alike(Step(s, op).chat, Step(t, op).chat, c)
  {
    if op.DeleteRoomOp? {
      DeleteRoomAlike(s, t, c, op.room, op.actor);
    } else if op.CreateGroupOp? {
      CreateGroupAlike(s, t, c, op.creator, op.others);
    } else if op.OpenDmOp? {
      OpenDmAlike(s, t, c, op.creator, op.other);
    } else if op.CreateInviteOp? || op.RevokeInviteOp? {
      InviteStepAlike(s, t, c, op);
    } else if op.PromoteOp? || op.DemoteOp? {
      AdminStepAlike(s, t, c, op);
    }
  }

  lemma MessageStepAlike(s: Chat, t: Chat, c: Cleanup, op: Op)
    requires Alike(s, t, c) && (c.RoomCleanup? ==> c.room !in s.rooms)
    requires op.SendOp? || op.ForwardOp? || op.EditOp? || op.MarkReadOp? || op.MarkRoomReadOp? || op.DeleteOp?
    ensures Alike(Step(s, op).chat, Step(t, op).chat, c)
  {
    match op
    case SendOp(r, u, voice, body, f) => SendMessageAlike(s, t, c, r, u, voice, body, f);
    case ForwardOp(r, u, ids, fs) => ForwardAlike(s, t, c, r, u, ids, fs);
    case EditOp(m, u, body, f) => EditAlike(s, t, c, m, u, body, f);
    case MarkReadOp(m, u) => MarkReadAlike(s, t, c, m, u);
    case MarkRoomReadOp(r, u) => MarkRoomReadAlike(s, t, c, r, u);
    case DeleteOp(m, u, unindex) => DeleteAlike(s, t, c, m, u, unindex);
  }

  lemma MemberStepAlike(s: Chat, t: Chat, c: Cleanup, op: Op)
    requires Alike(s, t, c) && (c.RoomCleanup? ==> c.room !in s.rooms)
    requires op.AddMemberOp? || op.RemoveMemberOp? || op.LeaveOp? || op.JoinOp?
    ensures Alike(Step(s, op).chat, Step(t, op).chat, c)
  {
    match op
    case AddMemberOp(r, u, actor) => AddMemberAlike(s, t, c, r, u, actor);
    case RemoveMemberOp(r, u, actor) => RemoveMemberAlike(s, t, c, r, u, actor);
    case JoinOp(r, token, u) => JoinAlike(s, t, c, r, token, u);
    case LeaveOp(r, u) => LeaveAlike(s, t, c, r, u);
  }

  lemma BackgroundStepAlike(s: Chat, t: Chat, c: Cleanup, op: Op)
    requires Alike(s, t, c) && (c.RoomCleanup? ==> c.room !in s.rooms)
    requires op.GetRoomOp? || op.ExpireAccessOp? || op.RunCleanupOp?
    ensures Alike(Step(s, op).chat, Step(t, op).chat, c)
  {
    match op
    case GetRoomOp(r, u) => AccessAlike(s, t, c, r, u);
    case ExpireAccessOp(keys) => AccessExpired(s.access, t.access, c, keys);
    case RunCleanupOp(j, reached, lastTry) => CleanupAlike(s, t, c, j, reached, lastTry);
  }

  /** No operation tells two such stores apart. */
  lemma StepAlike(s: Chat, t: Chat, c: Cleanup, op: Op)
    requires JobsOk(s) && c in s.pending && Alike(s, t, c)
    ensures Alike(Step(s, op).chat, Step(t, op).chat, c)
  {
    assert JobOk(s, c);
    if op.SendOp? || op.ForwardOp? || op.EditOp? || op.MarkReadOp? || op.MarkRoomReadOp? || op.DeleteOp? {
      MessageStepAlike(s, t, c, op);
    } else if op.CreateGroupOp? || op.OpenDmOp? || op.CreateInviteOp? || op.RevokeInviteOp? || op.PromoteOp?
              || op.DemoteOp? || op.DeleteRoomOp? || op.ReconcileOp? {
      QuietStepAlike(s, t, c, op);
    } else if op.GetRoomOp? || op.ExpireAccessOp? || op.RunCleanupOp? {
      BackgroundStepAlike(s, t, c, op);
    } else {
      MemberStepAlike(s, t, c, op);
    }
  }

  lemma {:induction false} ForwardAllKeepsPending(s: Chat, r: RoomId, u: UserId, sources: seq<Message>,
          fs: seq<SendFaults>)
    requires r in s.rooms
    ensures s.pending <= ForwardAll(s, r, u, sources, fs).pending
  {
    if |sources| != 0 {
      ForwardAllKeepsPending(s, r, u, sources[..|sources| - 1], fs);
    }
  }

  lemma ForwardKeepsPending(s: Chat, r: RoomId, u: UserId, ids: seq<MessageId>, fs: seq<SendFaults>)
    ensures s.pending <= ForwardMessages(s, r, u, ids, fs).chat.pending
  {
    ForwardMessagesSplit(s, r, u, ids, fs);
    if ForwardMessages(s, r, u, ids, fs).reply == Done {
      ForwardAllKeepsPending(Checked(s, r, u, ids), r, u, Lookup(s.messages, ids), fs);
    }
  }

  lemma PendingStays(s: Chat, c: Cleanup, op: Op)
    requires c in s.pending && !IsOf(op, c)
    ensures c in Step(s, op).chat.pending
  {
    match op
    case ForwardOp(r, u, ids, fs) => ForwardKeepsPending(s, r, u, ids, fs);
    case SendOp(r, u, _, _, _) => assert GetForUser(s, r, u).chat.pending == s.pending;
    case DeleteOp(m, u, unindex) =>
      assert m in s.messages ==> Unindexed(s, m, unindex).pending == s.pending;
    case DeleteRoomOp(_, _) =>
    case RunCleanupOp(_, _, _) =>
    case _ => OthersKeepPending(s, op);
  }

  lemma OthersKeepPending(s: Chat, op: Op)
    requires !(op.ForwardOp? || op.SendOp? || op.DeleteOp? || op.DeleteRoomOp? || op.RunCleanupOp?)
    ensures var s' := Step(s, op).chat; s'.pending == s.pending && s'.finished == s.finished && s'.dead == s.dead
  {
    if op.AddMemberOp? || op.RemoveMemberOp? || op.LeaveOp? || op.JoinOp? {
      MemberOpsKeepPending(s, op);
    }
  }

  lemma MemberOpsKeepPending(s: Chat, op: Op)
    requires op.AddMemberOp? || op.RemoveMemberOp? || op.LeaveOp? || op.JoinOp?
    ensures var s' := Step(s, op).chat; s'.pending == s.pending && s'.finished == s.finished && s'.dead == s.dead
  {
  }

  lemma BreakOffAlike(s: Chat, t: Chat, c: Cleanup, reach: Reach)
    requires Alike(s, t, c)
    ensures Alike(s, RunCleanup(t, c, Some(reach), false).chat, c)
  {
    var t' := RunCleanup(t, c, Some(reach), false).chat;
    assert (t.index - reach.messages * Subjects(c)) - Subjects(c) == t.index - Subjects(c);
    if c.RoomCleanup? {
      assert ForgetRoom(ForgetRoom(t.access, c.room), c.room) == ForgetRoom(t.access, c.room);
    }
  }

  /** Completing the job takes out all that was different. */
  lemma CompletionEvens(s: Chat, t: Chat, c: Cleanup)
    requires Alike(s, t, c) && c in s.pending
    ensures RunCleanup(t, c, None, false) == RunCleanup(s, c, None, false)
  {
  }

  lemma {:induction false} AttemptsAreAlike(s: Chat, c: Cleanup, acts: seq<Act>)
    requires Core(s) && JobsOk(s) && c in s.pending
    requires forall i :: 0 <= i < |acts| && acts[i].Other? ==> !IsOf(acts[i].op, c)
    ensures var t := WithoutAttempts(s, acts);
            Core(t) && JobsOk(t) && c in t.pending && Alike(t, WithAttempts(s, c, acts), c)
  {
    if |acts| != 0 {
      var front, a := acts[..|acts| - 1], acts[|acts| - 1];
      AttemptsAreAlike(s, c, front);
      var t := WithoutAttempts(s, front);
      if a.Other? {
        StepKeeps(t, a.op);
        StepAlike(t, WithAttempts(s, c, front), c, a.op);
        PendingStays(t, c, a.op);
      } else {
        BreakOffAlike(t, WithAttempts(s, c, front), c, a.reach);
      }
    }
  }

  /**
   A job whose executions broke off anywhere, any number of times and with anything else in between,
   and which then gets through, leaves the store that one clean execution at the end would leave.
   */
  lemma RetriesMatchOneExecution(s: Chat, c: Cleanup, acts: seq<Act>)
    requires Core(s) && JobsOk(s) && c in s.pending
    requires forall i :: 0 <= i < |acts| && acts[i].Other? ==> !IsOf(acts[i].op, c)
    ensures RunCleanup(WithAttempts(s, c, acts), c, None, false) == RunCleanup(WithoutAttempts(s, acts), c, None, false)
  {
    AttemptsAreAlike(s, c, acts);
    CompletionEvens(WithoutAttempts(s, acts), WithAttempts(s, c, acts), c);
  }

  // ---------- one job per key ----------

  /** Everything stored for jobs, whatever became of it. */
  function Stored(s: Chat): set<Cleanup> {
    s.pending + (s.finished + s.dead)
  }

  /** Two jobs of one message, or of one room. */
  predicate Twins(i: Cleanup, j: Cleanup) {
    if i.MessageCleanup? then j.MessageCleanup? && j.message == i.message
    else j.RoomCleanup? && j.room == i.room
  }

  ghost predicate NoTwins(s: Chat) {
    && (forall i, j :: i in Stored(s) && j in Stored(s) && Twins(i, j) ==> i == j)
    && s.pending !! s.finished && s.pending !! s.dead && s.finished !! s.dead
  }

  /** A job is queued exactly if none is stored for its message or room, be it waiting, done or given up. */
  lemma EnqueueIff(s: Chat, c: Cleanup)
    ensures (exists j :: j in Stored(s) && Twins(j, c)) ==> Enqueue(s, c).pending == s.pending
    ensures !(exists j :: j in Stored(s) && Twins(j, c)) ==> Enqueue(s, c).pending == s.pending + {c}
  {
    assert forall j: Cleanup :: j.SameKey(c) <==> Twins(j, c);
  }

  lemma EnqueueKeepsApart(s: Chat, t: Chat, c: Cleanup)
    requires NoTwins(s) && t.finished == s.finished && t.dead == s.dead
    requires t.pending == s.pending || t.pending == Enqueue(s, c).pending
    ensures NoTwins(t)
  {
    EnqueueIff(s, c);
    if t.pending != s.pending {
      forall j | j in Stored(s) ensures !Twins(j, c) && !Twins(c, j) && j != c {
        assert Twins(c, c);
      }
      forall i, j | i in Stored(t) && j in Stored(t) && Twins(i, j) ensures i == j {
        assert (i in Stored(s) || i == c) && (j in Stored(s) || j == c);
      }
      assert c !in s.finished && c !in s.dead by { assert s.finished <= Stored(s) && s.dead <= Stored(s); }
    }
  }

  lemma SendKeepsApart(s: Chat, r: RoomId, u: UserId, voice: bool, body: Body, f: SendFaults)
    requires NoTwins(s) && r in s.rooms
    ensures NoTwins(SendEncrypted(s, r, u, voice, body, f).chat)
  {
    EnqueueKeepsApart(s, SendEncrypted(s, r, u, voice, body, f).chat, MessageCleanup(s.nextId));
  }

  lemma {:induction false} ForwardAllKeepsApart(s: Chat, r: RoomId, u: UserId, sources: seq<Message>,
                                                fs: seq<SendFaults>)
    requires NoTwins(s) && r in s.rooms
    ensures NoTwins(ForwardAll(s, r, u, sources, fs))
  {
    if |sources| != 0 {
      var i := |sources| - 1;
      ForwardAllKeepsApart(s, r, u, sources[..i], fs);
      SendKeepsApart(ForwardAll(s, r, u, sources[..i], fs), r, u, sources[i].voice,
                     Body(sources[i].body.text, [], None), FaultsAt(fs, i));
    }
  }

  lemma ForwardKeepsApart(s: Chat, r: RoomId, u: UserId, ids: seq<MessageId>, fs: seq<SendFaults>)
    requires NoTwins(s)
    ensures NoTwins(ForwardMessages(s, r, u, ids, fs).chat)
  {
    ForwardMessagesSplit(s, r, u, ids, fs);
    if ForwardMessages(s, r, u, ids, fs).reply == Done {
      ForwardAllKeepsApart(Checked(s, r, u, ids), r, u, Lookup(s.messages, ids), fs);
    }
  }

  lemma DeleteKeepsApart(s: Chat, m: MessageId, u: UserId, unindex: CallResult)
    requires NoTwins(s)
    ensures NoTwins(Delete(s, m, u, unindex).chat)
  {
    if m in s.messages && s.messages[m].sender == u {
      DeleteIs(s, m, u, unindex);
      var a := Unindexed(s, m, unindex);
      assert a.pending == s.pending && a.finished == s.finished && a.dead == s.dead;
      EnqueueKeepsApart(a, Delete(s, m, u, unindex).chat, MessageCleanup(m));
    }
  }

  lemma DeleteRoomKeepsApart(s: Chat, r: RoomId, actor: UserId)
    requires NoTwins(s)
    ensures NoTwins(DeleteRoom(s, r, actor).chat)
  {
    EnqueueKeepsApart(s, DeleteRoom(s, r, actor).chat, RoomCleanup(r, RoomMessages(s.messages, r)));
  }

  /** A job moves between waiting, done and given up. */
  lemma CleanupKeepsApart(s: Chat, c: Cleanup, reached: Option<Reach>, lastTry: bool)
    requires NoTwins(s)
    ensures NoTwins(RunCleanup(s, c, reached, lastTry).chat)
  {
    assert Stored(RunCleanup(s, c, reached, lastTry).chat) == Stored(s);
  }

  lemma StepKeepsApart(s: Chat, op: Op)
    requires NoTwins(s)
    ensures NoTwins(Step(s, op).chat)
  {
    match op
    case SendOp(r, u, voice, body, f) =>
      if Sends(s, r, u) && r in s.rooms { SendKeepsApart(GetForUser(s, r, u).chat, r, u, voice, body, f); }
    case ForwardOp(r, u, ids, fs) => ForwardKeepsApart(s, r, u, ids, fs);
    case DeleteOp(m, u, unindex) => DeleteKeepsApart(s, m, u, unindex);
    case DeleteRoomOp(r, actor) => DeleteRoomKeepsApart(s, r, actor);
    case RunCleanupOp(c, reached, lastTry) => CleanupKeepsApart(s, c, reached, lastTry);
    case _ => OthersKeepPending(s, op);
  }

  /** In every run a message, and a room, has one cleanup job at most, and that is in one state. */
  lemma {:induction false} OneCleanupPerKey(users: set<UserId>, ops: seq<Op>)
    ensures NoTwins(Run(users, ops))
  {
    if |ops| != 0 {
      OneCleanupPerKey(users, ops[..|ops| - 1]);
      StepKeepsApart(Run(users, ops[..|ops| - 1]), ops[|ops| - 1]);
    }
  }
}
