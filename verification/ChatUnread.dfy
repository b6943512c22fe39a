/**
 The unread counter as a maintained view. Every operation keeps each member's row within the number
 of failed sends of the true count; without failed sends it is the true count.
 */
module ChatUnread {
  import opened Wrappers
  import opened ChatModel
  import opened ChatInvariants

  /** The counter of a member is between `low` and `high` above the number of unread messages. */
  ghost predicate Drift(s: Chat, k: Pair, low: int, high: int) {
    k.0 in s.rooms && k.1 in MemberIds(s.rooms[k.0]) ==>
      TrueUnread(s.messages, k.0, k.1) + low <= CounterOf(s.counters, k) <= TrueUnread(s.messages, k.0, k.1) + high
  }

  // ---------- cardinality ----------

  function Bit(b: bool): nat {
    if b then 1 else 0
  }

  predicate Hits(messages: map<MessageId, Message>, m: MessageId, r: RoomId, u: UserId) {
    m in messages && IsUnread(messages[m], r, u)
  }

  /** Writing one message moves every count by that message only. */
  lemma CountWrite(messages: map<MessageId, Message>, m: MessageId, msg: Message, r: RoomId, u: UserId)
    ensures TrueUnread(messages[m := msg], r, u)
            == TrueUnread(messages, r, u) - Bit(Hits(messages, m, r, u)) + Bit(IsUnread(msg, r, u))
  {
    var rest := UnreadIds(messages, r, u) - {m};
    assert UnreadIds(messages[m := msg], r, u) == if IsUnread(msg, r, u) then rest + {m} else rest;
    if Hits(messages, m, r, u) {
      assert UnreadIds(messages, r, u) == rest + {m};
    } else {
      assert UnreadIds(messages, r, u) == rest;
    }
  }

  lemma CountRemove(messages: map<MessageId, Message>, gone: set<MessageId>, r: RoomId, u: UserId)
    requires forall m :: m in gone ==> !Hits(messages, m, r, u)
    ensures TrueUnread(messages - gone, r, u) == TrueUnread(messages, r, u)
  {
    assert UnreadIds(messages - gone, r, u) == UnreadIds(messages, r, u);
  }

  /** Marking a room read empties the reader's count there and touches no other. */
  lemma CountAllRead(messages: map<MessageId, Message>, r: RoomId, u: UserId, k: Pair)
    ensures TrueUnread(AllRead(messages, r, u), k.0, k.1)
            == if k == (r, u) then 0 else TrueUnread(messages, k.0, k.1)
  {
    var after := AllRead(messages, r, u);
    if k == (r, u) {
      assert UnreadIds(after, r, u) == {};
    } else {
      assert forall m :: m in messages ==> IsUnread(after[m], k.0, k.1) == IsUnread(messages[m], k.0, k.1);
      assert UnreadIds(after, k.0, k.1) == UnreadIds(messages, k.0, k.1);
    }
  }

  /** Messages that keep room, sender, readers and deletion keep every count. */
  lemma CountSame(before: map<MessageId, Message>, after: map<MessageId, Message>, k: Pair)
    requires before.Keys == after.Keys
    requires forall m :: m in before ==> after[m].(body := before[m].body) == before[m]
    ensures TrueUnread(after, k.0, k.1) == TrueUnread(before, k.0, k.1)
  {
    assert forall m :: m in before ==> IsUnread(after[m], k.0, k.1) == IsUnread(before[m], k.0, k.1);
    assert UnreadIds(after, k.0, k.1) == UnreadIds(before, k.0, k.1);
  }

  /** A room without messages has nothing unread. */
  lemma CountEmpty(messages: map<MessageId, Message>, r: RoomId, u: UserId)
    requires forall m :: m in messages ==> messages[m].room != r
    ensures TrueUnread(messages, r, u) == 0
  {
    assert UnreadIds(messages, r, u) == {};
  }

  // ---------- what an operation adds to the drift ----------

  /**
   What a send adds to the counter of user v beyond what it adds to the messages v has not read: 1 if
   v was counted and the message is gone, -1 if v was not counted and the message stays.
   */
  function Net(room: Room, sender: UserId, f: SendFaults, v: UserId): int {
    var to := Recipients(room, sender);
    Bit(CountsReached(f) && v in Reached(room, sender, f)) - Bit(Stays(f, to != []) && v in to)
  }

  function NetOfAll(room: Room, sender: UserId, n: nat, fs: seq<SendFaults>, v: UserId): int {
    if n == 0 then 0 else NetOfAll(room, sender, n - 1, fs, v) + Net(room, sender, FaultsAt(fs, n - 1), v)
  }

  function OpNet(s: Chat, op: Op, k: Pair): int {
    match op
    case SendOp(r, u, _, _, f) => if r == k.0 && r in s.rooms && Sends(s, r, u) then Net(s.rooms[r], u, f, k.1) else 0
    case ForwardOp(r, u, ids, fs) =>
      if r == k.0 && r in s.rooms && ForwardMessages(s, r, u, ids, fs).reply == Done
      then NetOfAll(s.rooms[r], u, |ids|, fs, k.1) else 0
    case _ => 0
  }

  /** The counter is set to the true count, or the user only becomes a member now, if at all. */
  predicate Resets(s: Chat, op: Op, k: Pair) {
    || k !in ValidPairs(s.rooms)
    || op.ReconcileOp?
    || (op.AddMemberOp? && (op.room, op.user) == k && AddMember(s, op.room, op.user, op.actor).reply == Done)
  }

  // ---------- one operation ----------

  lemma IncrementAt(counters: map<Pair, int>, r: RoomId, us: set<UserId>, k: Pair)
    ensures CounterOf(Incremented(counters, r, us), k) == CounterOf(counters, k) + Bit(k.0 == r && k.1 in us)
  {
  }

  lemma SendDrifts(s: Chat, r: RoomId, sender: UserId, voice: bool, body: Body, f: SendFaults, k: Pair,
          low: int, high: int)
    requires Core(s) && r in s.rooms && Drift(s, k, low, high)
    ensures var d := if k.0 == r then Net(s.rooms[r], sender, f, k.1) else 0;
            Drift(SendEncrypted(s, r, sender, voice, body, f).chat, k, low + d, high + d)
  {
    var reached := Reached(s.rooms[r], sender, f);
    CountWrite(s.messages, s.nextId, NewMessage(r, sender, voice, body), k.0, k.1);
    CountRemove(s.messages, {s.nextId}, k.0, k.1);
    IncrementAt(s.counters, r, reached, k);
    if k.0 == r && k.1 in MemberIds(s.rooms[r]) {
      assert k.1 in Recipients(s.rooms[r], sender) <==> k.1 != sender;
    }
  }

  lemma {:induction false} ForwardDrifts(s: Chat, r: RoomId, u: UserId, sources: seq<Message>, fs: seq<SendFaults>,
                                         k: Pair, low: int, high: int)
    requires Core(s) && r in s.rooms && Drift(s, k, low, high)
    ensures var d := if k.0 == r then NetOfAll(s.rooms[r], u, |sources|, fs, k.1) else 0;
            Drift(ForwardAll(s, r, u, sources, fs), k, low + d, high + d)
  {
    if |sources| != 0 {
      var i := |sources| - 1;
      var d := if k.0 == r then NetOfAll(s.rooms[r], u, i, fs, k.1) else 0;
      ForwardDrifts(s, r, u, sources[..i], fs, k, low, high);
      ForwardKeeps(s, r, u, sources[..i], fs);
      SendDrifts(ForwardAll(s, r, u, sources[..i], fs), r, u, sources[i].voice,
                 Body(sources[i].body.text, [], None), FaultsAt(fs, i), k, low + d, high + d);
    }
  }

  lemma SendMessageDrifts(s: Chat, r: RoomId, u: UserId, voice: bool, body: Body, f: SendFaults, k: Pair,
          low: int, high: int)
    requires Core(s) && Drift(s, k, low, high)
    ensures var d := OpNet(s, SendOp(r, u, voice, body, f), k);
            Drift(SendMessage(s, r, u, voice, body, f).chat, k, low + d, high + d)
  {
    GetForUserKeeps(s, r, u);
    if Sends(s, r, u) { SendDrifts(GetForUser(s, r, u).chat, r, u, voice, body, f, k, low, high); }
  }

  lemma ForwardMessagesDrifts(s: Chat, r: RoomId, u: UserId, ids: seq<MessageId>, fs: seq<SendFaults>,
                              k: Pair, low: int, high: int)
    requires Core(s) && JobsOk(s) && Drift(s, k, low, high)
    ensures var d := OpNet(s, ForwardOp(r, u, ids, fs), k);
            Drift(ForwardMessages(s, r, u, ids, fs).chat, k, low + d, high + d)
  {
    ForwardMessagesSplit(s, r, u, ids, fs);
    if ForwardMessages(s, r, u, ids, fs).reply == Done {
      CheckedKeeps(s, r, u, ids);
      ForwardDrifts(Checked(s, r, u, ids), r, u, Lookup(s.messages, ids), fs, k, low, high);
    }
  }

  lemma EditDrifts(s: Chat, m: MessageId, u: UserId, body: Body, f: EditFaults, k: Pair, low: int, high: int)
    requires Core(s) && Drift(s, k, low, high)
    ensures Drift(Edit(s, m, u, body, f).chat, k, low, high)
  {
    if m in s.messages {
      GetForUserKeeps(s, s.messages[m].room, u);
      CountSame(s.messages, Edit(s, m, u, body, f).chat.messages, k);
    }
  }

  /** Lowering rows of members who have that much unread moves row and count alike, but for the clamp. */
  lemma DecrementAt(counters: map<Pair, int>, r: RoomId, us: set<UserId>, amount: nat, k: Pair)
    requires k in counters ==> counters[k] >= 0
    ensures CounterOf(Decremented(counters, r, us, amount), k) ==
            if k.0 == r && k.1 in us then Max0(CounterOf(counters, k) - amount) else CounterOf(counters, k)
  {
  }

  lemma MarkReadDrifts(s: Chat, m: MessageId, u: UserId, k: Pair, low: int, high: nat)
    requires Core(s) && Drift(s, k, low, high)
    ensures Drift(MarkRead(s, m, u).chat, k, low, high)
  {
    if m in s.messages {
      var msg := s.messages[m];
      GetForUserKeeps(s, msg.room, u);
      DecrementAt(s.counters, msg.room, {u}, 1, k);
      CountWrite(s.messages, m, msg.(readBy := msg.readBy + {u}), k.0, k.1);
    }
  }

  lemma MarkRoomReadDrifts(s: Chat, r: RoomId, u: UserId, k: Pair, low: int, high: nat)
    requires Core(s) && Drift(s, k, low, high)
    ensures Drift(MarkRoomRead(s, r, u).chat, k, low, high)
  {
    GetForUserKeeps(s, r, u);
    if GetForUser(s, r, u).reply == Done && u in s.users {
      CountAllRead(s.messages, r, u, k);
      DecrementAt(s.counters, r, {u}, TrueUnread(s.messages, r, u), k);
    }
  }

  lemma DeleteDrifts(s: Chat, m: MessageId, u: UserId, unindex: CallResult, k: Pair, low: int, high: nat)
    requires Core(s) && Drift(s, k, low, high)
    ensures Drift(Delete(s, m, u, unindex).chat, k, low, high)
  {
    if m in s.messages && s.messages[m].sender == u {
      DeleteWrites(s, m, u, unindex);
      var msg := s.messages[m];
      CountWrite(s.messages, m, msg.(isDeleted := true), k.0, k.1);
      var us := UnreadMembers(s.rooms[msg.room], msg);
      DecrementAt(s.counters, msg.room, us, 1, k);
      if k.0 in s.rooms && k.1 in MemberIds(s.rooms[k.0]) {
        assert !msg.isDeleted ==> (Hits(s.messages, m, k.0, k.1) <==> k.0 == msg.room && k.1 in us);
      }
    }
  }

  lemma JoinedDrifts(s: Chat, r: RoomId, u: UserId, k: Pair, low: int, high: int)
    requires Core(s) && r in s.rooms && Drift(s, k, low, high)
    ensures if k == (r, u) then Drift(Joined(s, r, u), k, 0, 0) else Drift(Joined(s, r, u), k, low, high)
  {
  }

  lemma RemovedDrifts(s: Chat, r: RoomId, u: UserId, k: Pair, low: int, high: int)
    requires Core(s) && r in s.rooms && Drift(s, k, low, high) && u != s.rooms[r].createdBy
    ensures Drift(Removed(s, r, u), k, low, high)
  {
  }

  lemma AddMemberDrifts(s: Chat, r: RoomId, u: UserId, actor: UserId, k: Pair, low: int, high: int)
    requires Core(s) && Drift(s, k, low, high)
    ensures if k == (r, u) && AddMember(s, r, u, actor).reply == Done
            then Drift(AddMember(s, r, u, actor).chat, k, 0, 0)
            else Drift(AddMember(s, r, u, actor).chat, k, low, high)
  {
    if r in s.rooms { JoinedDrifts(s, r, u, k, low, high); }
  }

  lemma JoinByInviteDrifts(s: Chat, r: RoomId, token: Token, u: UserId, k: Pair, low: int, high: int)
    requires Core(s) && Drift(s, k, low, high)
    ensures if k in ValidPairs(s.rooms) then Drift(JoinByInvite(s, r, token, u).chat, k, low, high)
            else Drift(JoinByInvite(s, r, token, u).chat, k, 0, 0)
  {
    if r in s.rooms { JoinedDrifts(s, r, u, k, low, high); }
  }

  lemma RemoveMemberDrifts(s: Chat, r: RoomId, u: UserId, actor: UserId, k: Pair, low: int, high: int)
    requires Core(s) && Drift(s, k, low, high)
    ensures Drift(RemoveMember(s, r, u, actor).chat, k, low, high)
  {
    if r in s.rooms && u != s.rooms[r].createdBy { RemovedDrifts(s, r, u, k, low, high); }
  }

  lemma LeaveDrifts(s: Chat, r: RoomId, u: UserId, k: Pair, low: int, high: int)
    requires Core(s) && Drift(s, k, low, high)
    ensures Drift(Leave(s, r, u).chat, k, low, high)
  {
    GetForUserKeeps(s, r, u);
    if r in s.rooms && u != s.rooms[r].createdBy {
      RemovedDrifts(GetForUser(s, r, u).chat, r, u, k, low, high);
    }
  }

  /** A write that changes neither members, messages nor rows. */
  lemma SameMembersDrifts(s: Chat, s': Chat, k: Pair, low: int, high: int)
    requires Drift(s, k, low, high) && SameMembers(s, s')
    ensures Drift(s', k, low, high)
  {
  }

  lemma DeleteRoomDrifts(s: Chat, r: RoomId, actor: UserId, k: Pair, low: int, high: int)
    requires Core(s) && Drift(s, k, low, high)
    ensures Drift(DeleteRoom(s, r, actor).chat, k, low, high)
  {
    if k.0 != r { CountRemove(s.messages, RoomMessages(s.messages, r), k.0, k.1); }
  }

  /** A complete room cleanup is for a room that is gone, so it takes no live row. */
  lemma RunCleanupDrifts(s: Chat, c: Cleanup, reached: Option<Reach>, lastTry: bool, k: Pair, low: int, high: int)
    requires Core(s) && JobsOk(s) && Drift(s, k, low, high)
    ensures Drift(RunCleanup(s, c, reached, lastTry).chat, k, low, high)
  {
    assert c in s.pending ==> JobOk(s, c);
  }

  lemma ReconcileRestores(s: Chat, k: Pair)
    ensures Drift(Reconcile(s).chat, k, 0, 0)
  {
    assert k in ValidPairs(s.rooms) <==> k.0 in s.rooms && k.1 in MemberIds(s.rooms[k.0]);
  }

  /** A new room starts with nothing unread and no rows. */
  lemma NewRoomDrifts(s: Chat, room: Room, k: Pair, low: int, high: int)
    requires Core(s) && Drift(s, k, low, high)
    ensures var s' := s.(nextId := s.nextId + 1, rooms := s.rooms[s.nextId := room]);
            if k in ValidPairs(s.rooms) then Drift(s', k, low, high) else Drift(s', k, 0, 0)
  {
    if k.0 !in s.rooms { CountEmpty(s.messages, k.0, k.1); }
  }

  lemma CreateGroupDrifts(s: Chat, u: UserId, others: seq<UserId>, k: Pair, low: int, high: int)
    requires Core(s) && Drift(s, k, low, high)
    ensures var s' := CreateGroup(s, u, others).chat;
            if k in ValidPairs(s.rooms) then Drift(s', k, low, high) else Drift(s', k, 0, 0)
  {
    NewRoomDrifts(s, Room(true, Dedupe([u] + others), u, [], None), k, low, high);
  }

  lemma OpenDmDrifts(s: Chat, u: UserId, other: UserId, k: Pair, low: int, high: int)
    requires Core(s) && Drift(s, k, low, high)
    ensures var s' := OpenDm(s, u, other).chat;
            if k in ValidPairs(s.rooms) then Drift(s', k, low, high) else Drift(s', k, 0, 0)
  {
    NewRoomDrifts(s, Room(false, [u, other], u, [], None), k, low, high);
  }

  lemma MessageStepDrifts(s: Chat, op: Op, k: Pair, low: int, high: nat)
    requires Core(s) && JobsOk(s) && Drift(s, k, low, high)
    requires op.SendOp? || op.ForwardOp? || op.EditOp? || op.MarkReadOp? || op.MarkRoomReadOp? || op.DeleteOp?
    ensures Drift(Step(s, op).chat, k, low + OpNet(s, op, k), high + OpNet(s, op, k))
  {
    match op
    case SendOp(r, u, voice, body, f) => SendMessageDrifts(s, r, u, voice, body, f, k, low, high);
    case ForwardOp(r, u, ids, fs) => ForwardMessagesDrifts(s, r, u, ids, fs, k, low, high);
    case EditOp(m, u, body, f) => EditDrifts(s, m, u, body, f, k, low, high);
    case MarkReadOp(m, u) => MarkReadDrifts(s, m, u, k, low, high);
    case MarkRoomReadOp(r, u) => MarkRoomReadDrifts(s, r, u, k, low, high);
    case DeleteOp(m, u, unindex) => DeleteDrifts(s, m, u, unindex, k, low, high);
  }

  lemma AddStepDrifts(s: Chat, op: Op, k: Pair, low: int, high: int)
    requires Core(s) && Drift(s, k, low, high) && (op.AddMemberOp? || op.JoinOp?)
    requires k !in ValidPairs(s.rooms) ==> low == high == 0
    ensures if Resets(s, op, k) then Drift(Step(s, op).chat, k, 0, 0) else Drift(Step(s, op).chat, k, low, high)
  {
    match op
    case AddMemberOp(r, u, actor) => AddMemberDrifts(s, r, u, actor, k, low, high);
    case JoinOp(r, token, u) => JoinByInviteDrifts(s, r, token, u, k, low, high);
  }

  lemma RemoveStepDrifts(s: Chat, op: Op, k: Pair, low: int, high: int)
    requires Core(s) && Drift(s, k, low, high) && (op.RemoveMemberOp? || op.LeaveOp?)
    ensures Drift(Step(s, op).chat, k, low, high)
  {
    match op
    case RemoveMemberOp(r, u, actor) => RemoveMemberDrifts(s, r, u, actor, k, low, high);
    case LeaveOp(r, u) => LeaveDrifts(s, r, u, k, low, high);
  }

  lemma CreateStepDrifts(s: Chat, op: Op, k: Pair, low: int, high: int)
    requires Core(s) && Drift(s, k, low, high) && (op.CreateGroupOp? || op.OpenDmOp?)
    ensures if Resets(s, op, k) then Drift(Step(s, op).chat, k, 0, 0) else Drift(Step(s, op).chat, k, low, high)
  {
    match op
    case CreateGroupOp(u, others) => CreateGroupDrifts(s, u, others, k, low, high);
    case OpenDmOp(u, other) => OpenDmDrifts(s, u, other, k, low, high);
  }

  lemma AdminStepDrifts(s: Chat, op: Op, k: Pair, low: int, high: int)
    requires Drift(s, k, low, high) && (op.CreateInviteOp? || op.RevokeInviteOp? || op.PromoteOp? || op.DemoteOp?)
    ensures Drift(Step(s, op).chat, k, low, high)
  {
    match op
    case CreateInviteOp(r, actor, token) => SameMembersDrifts(s, CreateInvite(s, r, actor, token).chat, k, low, high);
    case RevokeInviteOp(r, actor) => SameMembersDrifts(s, RevokeInvite(s, r, actor).chat, k, low, high);
    case PromoteOp(r, u, actor) => SameMembersDrifts(s, Promote(s, r, u, actor).chat, k, low, high);
    case DemoteOp(r, u, actor) => SameMembersDrifts(s, Demote(s, r, u, actor).chat, k, low, high);
  }

  lemma OtherStepDrifts(s: Chat, op: Op, k: Pair, low: int, high: int)
    requires Core(s) && JobsOk(s) && Drift(s, k, low, high)
    requires op.DeleteRoomOp? || op.GetRoomOp? || op.ExpireAccessOp? || op.RunCleanupOp?
    ensures Drift(Step(s, op).chat, k, low, high)
  {
    match op
    case DeleteRoomOp(r, actor) => DeleteRoomDrifts(s, r, actor, k, low, high);
    case GetRoomOp(r, u) => GetForUserKeeps(s, r, u);
    case ExpireAccessOp(_) =>
    case RunCleanupOp(job, reached, lastTry) => RunCleanupDrifts(s, job, reached, lastTry, k, low, high);
  }

  lemma StepDriftsFrom(s: Chat, op: Op, k: Pair, low: int, high: nat)
    requires Core(s) && JobsOk(s) && Drift(s, k, low, high)
    requires k !in ValidPairs(s.rooms) ==> low == high == 0
    requires !(op.SendOp? || op.ForwardOp? || op.EditOp? || op.MarkReadOp? || op.MarkRoomReadOp? || op.DeleteOp?)
    ensures if Resets(s, op, k) then Drift(Step(s, op).chat, k, 0, 0) else Drift(Step(s, op).chat, k, low, high)
  {
    if op.ReconcileOp? {
      ReconcileRestores(s, k);
    } else if op.CreateInviteOp? || op.RevokeInviteOp? || op.PromoteOp? || op.DemoteOp? {
      AdminStepDrifts(s, op, k, low, high);
    } else if op.DeleteRoomOp? || op.GetRoomOp? || op.ExpireAccessOp? || op.RunCleanupOp? {
      OtherStepDrifts(s, op, k, low, high);
    } else if op.AddMemberOp? || op.JoinOp? {
      AddStepDrifts(s, op, k, low, high);
    } else if op.RemoveMemberOp? || op.LeaveOp? {
      RemoveStepDrifts(s, op, k, low, high);
    } else {
      CreateStepDrifts(s, op, k, low, high);
    }
  }

  /** What one operation does to the bounds of one counter; the clamp at 0 can only lift a counter that is short. */
  lemma StepDrifts(s: Chat, op: Op, k: Pair, low: int, high: nat)
    requires Core(s) && JobsOk(s) && Drift(s, k, low, high)
    ensures if Resets(s, op, k) then Drift(Step(s, op).chat, k, 0, 0)
            else Drift(Step(s, op).chat, k, low + OpNet(s, op, k), Max0(high + OpNet(s, op, k)))
  {
    if op.SendOp? || op.ForwardOp? || op.EditOp? || op.MarkReadOp? || op.MarkRoomReadOp? || op.DeleteOp? {
      MessageStepDrifts(s, op, k, low, high);
      MessageStepKeepsRooms(s, op);
    } else if k in ValidPairs(s.rooms) {
      StepDriftsFrom(s, op, k, low, high);
    } else {
      StepDriftsFrom(s, op, k, 0, 0);
    }
  }

  // ---------- whole runs ----------

  /** How far above the true count the counter is at least: the sum of what operations added since its last reset. */
  function RunLow(users: set<UserId>, ops: seq<Op>, k: Pair): int {
    if |ops| == 0 then 0
    else
      var s, op := Run(users, ops[..|ops| - 1]), ops[|ops| - 1];
      if Resets(s, op, k) then 0 else RunLow(users, ops[..|ops| - 1], k) + OpNet(s, op, k)
  }

  /** The same sum, kept at 0 from below. */
  function RunHigh(users: set<UserId>, ops: seq<Op>, k: Pair): nat {
    if |ops| == 0 then 0
    else
      var s, op := Run(users, ops[..|ops| - 1]), ops[|ops| - 1];
      if Resets(s, op, k) then 0 else Max0(RunHigh(users, ops[..|ops| - 1], k) + OpNet(s, op, k))
  }

  /** In every serial run, with faults anywhere in its sends, each member's counter is within these bounds. */
  lemma {:induction false} CounterWithinBounds(users: set<UserId>, ops: seq<Op>, k: Pair)
    ensures Drift(Run(users, ops), k, RunLow(users, ops, k), RunHigh(users, ops, k))
  {
    if |ops| != 0 {
      var earlier := ops[..|ops| - 1];
      RunKeepsCore(users, earlier);
      CounterWithinBounds(users, earlier, k);
      StepDrifts(Run(users, earlier), ops[|ops| - 1], k, RunLow(users, earlier, k), RunHigh(users, earlier, k));
    }
  }

  /** No operation of the run leaves the user short of a message that stays. */
  ghost predicate NeverShort(users: set<UserId>, ops: seq<Op>, k: Pair) {
    forall i :: 0 <= i < |ops| ==> OpNet(Run(users, ops[..i]), ops[i], k) >= 0
  }

  lemma NeverShortBefore(users: set<UserId>, ops: seq<Op>, k: Pair)
    requires NeverShort(users, ops, k) && |ops| != 0
    ensures NeverShort(users, ops[..|ops| - 1], k)
    ensures OpNet(Run(users, ops[..|ops| - 1]), ops[|ops| - 1], k) >= 0
  {
    var front := ops[..|ops| - 1];
    forall i | 0 <= i < |front| ensures OpNet(Run(users, front[..i]), front[i], k) >= 0 {
      assert front[..i] == ops[..i] && front[i] == ops[i];
    }
  }

  lemma {:induction false} BoundsMeet(users: set<UserId>, ops: seq<Op>, k: Pair)
    requires NeverShort(users, ops, k)
    ensures RunLow(users, ops, k) == RunHigh(users, ops, k)
  {
    if |ops| != 0 {
      NeverShortBefore(users, ops, k);
      BoundsMeet(users, ops[..|ops| - 1], k);
    }
  }

  /**
   As long as no send leaves a member short of a message that stays, the member's counter is exactly the
   true count plus the sends that counted them and were taken back since the counter was last set.
   */
  lemma CounterIsCountPlusTakenBack(users: set<UserId>, ops: seq<Op>, k: Pair)
    requires NeverShort(users, ops, k) && k in ValidPairs(Run(users, ops).rooms)
    ensures var s := Run(users, ops);
            CounterOf(s.counters, k) == TrueUnread(s.messages, k.0, k.1) + RunLow(users, ops, k)
  {
    CounterWithinBounds(users, ops, k);
    BoundsMeet(users, ops, k);
  }

  // ---------- bounds from the faults alone ----------

  /** Counted, then taken back: a counter may be too high. */
  predicate Overcounts(f: SendFaults) {
    CountsReached(f) && f.increments.Some? && f.drop.TookEffect()
  }

  /** Kept, but not counted for everyone: a counter may be too low. */
  predicate Undercounts(f: SendFaults) {
    f.insert.TookEffect()
    && (f.insert.Raised? || !f.previewOk || ((f.index.Raised? || f.increments.Some?) && !f.drop.TookEffect()))
  }

  function OverOfAll(n: nat, fs: seq<SendFaults>): nat {
    if n == 0 then 0 else OverOfAll(n - 1, fs) + Bit(Overcounts(FaultsAt(fs, n - 1)))
  }

  function UnderOfAll(n: nat, fs: seq<SendFaults>): nat {
    if n == 0 then 0 else UnderOfAll(n - 1, fs) + Bit(Undercounts(FaultsAt(fs, n - 1)))
  }

  function OpOver(op: Op, r: RoomId): nat {
    match op
    case SendOp(r', _, _, _, f) => if r' == r then Bit(Overcounts(f)) else 0
    case ForwardOp(r', _, ids, fs) => if r' == r then OverOfAll(|ids|, fs) else 0
    case _ => 0
  }

  function OpUnder(op: Op, r: RoomId): nat {
    match op
    case SendOp(r', _, _, _, f) => if r' == r then Bit(Undercounts(f)) else 0
    case ForwardOp(r', _, ids, fs) => if r' == r then UnderOfAll(|ids|, fs) else 0
    case _ => 0
  }

  /** Sends to r that were taken back after counters moved, since the last reconciliation. */
  function RunOver(ops: seq<Op>, r: RoomId): nat {
    if |ops| == 0 || ops[|ops| - 1].ReconcileOp? then 0
    else RunOver(ops[..|ops| - 1], r) + OpOver(ops[|ops| - 1], r)
  }

  /** Sends to r that failed yet left their message, since the last reconciliation. */
  function RunUnder(ops: seq<Op>, r: RoomId): nat {
    if |ops| == 0 || ops[|ops| - 1].ReconcileOp? then 0
    else RunUnder(ops[..|ops| - 1], r) + OpUnder(ops[|ops| - 1], r)
  }

  lemma NetBounds(room: Room, sender: UserId, f: SendFaults, v: UserId)
    ensures 0 - Bit(Undercounts(f)) <= Net(room, sender, f, v) <= Bit(Overcounts(f))
  {
    var to := Recipients(room, sender);
    assert v in Reached(room, sender, f) ==> v in to;
    assert f.increments.None? ==> (v in Reached(room, sender, f) <==> v in to);
  }

  lemma {:induction false} NetOfAllBounds(room: Room, sender: UserId, n: nat, fs: seq<SendFaults>, v: UserId)
    ensures 0 - UnderOfAll(n, fs) <= NetOfAll(room, sender, n, fs, v) <= OverOfAll(n, fs)
  {
    if n != 0 {
      NetOfAllBounds(room, sender, n - 1, fs, v);
      NetBounds(room, sender, FaultsAt(fs, n - 1), v);
    }
  }

  lemma OpNetBounds(s: Chat, op: Op, k: Pair)
    ensures 0 - OpUnder(op, k.0) <= OpNet(s, op, k) <= OpOver(op, k.0)
  {
    match op
    case SendOp(r, u, _, _, f) => if r in s.rooms { NetBounds(s.rooms[r], u, f, k.1); }
    case ForwardOp(r, u, ids, fs) => if r in s.rooms { NetOfAllBounds(s.rooms[r], u, |ids|, fs, k.1); }
    case _ =>
  }

  lemma {:induction false} RunBounds(users: set<UserId>, ops: seq<Op>, k: Pair)
    ensures 0 - RunUnder(ops, k.0) <= RunLow(users, ops, k) && RunHigh(users, ops, k) <= RunOver(ops, k.0)
  {
    if |ops| != 0 {
      RunBounds(users, ops[..|ops| - 1], k);
      OpNetBounds(Run(users, ops[..|ops| - 1]), ops[|ops| - 1], k);
    }
  }

  /**
   In every serial run, with faults anywhere in its sends, each member's counter is within the number
   of failed sends to the room since the last reconciliation of the count over all messages.
   */
  lemma CounterWithinFailedSends(users: set<UserId>, ops: seq<Op>, k: Pair)
    ensures Drift(Run(users, ops), k, 0 - RunUnder(ops, k.0), RunOver(ops, k.0))
  {
    CounterWithinBounds(users, ops, k);
    RunBounds(users, ops, k);
  }

  /** No send of the run fails. */
  predicate Faultless(op: Op) {
    match op
    case SendOp(_, _, _, _, f) => f == NO_FAULTS
    case ForwardOp(_, _, _, fs) => forall i :: 0 <= i < |fs| ==> fs[i] == NO_FAULTS
    case _ => true
  }

  lemma {:induction false} FaultlessItems(n: nat, fs: seq<SendFaults>)
    requires forall i :: 0 <= i < |fs| ==> fs[i] == NO_FAULTS
    ensures OverOfAll(n, fs) == 0 && UnderOfAll(n, fs) == 0
  {
    if n != 0 { FaultlessItems(n - 1, fs); }
  }

  lemma {:induction false} FaultlessRun(ops: seq<Op>, r: RoomId)
    requires forall i :: 0 <= i < |ops| ==> Faultless(ops[i])
    ensures RunOver(ops, r) == 0 && RunUnder(ops, r) == 0
  {
    if |ops| != 0 {
      FaultlessRun(ops[..|ops| - 1], r);
      var op := ops[|ops| - 1];
      if op.ForwardOp? { FaultlessItems(|op.sources|, op.itemFaults); }
    }
  }

  /** What the count counts. */
  lemma UnreadIs(messages: map<MessageId, Message>, r: RoomId, u: UserId)
    ensures TrueUnread(messages, r, u) ==
            |set m | m in messages && messages[m].room == r && !messages[m].isDeleted
                     && messages[m].sender != u && u !in messages[m].readBy|
  {
    assert UnreadIds(messages, r, u) ==
           set m | m in messages && messages[m].room == r && !messages[m].isDeleted
                   && messages[m].sender != u && u !in messages[m].readBy;
  }

  /**
   After any serial run without failed sends, every member's counter is exactly the number of
   undeleted messages of the room that the member neither sent nor read, and nobody else has a row.
   */
  lemma CounterIsTrueUnread(users: set<UserId>, ops: seq<Op>, k: Pair)
    requires forall i :: 0 <= i < |ops| ==> Faultless(ops[i])
    ensures var s := Run(users, ops);
      if k.0 in s.rooms && (k.1 == s.rooms[k.0].createdBy || k.1 in s.rooms[k.0].members) then
        (if k in s.counters then s.counters[k] else 0) ==
        |set m | m in s.messages && s.messages[m].room == k.0 && !s.messages[m].isDeleted
                 && s.messages[m].sender != k.1 && k.1 !in s.messages[m].readBy|
      else k !in s.counters
  {
    UnreadIs(Run(users, ops).messages, k.0, k.1);
    RunKeepsCore(users, ops);
    CounterWithinFailedSends(users, ops, k);
    FaultlessRun(ops, k.0);
  }

  /** Whatever an open request sees of a room, it sees exactly as a member: the cache never misleads. */
  lemma AccessIsMembership(users: set<UserId>, ops: seq<Op>, r: RoomId, u: UserId)
    ensures var s := Run(users, ops);
      GetForUser(s, r, u).reply == Done <==> r in s.rooms && u in MemberIds(s.rooms[r])
  {
    RunKeepsCore(users, ops);
    GetForUserKeeps(Run(users, ops), r, u);
  }

  // ---------- the clamp ----------

  /** Decrementing without the clamp. */
  function Subtracted(counters: map<Pair, int>, r: RoomId, us: set<UserId>, amount: int): map<Pair, int> {
    map k | k in counters :: if k.0 == r && k.1 in us then counters[k] - amount else counters[k]
  }

  lemma NothingClamped(counters: map<Pair, int>, r: RoomId, us: set<UserId>, amount: int)
    requires forall u :: u in us && (r, u) in counters ==> counters[(r, u)] >= amount
    ensures Decremented(counters, r, us, amount) == Subtracted(counters, r, us, amount)
  {
    forall k | k in counters && k.0 == r && k.1 in us ensures counters[k] >= amount {
      assert k == (r, k.1);
    }
  }

  /** A row that is not short shows at least what is unread. */
  lemma RowAtLeast(users: set<UserId>, ops: seq<Op>, k: Pair)
    requires RunLow(users, ops, k) >= 0
    ensures var s := Run(users, ops); k in s.counters ==> s.counters[k] >= TrueUnread(s.messages, k.0, k.1)
  {
    RunKeepsCore(users, ops);
    CounterWithinBounds(users, ops, k);
  }

  lemma SomeUnread(messages: map<MessageId, Message>, m: MessageId, r: RoomId, u: UserId)
    requires Hits(messages, m, r, u)
    ensures TrueUnread(messages, r, u) >= 1
  {
    assert m in UnreadIds(messages, r, u);
    assert UnreadIds(messages, r, u) == UnreadIds(messages, r, u) - {m} + {m};
  }

  /** As long as the reader's counter is not short, marking a room or an unread message read never meets the clamp. */
  lemma ReadsNeverClamp(users: set<UserId>, ops: seq<Op>, r: RoomId, u: UserId, m: MessageId)
    requires RunLow(users, ops, (r, u)) >= 0
    ensures var s := Run(users, ops);
      Decremented(s.counters, r, {u}, TrueUnread(s.messages, r, u)) ==
      Subtracted(s.counters, r, {u}, TrueUnread(s.messages, r, u))
    ensures var s := Run(users, ops);
      Hits(s.messages, m, r, u) ==> Decremented(s.counters, r, {u}, 1) == Subtracted(s.counters, r, {u}, 1)
  {
    var s := Run(users, ops);
    RowAtLeast(users, ops, (r, u));
    NothingClamped(s.counters, r, {u}, TrueUnread(s.messages, r, u));
    if Hits(s.messages, m, r, u) {
      SomeUnread(s.messages, m, r, u);
      NothingClamped(s.counters, r, {u}, 1);
    }
  }

  /** As long as no member's counter is short, deleting a message never meets it either. */
  lemma DeletesNeverClamp(users: set<UserId>, ops: seq<Op>, m: MessageId)
    requires var s := Run(users, ops); m in s.messages && !s.messages[m].isDeleted
    requires var s := Run(users, ops); forall u :: RunLow(users, ops, (s.messages[m].room, u)) >= 0
    ensures var s := Run(users, ops); s.messages[m].room in s.rooms
    ensures var s := Run(users, ops); var msg := s.messages[m]; var us := UnreadMembers(s.rooms[msg.room], msg);
      Decremented(s.counters, msg.room, us, 1) == Subtracted(s.counters, msg.room, us, 1)
  {
    var s := Run(users, ops);
    var msg := s.messages[m];
    RunKeepsCore(users, ops);
    var us := UnreadMembers(s.rooms[msg.room], msg);
    forall u | u in us && (msg.room, u) in s.counters ensures s.counters[(msg.room, u)] >= 1 {
      RowAtLeast(users, ops, (msg.room, u));
      SomeUnread(s.messages, m, msg.room, u);
    }
    NothingClamped(s.counters, msg.room, us, 1);
  }
}
