/** The same for requests about rooms, their members, admins and invites, and for the background work. */
module RoomAnswers {
  import opened Wrappers
  import opened ChatModel
  import opened ChatInvariants
  import opened ChatAnswers

  /** Room r alone differs, and in its members, admins and invite at most. */
  ghost predicate OnlyRoom(before: map<RoomId, Room>, after: map<RoomId, Room>, r: RoomId) {
    && r in before && r in after && after == before[r := after[r]]
    && after[r] == before[r].(members := after[r].members, admins := after[r].admins, invite := after[r].invite)
  }

  ghost predicate IsGroup(s: Chat, r: RoomId) {
    r in s.rooms && s.rooms[r].isGroup
  }

  // ---------- new rooms ----------

  /** A group is made exactly for a creator and others who are all known; it has one new id. */
  lemma CreateGroupIff(s: Chat, creator: UserId, others: seq<UserId>)
    requires Core(s)
    ensures var o := CreateGroup(s, creator, others);
            && (o.reply == Done <==> creator in s.users && forall u :: u in others ==> u in s.users)
            && (o.reply == Refused(401) <==> creator !in s.users)
            && (o.reply == Refused(400) <==> creator in s.users && exists u :: u in others && u !in s.users)
            && (o.reply != Done ==> o.chat == s)
            && (o.reply == Done ==>
                  && o.chat == s.(nextId := s.nextId + 1, rooms := o.chat.rooms)
                  && s.nextId in o.chat.rooms && s.nextId !in s.rooms && o.chat.rooms - {s.nextId} == s.rooms
                  && var room := o.chat.rooms[s.nextId];
                     && room.isGroup && room.createdBy == creator && room.admins == [] && room.invite.None?
                     && NoDup(room.members) && forall u :: u in room.members <==> u == creator || u in others)
  {
    assert forall u :: u in [creator] + others <==> u == creator || u in others;
    if CreateGroup(s, creator, others).reply == Done {
      var rooms := CreateGroup(s, creator, others).chat.rooms;
      assert rooms - {s.nextId} == s.rooms;
    }
  }

  /** The two users share a direct room. */
  ghost predicate Paired(s: Chat, r: RoomId, a: UserId, b: UserId) {
    r in s.rooms && !s.rooms[r].isGroup && (s.rooms[r].members == [a, b] || s.rooms[r].members == [b, a])
  }

  /** A direct room opens exactly for two different known users, and is new exactly if they had none. */
  lemma OpenDmIff(s: Chat, a: UserId, b: UserId)
    requires Core(s)
    ensures var o := OpenDm(s, a, b);
            && (o.reply == Done <==> a != b && a in s.users && b in s.users)
            && (o.reply == Refused(401) <==> a != b && a !in s.users)
            && (o.reply == Refused(400) <==> a == b || (a in s.users && b !in s.users))
            && (o.reply != Done || (exists r :: Paired(s, r, a, b)) ==> o.chat == s)
            && (o.reply == Done && !(exists r :: Paired(s, r, a, b)) ==>
                  && o.chat == s.(nextId := s.nextId + 1,
                                  rooms := s.rooms[s.nextId := Room(false, [a, b], a, [], None)])
                  && s.nextId !in s.rooms)
  {
    assert forall r :: r in s.rooms ==> (IsDmOf(s.rooms[r], a, b) <==> Paired(s, r, a, b));
  }

  // ---------- members ----------

  /** Somebody is added exactly by a leader of the group, and if known; only the member list of that room grows. */
  lemma AddMemberIff(s: Chat, r: RoomId, u: UserId, actor: UserId)
    ensures var o := AddMember(s, r, u, actor);
            && (o.reply == Done <==> Leads(s, r, actor) && u in s.users)
            && (o.reply == Refused(403) <==> IsGroup(s, r) && !Leads(s, r, actor))
            && (o.reply == Refused(404) <==> r !in s.rooms)
            && (o.reply == Refused(400) <==> r in s.rooms && (IsGroup(s, r) ==> Leads(s, r, actor) && u !in s.users))
            && (o.reply != Done ==> o.chat == s)
            && (o.reply == Done ==>
                  && OnlyRoom(s.rooms, o.chat.rooms, r)
                  && o.chat.rooms[r] == s.rooms[r].(members := o.chat.rooms[r].members)
                  && o.chat.rooms[r].members == (if u in s.rooms[r].members then s.rooms[r].members
                                                 else s.rooms[r].members + [u])
                  && o.chat.counters - {(r, u)} == s.counters - {(r, u)})
  {
  }

  /** xs with u taken out: the others in the order they had. */
  function Except(xs: seq<UserId>, u: UserId): seq<UserId> {
    if |xs| == 0 then [] else (if xs[0] == u then [] else [xs[0]]) + Except(xs[1..], u)
  }

  lemma {:induction false} ExceptSnoc(xs: seq<UserId>, x: UserId, u: UserId)
    ensures Except(xs + [x], u) == Except(xs, u) + (if x == u then [] else [x])
  {
    if |xs| == 0 {
      assert [] + [x] == [x] && [x][1..] == [];
    } else {
      ExceptSnoc(xs[1..], x, u);
      assert (xs + [x])[1..] == xs[1..] + [x];
    }
  }

  lemma {:induction false} WithoutIsExcept(xs: seq<UserId>, u: UserId)
    ensures Without(xs, u) == Except(xs, u)
  {
    if |xs| != 0 {
      var n := |xs| - 1;
      WithoutIsExcept(xs[..n], u);
      ExceptSnoc(xs[..n], xs[n], u);
      assert xs[..n] + [xs[n]] == xs;
    }
  }

  /** Where u is out of room r: neither member nor admin, and without a row; nothing else changed. */
  ghost predicate Out(s: Chat, s': Chat, r: RoomId, u: UserId) {
    && OnlyRoom(s.rooms, s'.rooms, r)
    && s'.rooms[r].members == Except(s.rooms[r].members, u) && s'.rooms[r].admins == Except(s.rooms[r].admins, u)
    && s'.rooms[r].invite == s.rooms[r].invite
    && s'.counters == s.counters - {(r, u)}
    && s' == s.(rooms := s'.rooms, counters := s'.counters, access := s'.access)
  }

  lemma RemovedIsOut(s: Chat, r: RoomId, u: UserId)
    requires r in s.rooms
    ensures Out(s, Removed(s, r, u), r, u)
  {
    WithoutIsExcept(s.rooms[r].members, u);
    WithoutIsExcept(s.rooms[r].admins, u);
  }

  /** Somebody known is removed exactly by a leader of the group, unless they created it. */
  lemma RemoveMemberIff(s: Chat, r: RoomId, u: UserId, actor: UserId)
    ensures var o := RemoveMember(s, r, u, actor);
            && (o.reply == Done <==> Leads(s, r, actor) && u in s.users && u != s.rooms[r].createdBy)
            && (o.reply == Refused(403) <==> IsGroup(s, r) && !Leads(s, r, actor))
            && (o.reply == Refused(404) <==> r !in s.rooms)
            && (o.reply == Refused(400) <==>
                r in s.rooms && (IsGroup(s, r) ==>
                                   Leads(s, r, actor) && (u !in s.users || u == s.rooms[r].createdBy)))
            && (o.reply != Done ==> o.chat == s)
            && (o.reply == Done ==> Out(s, o.chat, r, u))
  {
    if r in s.rooms { RemovedIsOut(s, r, u); }
  }

  /** A known member other than the creator can leave a group, and nobody else. */
  lemma LeaveIff(s: Chat, r: RoomId, u: UserId)
    requires Core(s)
    ensures var o := Leave(s, r, u);
            && (o.reply == Done <==>
                IsGroup(s, r) && u in s.rooms[r].members && u != s.rooms[r].createdBy && u in s.users)
            && (o.reply == Refused(403) <==> IsGroup(s, r) && !Belongs(s.rooms[r], u))
            && (o.reply == Refused(404) <==> r !in s.rooms)
            && (o.reply == Refused(400) <==> r in s.rooms && (IsGroup(s, r) ==> u == s.rooms[r].createdBy))
            && (o.reply == Done ==> Out(s, o.chat, r, u))
  {
    AccessIff(s, r, u);
    if r in s.rooms { RemovedIsOut(GetForUser(s, r, u).chat, r, u); }
  }

  // ---------- invites and admins ----------

  /** An invite is to be had exactly by a leader of the group; a new one also needs a known one. */
  lemma CreateInviteIff(s: Chat, r: RoomId, actor: UserId, token: Token)
    ensures var o := CreateInvite(s, r, actor, token);
            && (o.reply == Done <==> Leads(s, r, actor) && (s.rooms[r].invite.Some? || actor in s.users))
            && (o.reply == Refused(403) <==> IsGroup(s, r) && !Leads(s, r, actor))
            && (o.reply != Done ==> o.chat == s)
            && (o.reply == Done ==>
                  o.chat == if s.rooms[r].invite.Some? then s
                            else s.(rooms := s.rooms[r := s.rooms[r].(invite := Some(token))]))
  {
  }

  lemma RevokeInviteIff(s: Chat, r: RoomId, actor: UserId)
    ensures var o := RevokeInvite(s, r, actor);
            && (o.reply == Done <==> Leads(s, r, actor))
            && (o.reply == Refused(403) <==> IsGroup(s, r) && !Leads(s, r, actor))
            && o.chat == if o.reply == Done then s.(rooms := s.rooms[r := s.rooms[r].(invite := None)]) else s
  {
  }

  /** Only the creator makes admins, and only of known members; the creator needs no promotion. */
  lemma PromoteIff(s: Chat, r: RoomId, u: UserId, actor: UserId)
    ensures var o := Promote(s, r, u, actor);
            && (o.reply == Done <==>
                && IsGroup(s, r) && actor == s.rooms[r].createdBy
                && (u == actor || (u in s.rooms[r].members && u in s.users)))
            && (o.reply == Refused(404) <==> r !in s.rooms)
            && (o.reply == Refused(400) <==>
                r in s.rooms && (IsGroup(s, r) ==>
                                   actor == s.rooms[r].createdBy && u != actor && u !in s.rooms[r].members))
            && (o.reply == Refused(403) <==> IsGroup(s, r) && actor != s.rooms[r].createdBy)
            && (o.reply != Done ==> o.chat == s)
            && (o.reply == Done ==>
                  o.chat == if u == actor || u in s.rooms[r].admins then s
                            else s.(rooms := s.rooms[r := s.rooms[r].(admins := s.rooms[r].admins + [u])]))
  {
    if IsGroup(s, r) && u in s.rooms[r].admins {
      assert s.rooms[r := s.rooms[r].(admins := s.rooms[r].admins)] == s.rooms;
    }
  }

  /** Only the creator takes admin rights away, from any known user but themselves. */
  lemma DemoteIff(s: Chat, r: RoomId, u: UserId, actor: UserId)
    ensures var o := Demote(s, r, u, actor);
            && (o.reply == Done <==>
                IsGroup(s, r) && actor == s.rooms[r].createdBy && u != actor && u in s.users)
            && (o.reply == Refused(404) <==> r !in s.rooms)
            && (o.reply == Refused(400) <==> r in s.rooms && (IsGroup(s, r) ==> u == actor == s.rooms[r].createdBy))
            && (o.reply == Refused(403) <==> IsGroup(s, r) && actor != s.rooms[r].createdBy)
            && (o.reply != Done ==> o.chat == s)
            && (o.reply == Done ==>
                  && o.chat == s.(rooms := s.rooms[r := o.chat.rooms[r]])
                  && o.chat.rooms[r] == s.rooms[r].(admins := o.chat.rooms[r].admins)
                  && o.chat.rooms[r].admins == Except(s.rooms[r].admins, u))
  {
    if r in s.rooms { WithoutIsExcept(s.rooms[r].admins, u); }
  }

  /** Joining by a link, as far as its answers go; a member who follows it again changes nothing. */
  lemma JoinIff(s: Chat, r: RoomId, token: Token, u: UserId)
    ensures var o := JoinByInvite(s, r, token, u);
            var open := r in s.rooms && s.rooms[r].invite == Some(token);
            && (o.reply == Done <==> open && IsGroup(s, r) && (u in s.rooms[r].members || u in s.users))
            && (o.reply == Refused(404) <==> !open)
            && (o.reply == Refused(400) <==> open && !IsGroup(s, r))
            && (o.reply != Done || u in s.rooms[r].members ==> o.chat == s)
            && (o.reply == Done && u !in s.rooms[r].members ==>
                  && OnlyRoom(s.rooms, o.chat.rooms, r)
                  && o.chat.rooms[r] == s.rooms[r].(members := s.rooms[r].members + [u])
                  && o.chat.counters - {(r, u)} == s.counters - {(r, u)})
  {
  }

  // ---------- deleting a room ----------

  /** The rows of room r are gone, all others as before. */
  ghost predicate RowsGone<T(!new)>(before: map<Pair, T>, after: map<Pair, T>, r: RoomId) {
    && (forall k :: k in after <==> k in before && k.0 != r)
    && (forall k :: k in after ==> after[k] == before[k])
  }

  /**
   Only its creator deletes a room, a room that is gone counting as deleted. With it go its messages
   and rows and nothing else, and a job that covers exactly those messages is waiting.
   */
  lemma DeleteRoomIff(s: Chat, r: RoomId, actor: UserId)
    requires Core(s) && JobsOk(s)
    ensures var o := DeleteRoom(s, r, actor);
            && (o.reply == Done <==> r !in s.rooms || actor == s.rooms[r].createdBy)
            && (o.reply != Done ==> o.reply == Refused(403))
            && (o.reply != Done || r !in s.rooms ==> o.chat == s)
            && (o.reply == Done && r in s.rooms ==>
                  && o.chat == s.(rooms := s.rooms - {r}, messages := o.chat.messages, counters := o.chat.counters,
                                  pending := o.chat.pending)
                  && (forall m :: m in o.chat.messages <==> m in s.messages && s.messages[m].room != r)
                  && (forall m :: m in o.chat.messages ==> o.chat.messages[m] == s.messages[m])
                  && RowsGone(s.counters, o.chat.counters, r)
                  && exists c: Cleanup :: c.RoomCleanup? && c.room == r && o.chat.pending == s.pending + {c}
                       && forall m :: m in c.messages <==> m in s.messages && s.messages[m].room == r)
  {
    if r in s.rooms && actor == s.rooms[r].createdBy {
      var c := RoomCleanup(r, RoomMessages(s.messages, r));
      assert forall j :: j in s.pending + (s.finished + s.dead) ==> JobOk(s, j) && !j.SameKey(c);
      assert DeleteRoom(s, r, actor).chat.pending == s.pending + {c};
    }
  }

  // ---------- who may change a room ----------

  /** u is let in by a leader of the group, or by themselves with its current invite. */
  predicate LetsIn(s: Chat, op: Op, r: RoomId, u: UserId) {
    || (op.AddMemberOp? && op.room == r && op.user == u && Leads(s, r, op.actor))
    || (op.JoinOp? && op.room == r && op.user == u && r in s.rooms && s.rooms[r].invite == Some(op.token))
  }

  /** u is put out by a leader of the group, or leaves. */
  predicate TakesOut(s: Chat, op: Op, r: RoomId, u: UserId) {
    || (op.RemoveMemberOp? && op.room == r && op.user == u && Leads(s, r, op.actor))
    || op == LeaveOp(r, u)
  }

  predicate SetsInvite(s: Chat, op: Op, r: RoomId) {
    (op.CreateInviteOp? || op.RevokeInviteOp?) && op.room == r && Leads(s, r, op.actor)
  }

  /** What the operation made of room r, as far as user u goes, was its author's to do. */
  ghost predicate Rightful(s: Chat, op: Op, s': Chat, r: RoomId, u: UserId)
    requires r in s.rooms
  {
    var room := s.rooms[r];
    if r !in s'.rooms then op == DeleteRoomOp(r, room.createdBy)
    else
      var after := s'.rooms[r];
      && after.isGroup == room.isGroup && after.createdBy == room.createdBy
      && (u !in room.members && u in after.members ==> LetsIn(s, op, r, u))
      && (u in room.members && u !in after.members ==> u != room.createdBy && TakesOut(s, op, r, u))
      && (u !in room.admins && u in after.admins ==> op == PromoteOp(r, u, room.createdBy) && u in room.members)
      && (u in room.admins && u !in after.admins ==>
            op == DemoteOp(r, u, room.createdBy) || TakesOut(s, op, r, u))
      && (after.invite != room.invite ==> SetsInvite(s, op, r))
  }

  lemma {:induction false} ExceptHas(xs: seq<UserId>, u: UserId, v: UserId)
    ensures v in Except(xs, u) <==> v in xs && v != u
  {
    if |xs| != 0 {
      ExceptHas(xs[1..], u, v);
      assert xs == [xs[0]] + xs[1..];
    }
  }

  lemma SameIsRightful(s: Chat, op: Op, s': Chat, r: RoomId, u: UserId)
    requires r in s.rooms && r in s'.rooms && s'.rooms[r] == s.rooms[r]
    ensures Rightful(s, op, s', r, u)
  {
  }

  lemma OutIsRightful(s: Chat, op: Op, s': Chat, r: RoomId, v: UserId, u: UserId)
    requires r in s.rooms && Out(s, s', r, v) && v != s.rooms[r].createdBy && TakesOut(s, op, r, v)
    ensures Rightful(s, op, s', r, u)
  {
    ExceptHas(s.rooms[r].members, v, u);
    ExceptHas(s.rooms[r].admins, v, u);
  }

  lemma MembersGrowRightfully(s: Chat, op: Op, r: RoomId, u: UserId)
    requires r in s.rooms && (op.AddMemberOp? || op.JoinOp?)
    ensures Rightful(s, op, Step(s, op).chat, r, u)
  {
    var s' := Step(s, op).chat;
    match op {
      case AddMemberOp(q, v, actor) => AddMemberIff(s, q, v, actor);
      case JoinOp(q, token, v) => JoinIff(s, q, token, v);
    }
    if op.room != r || Step(s, op).reply != Done {
      SameIsRightful(s, op, s', r, u);
    }
  }

  lemma MembersShrinkRightfully(s: Chat, op: Op, r: RoomId, u: UserId)
    requires Core(s) && r in s.rooms && (op.RemoveMemberOp? || op.LeaveOp?)
    ensures Rightful(s, op, Step(s, op).chat, r, u)
  {
    var s' := Step(s, op).chat;
    match op {
      case RemoveMemberOp(q, v, actor) => RemoveMemberIff(s, q, v, actor);
      case LeaveOp(q, v) => LeaveIff(s, q, v);
    }
    if op.room == r && Step(s, op).reply == Done {
      OutIsRightful(s, op, s', r, op.user, u);
    } else {
      if op.LeaveOp? && Step(s, op).reply != Done { AccessIff(s, op.room, op.user); }
      SameIsRightful(s, op, s', r, u);
    }
  }

  lemma AdminsChangeRightfully(s: Chat, op: Op, r: RoomId, u: UserId)
    requires r in s.rooms && (op.PromoteOp? || op.DemoteOp?)
    ensures Rightful(s, op, Step(s, op).chat, r, u)
  {
    var s' := Step(s, op).chat;
    match op {
      case PromoteOp(q, v, actor) => PromoteIff(s, q, v, actor);
      case DemoteOp(q, v, actor) => DemoteIff(s, q, v, actor); ExceptHas(s.rooms[r].admins, v, u);
    }
    if op.room != r || Step(s, op).reply != Done {
      SameIsRightful(s, op, s', r, u);
    }
  }

  lemma InvitesChangeRightfully(s: Chat, op: Op, r: RoomId, u: UserId)
    requires r in s.rooms && (op.CreateInviteOp? || op.RevokeInviteOp?)
    ensures Rightful(s, op, Step(s, op).chat, r, u)
  {
    var s' := Step(s, op).chat;
    match op {
      case CreateInviteOp(q, actor, token) => CreateInviteIff(s, q, actor, token);
      case RevokeInviteOp(q, actor) => RevokeInviteIff(s, q, actor);
    }
    if op.room != r || Step(s, op).reply != Done {
      SameIsRightful(s, op, s', r, u);
    }
  }

  /**
   Whatever the operation, a room changes only as its author may change it: members come by a leader or
   an invite and go by a leader or themselves, the creator makes and unmakes admins, leaders handle
   the invite, and only the creator deletes the room.
   */
  lemma RoomsChangeRightfully(s: Chat, op: Op, r: RoomId, u: UserId)
    requires Core(s) && JobsOk(s) && r in s.rooms
    ensures Rightful(s, op, Step(s, op).chat, r, u)
  {
    if op.AddMemberOp? || op.JoinOp? {
      MembersGrowRightfully(s, op, r, u);
    } else if op.RemoveMemberOp? || op.LeaveOp? {
      MembersShrinkRightfully(s, op, r, u);
    } else if op.PromoteOp? || op.DemoteOp? {
      AdminsChangeRightfully(s, op, r, u);
    } else if op.CreateInviteOp? || op.RevokeInviteOp? {
      InvitesChangeRightfully(s, op, r, u);
    } else if op.DeleteRoomOp? {
      DeleteRoomIff(s, op.room, op.actor);
    } else {
      OthersKeepRooms(s, op, r);
      SameIsRightful(s, op, Step(s, op).chat, r, u);
    }
  }

  lemma OthersKeepRooms(s: Chat, op: Op, r: RoomId)
    requires Core(s) && r in s.rooms
    requires op.SendOp? || op.ForwardOp? || op.EditOp? || op.MarkReadOp? || op.MarkRoomReadOp? || op.DeleteOp?
             || op.CreateGroupOp? || op.OpenDmOp? || op.GetRoomOp? || op.ExpireAccessOp? || op.ReconcileOp?
             || op.RunCleanupOp?
    ensures r in Step(s, op).chat.rooms && Step(s, op).chat.rooms[r] == s.rooms[r]
  {
    if op.SendOp? || op.ForwardOp? || op.EditOp? || op.MarkReadOp? || op.MarkRoomReadOp? || op.DeleteOp? {
      MessageStepKeepsRooms(s, op);
    }
  }

  // ---------- cleanup jobs ----------

  /** The messages a job is for. */
  predicate For(c: Cleanup, m: MessageId) {
    if c.MessageCleanup? then m == c.message else m in c.messages
  }

  /**
   One execution of a waiting job: it completes, and then every entry, cached answer and row it is for
   is gone, or it breaks off, and then it waits on or is given up; nothing else is touched.
   */
  lemma CleanupOutcome(s: Chat, c: Cleanup, reached: Option<Reach>, lastTry: bool)
    requires c in s.pending
    ensures var s' := RunCleanup(s, c, reached, lastTry).chat;
            && s' == s.(index := s'.index, access := s'.access, counters := s'.counters, pending := s'.pending,
                        finished := s'.finished, dead := s'.dead)
            && RunCleanup(s, c, reached, lastTry).reply == (if reached.None? then Done else Failed)
            && (reached.None? ==> s'.pending == s.pending - {c} && s'.finished == s.finished + {c} && s'.dead == s.dead)
            && (reached.Some? && lastTry ==>
                  s'.pending == s.pending - {c} && s'.dead == s.dead + {c} && s'.finished == s.finished)
            && (reached.Some? && !lastTry ==>
                  s'.pending == s.pending && s'.dead == s.dead && s'.finished == s.finished)
    ensures var s' := RunCleanup(s, c, reached, lastTry).chat;
            && (forall m :: m in s'.index <==>
                  m in s.index && !(For(c, m) && (reached.None? || m in reached.value.messages)))
            && (forall m :: m in s'.index ==> s'.index[m] == s.index[m])
            && (if c.RoomCleanup? && (reached.None? || reached.value.access)
                then RowsGone(s.access, s'.access, c.room) else s'.access == s.access)
            && (if c.RoomCleanup? && reached.None?
                then RowsGone(s.counters, s'.counters, c.room) else s'.counters == s.counters)
  {
  }
}
