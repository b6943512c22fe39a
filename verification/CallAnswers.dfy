/**
 When each request about a call goes through, and what it then changes, in terms of the stored
 rooms, users and participants alone.
 */
module CallAnswers {
  import opened Wrappers
  import M = ChatModel
  import opened Calls
  import opened CallInvariants

  /** The user created the room or is one of its members. */
  predicate MayEnter(s: Switchboard, r: M.RoomId, u: M.UserId) {
    r in s.rooms && (u == s.rooms[r].createdBy || u in s.rooms[r].members)
  }

  /** The call exists, and the user may enter its room. */
  predicate Reaches(s: Switchboard, id: CallId, u: M.UserId) {
    id < |s.calls| && MayEnter(s, s.calls[id].room, u)
  }

  /** Besides, the user created the room or started the call. */
  predicate Rules(s: Switchboard, id: CallId, u: M.UserId) {
    Reaches(s, id, u) && (u == s.rooms[s.calls[id].room].createdBy || u == s.calls[id].initiator)
  }

  predicate NotFound(s: Switchboard, id: CallId) {
    id >= |s.calls| || s.calls[id].room !in s.rooms
  }

  /** Somebody but the initiator and u is in the call. */
  ghost predicate GuestIn(c: Call, u: M.UserId) {
    exists j: nat :: j < |c.participants| && c.participants[j].userId != c.initiator && c.participants[j].userId != u
      && c.participants[j].joinedAt.Some? && c.participants[j].leftAt.None?
  }

  /** Somebody but the initiator and u has not left the call, nor declined it. */
  ghost predicate GuestDue(c: Call, u: M.UserId) {
    exists j: nat :: j < |c.participants| && c.participants[j].userId != c.initiator && c.participants[j].userId != u
      && c.participants[j].leftAt.None?
  }

  // ---------- ending ----------

  /** The call is over: who ended it, when and why, and what that made of every entry. */
  ghost predicate Over(c: Call, d: Call, closer: M.UserId, reason: Reason, at: int) {
    && d == c.(status := Ended, participants := d.participants, endedAt := Some(at), endedBy := Some(closer),
               reason := Some(reason))
    && |d.participants| == |c.participants|
    && forall j :: 0 <= j < |c.participants| ==>
         var p := c.participants[j];
         d.participants[j] ==
         if p.joinedAt.Some? then p.(leftAt := if p.leftAt.Some? then p.leftAt else Some(at))
         else if p.leftAt.None? && p.missedAt.None? && p.userId != c.initiator then p.(missedAt := Some(at))
         else p
  }

  lemma EndedIsOver(c: Call, closer: M.UserId, reason: Reason, at: int)
    ensures Over(c, EndedBy(c, closer, reason, at), closer, reason, at)
  {
  }

  // ---------- invitations and arrivals ----------

  /** No live call in the room. */
  ghost predicate Quiet(s: Switchboard, r: M.RoomId) {
    forall i :: 0 <= i < |s.calls| ==> s.calls[i].room != r || s.calls[i].status == Ended
  }

  /** What answers an invitation; a new call rings for the creator and every member of the room, once each. */
  lemma InviteAnswer(s: Switchboard, r: M.RoomId, u: M.UserId, m: Moment)
    ensures var o := Invite(s, r, u, m);
            && (o.reply == M.Done <==> MayEnter(s, r, u) && Quiet(s, r) && u in s.users)
            && (o.reply == M.Refused(403) <==> r in s.rooms && !MayEnter(s, r, u))
            && (o.reply == M.Refused(409) <==> MayEnter(s, r, u) && !Quiet(s, r))
            && (o.reply == M.Refused(404) <==> r !in s.rooms || (MayEnter(s, r, u) && Quiet(s, r) && u !in s.users))
            && (o.reply != M.Done ==> o.board == s)
            && (o.reply == M.Done ==>
                  && |o.board.calls| == |s.calls| + 1 && o.board == s.(calls := s.calls + [o.board.calls[|s.calls|]])
                  && Rings(s, o.board.calls[|s.calls|], r, u, m.now))
  {
    var o := Invite(s, r, u, m);
    if o.reply == M.Done {
      NewCallRings(s, r, u, m.now);
      assert (s.calls + [NewCall(r, s.rooms[r], u, m.now)])[|s.calls|] == NewCall(r, s.rooms[r], u, m.now);
    }
  }

  ghost predicate Rings(s: Switchboard, c: Call, r: M.RoomId, u: M.UserId, now: int)
    requires r in s.rooms
  {
    && c == Call(r, u, Ringing, c.participants, None, None, None, None, now)
    && (forall i :: 0 <= i < |c.participants| ==>
          && c.participants[i] == Participant(c.participants[i].userId, Some(now), None, None, None, None, None)
          && MayEnter(s, r, c.participants[i].userId))
    && (forall v :: MayEnter(s, r, v) ==> exists i :: 0 <= i < |c.participants| && c.participants[i].userId == v)
    && (NoDup(s.rooms[r].members) ==> DistinctUsers(c.participants))
  }

  lemma NewCallRings(s: Switchboard, r: M.RoomId, u: M.UserId, now: int)
    requires r in s.rooms
    ensures Rings(s, NewCall(r, s.rooms[r], u, now), r, u, now)
  {
    var us := M.MemberIds(s.rooms[r]);
    var ps := NewCall(r, s.rooms[r], u, now).participants;
    forall i | 0 <= i < |ps| ensures MayEnter(s, r, ps[i].userId) {
      assert us[i] in us;
    }
    forall v | MayEnter(s, r, v) ensures exists i :: 0 <= i < |ps| && ps[i].userId == v {
      assert v in us;
      var i :| 0 <= i < |us| && us[i] == v;
      assert ps[i].userId == v;
    }
  }

  /** A join goes through exactly for a known user of the room while the call is live. */
  lemma JoinAnswer(s: Switchboard, id: CallId, u: M.UserId, m: Moment)
    ensures var o := Join(s, id, u, m);
            && (o.reply == M.Done <==> Reaches(s, id, u) && s.calls[id].status != Ended && u in s.users)
            && (o.reply == M.Refused(409) <==> Reaches(s, id, u) && s.calls[id].status == Ended)
            && (o.reply == M.Refused(403) <==> !NotFound(s, id) && !Reaches(s, id, u))
            && (o.reply != M.Done ==> o.board == s)
            && (o.reply == M.Done ==> OnlyTouches(s, o.board, id))
  {
  }

  /** u's entry has a ringing time: the one it had, or now; nobody else's entry changed. */
  ghost predicate Ringed(c: Call, d: Call, u: M.UserId, now: int) {
    var i := Find(c.participants, u);
    && d == c.(participants := d.participants)
    && (if i < |c.participants| then
          d.participants == c.participants[i := c.participants[i].(
            ringingAt := if c.participants[i].ringingAt.Some? then c.participants[i].ringingAt else Some(now))]
        else d.participants ==
             c.participants + [Participant(u, Some(c.createdAt), Some(now), None, None, None, None)])
  }

  /** Ringing is noted exactly for a user of the room while the call is live, and the first time stays. */
  lemma RingAnswer(s: Switchboard, id: CallId, u: M.UserId, m: Moment)
    ensures var o := Ring(s, id, u, m);
            && (o.reply == M.Done <==> Reaches(s, id, u) && s.calls[id].status != Ended)
            && (o.reply == M.Refused(409) <==> Reaches(s, id, u) && s.calls[id].status == Ended)
            && (o.reply == M.Refused(403) <==> !NotFound(s, id) && !Reaches(s, id, u))
            && (o.reply != M.Done ==> o.board == s)
            && (o.reply == M.Done ==> OnlyTouches(s, o.board, id) && Ringed(s.calls[id], o.board.calls[id], u, m.now))
  {
    if Reaches(s, id, u) && s.calls[id].status != Ended {
      var c := s.calls[id];
      var w := WithEntry(c, u);
      assert Find(w.participants, u) < |w.participants|;
    }
  }

  // ---------- departures ----------

  /** The entry of u once they have left, and nothing else of the call changed. */
  ghost predicate Gone(c: Call, d: Call, i: nat, now: int)
    requires i < |c.participants|
  {
    d == c.(participants := c.participants[i := c.participants[i].(
      leftAt := if c.participants[i].leftAt.Some? then c.participants[i].leftAt else Some(now))])
  }

  lemma WhoRemains(c: Call, i: nat, now: int)
    requires DistinctUsers(c.participants) && i < |c.participants|
    ensures var d, u := LeftBy(c, i, now), c.participants[i].userId;
            && Gone(c, d, i, now)
            && (d.HasJoinedOther() <==> GuestIn(c, u))
            && (d.HasPendingOther() <==> GuestDue(c, u))
  {
    var d, u := LeftBy(c, i, now), c.participants[i].userId;
    assert forall j: nat :: j < |c.participants| && j != i ==>
      d.participants[j] == c.participants[j] && c.participants[j].userId != u;
    assert forall j: nat :: j < |c.participants| ==> d.Other(j) == (c.participants[j].userId != c.initiator);
    if d.HasJoinedOther() {
      var j: nat :| j < |d.participants| && d.Other(j) && d.participants[j].Joined();
      assert j != i;
    }
    if GuestIn(c, u) {
      var j: nat :| j < |c.participants| && c.participants[j].userId != c.initiator && c.participants[j].userId != u
        && c.participants[j].joinedAt.Some? && c.participants[j].leftAt.None?;
      assert d.Other(j) && d.participants[j].Joined();
    }
    if d.HasPendingOther() {
      var j: nat :| j < |d.participants| && d.Other(j) && d.participants[j].leftAt.None?;
      assert j != i;
    }
    if GuestDue(c, u) {
      var j: nat :| j < |c.participants| && c.participants[j].userId != c.initiator && c.participants[j].userId != u
        && c.participants[j].leftAt.None?;
      assert d.Other(j) && d.participants[j].leftAt.None?;
    }
  }

  /** The departed call d goes on while somebody is left to wait for, or the media room resists. */
  ghost predicate GoesOnOrEnds(d: Call, e: Call, waits: bool, closer: M.UserId, reason: Reason, m: Moment) {
    if waits || !m.closeWorks then e == d else Over(d, e, closer, reason, m.closing)
  }

  /** A leaving initiator leaves the call to guests who are in it; a leaving guest to any guest still due. */
  ghost predicate WaitsAfter(c: Call, u: M.UserId) {
    if u == c.initiator then GuestIn(c, u) else GuestDue(c, u)
  }

  lemma CloseEffect(s: Switchboard, id: CallId, d: Call, closer: M.UserId, reason: Reason, m: Moment)
    requires id < |s.calls| && d.status != Ended
    ensures var o := Close(Save(s, id, d), id, closer, reason, m);
            && OnlyTouches(s, o.board, id) && o.reply == (if m.closeWorks then M.Done else M.Refused(503))
            && GoesOnOrEnds(d, o.board.calls[id], false, closer, reason, m)
  {
    EndedIsOver(d, closer, reason, m.closing);
  }

  lemma LeaveEffect(s: Switchboard, id: CallId, u: M.UserId, m: Moment)
    requires Reaches(s, id, u) && s.calls[id].status != Ended && DistinctUsers(s.calls[id].participants)
    requires var ps := s.calls[id].participants; var i := Find(ps, u);
             i < |ps| && ps[i].leftAt.None? && (ps[i].joinedAt.Some? ==> m.kickWorks)
    ensures var c := s.calls[id]; var i := Find(c.participants, u); var o := Leave(s, id, u, m);
            && Gone(c, LeftBy(c, i, m.now), i, m.now) && OnlyTouches(s, o.board, id)
            && o.reply == (if WaitsAfter(c, u) || m.closeWorks then M.Done else M.Refused(503))
            && GoesOnOrEnds(LeftBy(c, i, m.now), o.board.calls[id], WaitsAfter(c, u), u,
                            if c.answeredAt.Some? then Finished else Cancelled, m)
  {
    var c := s.calls[id];
    var i := Find(c.participants, u);
    var d := LeftBy(c, i, m.now);
    WhoRemains(c, i, m.now);
    CloseEffect(s, id, d, u, d.UsualReason(), m);
    assert d.HasJoinedOther() ==> d.HasPendingOther();
  }

  /** Whether u can be taken out of the call now. */
  ghost predicate LetGo(c: Call, u: M.UserId, m: Moment) {
    var i := Find(c.participants, u);
    i < |c.participants| && (c.participants[i].joinedAt.Some? && c.participants[i].leftAt.None? ==> m.kickWorks)
  }

  /** u is listed in the live call and has not left it. */
  ghost predicate Present(c: Call, u: M.UserId) {
    var i := Find(c.participants, u);
    c.status != Ended && i < |c.participants| && c.participants[i].leftAt.None?
  }

  /**
   What a leave answers and does. It is stored exactly for somebody present whom the media server lets
   go. The call of a leaving initiator then goes on exactly while a guest is in it, that of a leaving
   guest while another guest is due; otherwise it ends, unless the media room cannot be deleted.
   */
  lemma LeaveAnswer(s: Switchboard, id: CallId, u: M.UserId, m: Moment)
    requires id < |s.calls| ==> DistinctUsers(s.calls[id].participants)
    ensures var o := Leave(s, id, u, m);
            var goes := Reaches(s, id, u) && Present(s.calls[id], u) && LetGo(s.calls[id], u, m);
            && (o.reply == M.Done <==>
                && Reaches(s, id, u)
                && (Present(s.calls[id], u) ==>
                      LetGo(s.calls[id], u, m) && (WaitsAfter(s.calls[id], u) || m.closeWorks)))
            && (o.reply == M.Refused(403) <==> !NotFound(s, id) && !Reaches(s, id, u))
            && (o.reply == M.Refused(404) <==> NotFound(s, id))
            && (!goes ==> o.board == s)
            && (goes ==>
                  var c := s.calls[id]; var i := Find(c.participants, u);
                  && OnlyTouches(s, o.board, id)
                  && exists d: Call :: Gone(c, d, i, m.now)
                       && GoesOnOrEnds(d, o.board.calls[id], WaitsAfter(c, u), u,
                                       if c.answeredAt.Some? then Finished else Cancelled, m))
  {
    if Reaches(s, id, u) && Present(s.calls[id], u) && LetGo(s.calls[id], u, m) {
      LeaveEffect(s, id, u, m);
    }
  }

  lemma RemoveEffect(s: Switchboard, id: CallId, actor: M.UserId, target: M.UserId, m: Moment)
    requires Rules(s, id, actor) && s.calls[id].status != Ended && DistinctUsers(s.calls[id].participants)
    requires LetGo(s.calls[id], target, m)
    ensures var c := s.calls[id]; var i := Find(c.participants, target); var o := Remove(s, id, actor, target, m);
            && Gone(c, LeftBy(c, i, m.now), i, m.now) && OnlyTouches(s, o.board, id)
            && o.reply == (if GuestDue(c, target) || m.closeWorks then M.Done else M.Refused(503))
            && GoesOnOrEnds(LeftBy(c, i, m.now), o.board.calls[id], GuestDue(c, target), actor, MemberRemoved, m)
  {
    var c := s.calls[id];
    var i := Find(c.participants, target);
    var d := LeftBy(c, i, m.now);
    WhoRemains(c, i, m.now);
    CloseEffect(s, id, d, actor, MemberRemoved, m);
    assert d.HasJoinedOther() ==> d.HasPendingOther();
  }

  /**
   What a removal answers and does: exactly somebody who rules the call takes out a listed user, if
   the media server lets them go; the call goes on exactly while a guest other than them is due.
   */
  lemma RemoveAnswer(s: Switchboard, id: CallId, actor: M.UserId, target: M.UserId, m: Moment)
    requires id < |s.calls| ==> DistinctUsers(s.calls[id].participants)
    ensures var o := Remove(s, id, actor, target, m);
            var acts := Rules(s, id, actor) && s.calls[id].status != Ended
                        && Find(s.calls[id].participants, target) < |s.calls[id].participants|;
            && (o.reply == M.Done <==>
                && Rules(s, id, actor)
                && (acts ==> LetGo(s.calls[id], target, m) && (GuestDue(s.calls[id], target) || m.closeWorks)))
            && (o.reply == M.Refused(403) <==> !NotFound(s, id) && !Rules(s, id, actor))
            && (o.reply == M.Refused(404) <==> NotFound(s, id))
            && (!(acts && LetGo(s.calls[id], target, m)) ==> o.board == s)
            && (acts && LetGo(s.calls[id], target, m) ==>
                  var c := s.calls[id]; var i := Find(c.participants, target);
                  && OnlyTouches(s, o.board, id)
                  && exists d: Call :: Gone(c, d, i, m.now)
                       && GoesOnOrEnds(d, o.board.calls[id], GuestDue(c, target), actor, MemberRemoved, m))
  {
    if Rules(s, id, actor) && s.calls[id].status != Ended && LetGo(s.calls[id], target, m) {
      RemoveEffect(s, id, actor, target, m);
    }
  }

  // ---------- ends and acknowledgements ----------

  /** An explicit end goes through exactly for somebody who rules the call, and closes it if it is live. */
  lemma EndAnswer(s: Switchboard, id: CallId, u: M.UserId, m: Moment)
    ensures var o := Calls.End(s, id, u, m);
            && (o.reply == M.Done <==> Rules(s, id, u) && (s.calls[id].status == Ended || m.closeWorks))
            && (o.reply == M.Refused(503) <==> Rules(s, id, u) && s.calls[id].status != Ended && !m.closeWorks)
            && (o.reply == M.Refused(403) <==> !NotFound(s, id) && !Rules(s, id, u))
            && (o.reply == M.Refused(404) <==> NotFound(s, id))
            && (o.reply != M.Done || s.calls[id].status == Ended ==> o.board == s)
            && (o.reply == M.Done && s.calls[id].status != Ended ==>
                  && OnlyTouches(s, o.board, id)
                  && Over(s.calls[id], o.board.calls[id], u,
                          if s.calls[id].answeredAt.Some? then Finished else Cancelled, m.closing))
  {
    if Rules(s, id, u) {
      EndedIsOver(s.calls[id], u, s.calls[id].UsualReason(), m.closing);
    }
  }

  /** A missed call can be acknowledged exactly by a participant who missed it; the first time stays. */
  lemma AcknowledgeAnswer(s: Switchboard, id: CallId, u: M.UserId, m: Moment)
    ensures var o := Acknowledge(s, id, u, m);
            var listed := id < |s.calls| && Find(s.calls[id].participants, u) < |s.calls[id].participants|;
            && (o.reply == M.Done <==>
                listed && s.calls[id].participants[Find(s.calls[id].participants, u)].missedAt.Some?)
            && (o.reply == M.Refused(404) <==> id >= |s.calls|)
            && (o.reply == M.Refused(403) <==> id < |s.calls| && !listed)
            && (o.reply == M.Refused(400) <==>
                listed && s.calls[id].participants[Find(s.calls[id].participants, u)].missedAt.None?)
            && (o.reply != M.Done ==> o.board == s)
            && (o.reply == M.Done ==>
                  var ps := s.calls[id].participants; var i := Find(ps, u);
                  o.board == s.(calls := s.calls[id := s.calls[id].(participants := ps[i := ps[i].(
                    acknowledgedAt := if ps[i].acknowledgedAt.Some? then ps[i].acknowledgedAt else Some(m.now))])]))
  {
  }

  /**
   When a room is deleted its live call, if any, is ended for that reason if the media server obeys, and
   left alone if not; either way the request goes on.
   */
  lemma RoomGoneAnswer(s: Switchboard, r: M.RoomId, actor: M.UserId, m: Moment, id: CallId)
    requires OneLive(s.calls)
    ensures var o := RoomGone(s, r, actor, m);
            && o.reply == M.Done && |o.board.calls| == |s.calls| && o.board == s.(calls := o.board.calls)
            && (id < |s.calls| ==>
                  if s.calls[id].room == r && s.calls[id].status != Ended && m.closeWorks
                  then Over(s.calls[id], o.board.calls[id], actor, RoomDeleted, m.closing)
                  else o.board.calls[id] == s.calls[id])
  {
    var live := LiveCall(s.calls, r);
    if live.Some? {
      EndedIsOver(s.calls[live.value], actor, RoomDeleted, m.closing);
    }
  }

  /** When a member has left a room, they are removed from its live call; without one nothing happens. */
  lemma MemberGoneAnswer(s: Switchboard, r: M.RoomId, target: M.UserId, actor: M.UserId, m: Moment, id: CallId)
    requires OneLive(s.calls)
    ensures id < |s.calls| && s.calls[id].room == r && s.calls[id].status != Ended ==>
              MemberGone(s, r, target, actor, m) == Remove(s, id, actor, target, m)
    ensures Quiet(s, r) ==> MemberGone(s, r, target, actor, m) == Result(s, M.Done)
  {
    var live := LiveCall(s.calls, r);
    if live.Some? && id < |s.calls| && s.calls[id].room == r && s.calls[id].status != Ended {
      assert live.value == id;
    }
  }
}
