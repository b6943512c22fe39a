/** What the call service promises, read off its invariants, and exactly when it falls short. */
module CallTheorems {
  import opened Wrappers
  import Chats = ChatInvariants
  import Effects = ChatEffects
  import M = ChatModel
  import opened Calls
  import opened CallInvariants
  import opened CallRuns

  // ---------- how a call ends for each of its participants ----------

  predicate Attended(p: Participant) {
    p.joinedAt.Some? && p.leftAt.Some?
  }

  predicate TurnedDown(p: Participant) {
    p.joinedAt.None? && p.leftAt.Some?
  }

  predicate MissedIt(p: Participant) {
    p.missedAt.Some?
  }

  predicate ExactlyOne(a: bool, b: bool, c: bool) {
    (a || b || c) && !(a && b) && !(b && c) && !(a && c)
  }

  /** In every run, an ended call has a verdict for everybody but its initiator, and nobody is still in it. */
  lemma EndedCallsAreAccountedFor(users: set<M.UserId>, es: seq<Event>, id: CallId, i: nat)
    requires Orderly(es)
    requires var s := Run(Fresh(users), es);
             id < |s.calls| && s.calls[id].status.Ended? && i < |s.calls[id].participants|
    ensures var c := Run(Fresh(users), es).calls[id];
            var p := c.participants[i];
            && c.endedAt.Some? && !p.Joined()
            && (c.Other(i) ==> ExactlyOne(Attended(p), TurnedDown(p), MissedIt(p)))
            && (!c.Other(i) ==> !MissedIt(p))
            && (MissedIt(p) ==> p.missedAt == c.endedAt)
            && (Attended(p) ==> p.joinedAt.value <= p.leftAt.value <= c.endedAt.value)
            && (forall j :: 0 <= j < |c.participants| && j != i ==> c.participants[j].userId != p.userId)
  {
    RunKeepsBoard(users, es);
    var c := Run(Fresh(users), es).calls[id];
    assert CallOk(c, Clock(es));
    assert EntryOk(c.participants[i], c.initiator, c.endedAt, Clock(es));
  }

  /** In every run, a call is answered when the first person besides its initiator joins, and not before. */
  lemma AnsweredByFirstGuest(users: set<M.UserId>, es: seq<Event>, id: CallId)
    requires Orderly(es) && id < |Run(Fresh(users), es).calls|
    ensures var c := Run(Fresh(users), es).calls[id];
            && (c.answeredAt.Some? <==>
                exists i: nat :: i < |c.participants| && c.Other(i) && c.participants[i].joinedAt.Some?)
            && (forall i: nat :: i < |c.participants| && c.Other(i) && c.participants[i].joinedAt.Some? ==>
                  c.answeredAt.value <= c.participants[i].joinedAt.value)
            && (c.answeredAt.Some? ==>
                  exists i: nat :: i < |c.participants| && c.Other(i) && c.participants[i].joinedAt == c.answeredAt)
            && (c.status.Ringing? ==> c.answeredAt.None?)
            && (c.status.Active? ==> c.answeredAt.Some?)
            && (c.status.Ended? <==> c.reason.Some?)
            && (c.reason == Some(Finished) ==> c.answeredAt.Some?)
            && (c.reason == Some(Cancelled) ==> c.answeredAt.None?)
  {
    RunKeepsBoard(users, es);
    var c := Run(Fresh(users), es).calls[id];
    assert CallOk(c, Clock(es));
  }

  /** In every run, no room has two live calls. */
  lemma OneLiveCallPerRoom(users: set<M.UserId>, es: seq<Event>, a: CallId, b: CallId)
    requires Orderly(es)
    requires var s := Run(Fresh(users), es); a < |s.calls| && b < |s.calls| && s.calls[a].Live() && s.calls[b].Live()
    requires var s := Run(Fresh(users), es); s.calls[a].room == s.calls[b].room
    ensures a == b
  {
    RunKeepsBoard(users, es);
  }

  // ---------- who is still awaited ----------

  ghost predicate Awaited(c: Call, i: nat)
    requires i < |c.participants|
  {
    c.Other(i) && c.participants[i].leftAt.None?
  }

  /** u is the only one besides the initiator who has not left. */
  ghost predicate SoleGuest(c: Call, u: M.UserId) {
    var i := Find(c.participants, u);
    && i < |c.participants| && Awaited(c, i)
    && forall j: nat :: j < |c.participants| && j != i ==> !Awaited(c, j)
  }

  ghost predicate Waiting(c: Call) {
    c.Live() ==> c.HasPendingOther()
  }

  /** A guest's departure can be stored: nobody objects, and the media server lets go of them. */
  ghost predicate CanGo(c: Call, u: M.UserId, m: Moment) {
    var i := Find(c.participants, u);
    i < |c.participants| && (c.participants[i].Joined() ==> m.kickWorks)
  }

  ghost predicate RemovesGuest(s: Switchboard, id: CallId, actor: M.UserId, target: M.UserId, m: Moment)
    requires id < |s.calls|
  {
    && CallAccess(s, id, actor) == M.Done && Manages(s, s.calls[id], actor)
    && SoleGuest(s.calls[id], target) && CanGo(s.calls[id], target, m)
  }

  /** The event takes the last guest out of live call id, and then fails to close the call. */
  ghost predicate Strands(s: Switchboard, e: Event, id: CallId)
    requires id < |s.calls|
  {
    && !e.moment.closeWorks
    && match e.op
       case DoLeave(c, u) =>
         c == id && CallAccess(s, id, u) == M.Done && SoleGuest(s.calls[id], u) && CanGo(s.calls[id], u, e.moment)
       case DoRemove(c, a, t) => c == id && RemovesGuest(s, id, a, t, e.moment)
       case MemberTakenOut(r, t, a) => r == s.calls[id].room && RemovesGuest(s, id, a, t, e.moment)
       case _ => false
  }

  lemma DepartureLeaves(c: Call, i: nat, now: int)
    requires DistinctUsers(c.participants) && i < |c.participants|
             && i == Find(c.participants, c.participants[i].userId)
    requires c.HasPendingOther()
    ensures !LeftBy(c, i, now).HasPendingOther() <==> SoleGuest(c, c.participants[i].userId)
  {
    var d := LeftBy(c, i, now);
    assert forall j: nat :: j < |c.participants| ==> d.Other(j) == c.Other(j);
    var k: nat :| k < |c.participants| && c.Other(k) && c.participants[k].leftAt.None?;
    assert Awaited(c, k);
    if j: nat :| j < |c.participants| && j != i && Awaited(c, j) {
      assert d.Other(j) && d.participants[j].leftAt.None?;
    } else {
      assert k == i;
      forall j: nat | j < |d.participants| && d.Other(j) ensures d.participants[j].leftAt.Some? {
        assert j != i ==> !Awaited(c, j);
      }
      assert SoleGuest(c, c.participants[i].userId);
    }
  }

  lemma LeaveStrands(s: Switchboard, id: CallId, u: M.UserId, m: Moment, clock: int)
    requires BoardOk(s, clock) && id < |s.calls| && s.calls[id].Live() && s.calls[id].HasPendingOther()
    ensures !Waiting(Leave(s, id, u, m).board.calls[id]) <==> Strands(s, Event(DoLeave(id, u), m), id)
  {
    var c := s.calls[id];
    var i := Find(c.participants, u);
    assert CallOk(c, clock);
    if i < |c.participants| {
      DepartureLeaves(c, i, m.now);
      PendingCoversJoined(LeftBy(c, i, m.now));
    }
  }

  lemma PendingCoversJoined(c: Call)
    ensures c.HasJoinedOther() ==> c.HasPendingOther()
  {
  }

  lemma RemoveStrands(s: Switchboard, id: CallId, actor: M.UserId, target: M.UserId, m: Moment, clock: int)
    requires BoardOk(s, clock) && id < |s.calls| && s.calls[id].Live() && s.calls[id].HasPendingOther()
    ensures !Waiting(Remove(s, id, actor, target, m).board.calls[id]) <==>
            Strands(s, Event(DoRemove(id, actor, target), m), id)
  {
    var c := s.calls[id];
    var i := Find(c.participants, target);
    assert CallOk(c, clock);
    if i < |c.participants| {
      DepartureLeaves(c, i, m.now);
      PendingCoversJoined(LeftBy(c, i, m.now));
    }
  }

  lemma LiveCallIs(s: Switchboard, id: CallId)
    requires OneLive(s.calls) && id < |s.calls| && s.calls[id].Live()
    ensures LiveCall(s.calls, s.calls[id].room) == Some(id)
  {
    var o := LiveCall(s.calls, s.calls[id].room);
    assert o.Some?;
    if o.value != id {
      assert false;
    }
  }

  lemma JoinAwaits(c: Call, u: M.UserId, now: int)
    requires c.HasPendingOther()
    ensures JoinedBy(c, u, now).HasPendingOther()
  {
    var d := WithEntry(c, u);
    var k: nat :| k < |c.participants| && c.Other(k) && c.participants[k].leftAt.None?;
    var f := JoinedBy(c, u, now);
    assert f.Other(k) && f.participants[k].leftAt.None?;
  }

  lemma RingAwaits(c: Call, u: M.UserId, now: int)
    requires c.HasPendingOther()
    ensures RungBy(c, u, now).HasPendingOther()
  {
    var k: nat :| k < |c.participants| && c.Other(k) && c.participants[k].leftAt.None?;
    var f := RungBy(c, u, now);
    assert f.Other(k) && f.participants[k].leftAt.None?;
  }

  /**
   A live call that awaits a guest stops awaiting anybody exactly when its last guest goes and the
   media room cannot be deleted: the departure is stored, and the call stays live.
   */
  lemma StrandedIff(s: Switchboard, e: Event, id: CallId, clock: int)
    requires BoardOk(s, clock) && id < |s.calls| && s.calls[id].Live() && s.calls[id].HasPendingOther()
    ensures id < |Step(s, e).board.calls|
    ensures !Waiting(Step(s, e).board.calls[id]) <==> Strands(s, e, id)
  {
    LiveCallIs(s, id);
    if e.op.DoLeave? && e.op.call == id {
      LeaveStrands(s, id, e.op.user, e.moment, clock);
    } else if e.op.DoRemove? && e.op.call == id {
      RemoveStrands(s, id, e.op.actor, e.op.target, e.moment, clock);
    } else if e.op.MemberTakenOut? && e.op.room == s.calls[id].room {
      RemoveStrands(s, id, e.op.actor, e.op.target, e.moment, clock);
    } else {
      OthersAwait(s, e, id, clock);
    }
  }

  lemma ArrivalAwaits(s: Switchboard, e: Event, id: CallId, clock: int)
    requires BoardOk(s, clock) && id < |s.calls| && s.calls[id].Live() && s.calls[id].HasPendingOther()
    requires e.op.DoInvite? || e.op.DoJoin? || e.op.DoRing? || e.op.DoAcknowledge?
    ensures id < |Step(s, e).board.calls| && Waiting(Step(s, e).board.calls[id])
  {
    match e.op
    case DoInvite(r, u) =>
    case DoJoin(c, u) => if c == id { JoinAwaits(s.calls[id], u, e.moment.now); }
    case DoRing(c, u) => if c == id { RingAwaits(s.calls[id], u, e.moment.now); }
    case DoAcknowledge(c, u) => AcknowledgeOthers(s, c, u, e.moment, id, clock);
  }

  /** A departure from another call, or an end, leaves the call as it is or over. */
  lemma ElsewhereAwaits(s: Switchboard, e: Event, id: CallId, clock: int)
    requires BoardOk(s, clock) && id < |s.calls| && s.calls[id].Live() && s.calls[id].HasPendingOther()
    requires !(e.op.DoInvite? || e.op.DoJoin? || e.op.DoRing? || e.op.DoAcknowledge?)
    requires (e.op.DoLeave? || e.op.DoRemove?) ==> e.op.call != id
    requires e.op.MemberTakenOut? ==> e.op.room != s.calls[id].room
    ensures id < |Step(s, e).board.calls| && Waiting(Step(s, e).board.calls[id])
  {
    if e.op.MemberTakenOut? {
      assert LiveCall(s.calls, e.op.room) != Some(id);
    }
  }

  /** No other event empties a live call without ending it. */
  lemma OthersAwait(s: Switchboard, e: Event, id: CallId, clock: int)
    requires BoardOk(s, clock) && id < |s.calls| && s.calls[id].Live() && s.calls[id].HasPendingOther()
    requires (e.op.DoLeave? || e.op.DoRemove?) ==> e.op.call != id
    requires e.op.MemberTakenOut? ==> e.op.room != s.calls[id].room
    ensures id < |Step(s, e).board.calls| && Waiting(Step(s, e).board.calls[id])
  {
    if e.op.DoInvite? || e.op.DoJoin? || e.op.DoRing? || e.op.DoAcknowledge? {
      ArrivalAwaits(s, e, id, clock);
    } else {
      ElsewhereAwaits(s, e, id, clock);
    }
  }

  lemma AcknowledgeOthers(s: Switchboard, c: CallId, u: M.UserId, m: Moment, id: CallId, clock: int)
    requires BoardOk(s, clock) && id < |s.calls| && s.calls[id].Live()
    ensures id < |Acknowledge(s, c, u, m).board.calls| && Acknowledge(s, c, u, m).board.calls[id] == s.calls[id]
  {
    if c == id {
      var i := Find(s.calls[id].participants, u);
      assert CallOk(s.calls[id], clock);
      if i < |s.calls[id].participants| {
        assert EntryOk(s.calls[id].participants[i], s.calls[id].initiator, None, clock);
      }
    }
  }

  /** Somebody besides the caller is there to be invited. */
  predicate HasGuest(s: Switchboard, op: Op) {
    op.DoInvite? && op.room in s.rooms ==>
      exists i: nat :: i < |M.MemberIds(s.rooms[op.room])| && M.MemberIds(s.rooms[op.room])[i] != op.user
  }

  ghost predicate Smooth(users: set<M.UserId>, es: seq<Event>) {
    if |es| == 0 then true
    else
      && Smooth(users, es[..|es| - 1])
      && es[|es| - 1].moment.closeWorks
      && HasGuest(Run(Fresh(users), es[..|es| - 1]), es[|es| - 1].op)
  }

  /** While media rooms can be deleted and nobody calls an empty room, every live call awaits a guest. */
  lemma {:induction false} LiveCallsAwaitSomebody(users: set<M.UserId>, es: seq<Event>, id: CallId)
    requires Orderly(es) && Smooth(users, es) && id < |Run(Fresh(users), es).calls|
    ensures Waiting(Run(Fresh(users), es).calls[id])
  {
    if |es| == 0 {
    } else {
      var front := es[..|es| - 1];
      var s := Run(Fresh(users), front);
      var e := es[|es| - 1];
      RunKeepsBoard(users, front);
      StepKeeps(s, e, Clock(front));
      if id < |s.calls| {
        LiveCallsAwaitSomebody(users, front, id);
        if s.calls[id].Live() {
          StrandedIff(s, e, id, Clock(front));
        }
      } else {
        NewCallsAwait(s, e, id);
      }
    }
  }

  lemma NewCallsAwait(s: Switchboard, e: Event, id: CallId)
    requires HasGuest(s, e.op) && |s.calls| <= id < |Step(s, e).board.calls|
    ensures Step(s, e).board.calls[id].HasPendingOther()
  {
    var c := Step(s, e).board.calls[id];
    assert e.op.DoInvite?;
    var us := M.MemberIds(s.rooms[e.op.room]);
    assert c == NewCall(e.op.room, s.rooms[e.op.room], e.op.user, e.moment.now);
    var i: nat :| i < |us| && us[i] != e.op.user;
    assert c.Other(i) && c.participants[i].leftAt.None?;
  }

  // ---------- what one request does to the people in a call ----------

  /** Everybody listed before is still listed as they were, but for u. */
  ghost predicate OnlyMovesUser(c: Call, d: Call, u: M.UserId) {
    && |c.participants| <= |d.participants|
    && (forall i :: 0 <= i < |c.participants| && c.participants[i].userId != u ==>
         d.participants[i] == c.participants[i])
    && (forall i :: |c.participants| <= i < |d.participants| ==> d.participants[i].userId == u)
  }

  /**
   An invitation goes through exactly when the caller may enter the room and no call is live there; it lists
   everybody.
   */
  lemma InviteIff(s: Switchboard, r: M.RoomId, u: M.UserId, m: Moment)
    ensures Invite(s, r, u, m).reply == M.Done <==>
            RoomAccess(s, r, u) == M.Done && u in s.users
            && forall i :: 0 <= i < |s.calls| ==> !(s.calls[i].room == r && s.calls[i].Live())
    ensures Invite(s, r, u, m).reply == M.Done ==>
              var calls := Invite(s, r, u, m).board.calls;
              && |calls| == |s.calls| + 1 && calls[..|s.calls|] == s.calls
              && calls[|s.calls|].room == r && calls[|s.calls|].initiator == u && calls[|s.calls|].status == Ringing
              && (forall v :: Find(calls[|s.calls|].participants, v) < |calls[|s.calls|].participants| <==>
                              v in M.MemberIds(s.rooms[r]))
    ensures Invite(s, r, u, m).reply != M.Done ==> Invite(s, r, u, m).board == s
  {
    if Invite(s, r, u, m).reply == M.Done {
      var us := M.MemberIds(s.rooms[r]);
      var ps := NewCall(r, s.rooms[r], u, m.now).participants;
      forall v ensures Find(ps, v) < |ps| <==> v in us {
        if v in us {
          var i: nat :| i < |us| && us[i] == v;
          assert ps[i].userId == v;
        }
      }
    }
  }

  lemma EntryFor(c: Call, u: M.UserId)
    ensures var w := WithEntry(c, u);
            var i, j := Find(c.participants, u), Find(w.participants, u);
            && w == c.(participants := w.participants) && OnlyMovesUser(c, w, u) && j < |w.participants|
            && w.participants[j] == if i < |c.participants| then c.participants[i] else Invited(u, c.createdAt)
  {
    if Find(c.participants, u) == |c.participants| {
      var w := WithEntry(c, u);
      assert w.participants[|c.participants|].userId == u;
    }
  }

  lemma SeatedMovesOne(c: Call, u: M.UserId, now: int)
    ensures var w := WithEntry(c, u);
            var i, j := Find(c.participants, u), Find(w.participants, u);
            var e := Seated(w, j, now);
            && e == c.(participants := e.participants) && OnlyMovesUser(c, e, u)
            && Find(e.participants, u) == j < |e.participants| && e.participants[j].Joined()
            && (e.participants[j].joinedAt == if i < |c.participants| && c.participants[i].joinedAt.Some?
                                              then c.participants[i].joinedAt else Some(now))
  {
    EntryFor(c, u);
    var w := WithEntry(c, u);
    SameFind(w.participants, Seated(w, Find(w.participants, u), now).participants, u);
  }

  /** A join that is let through seats the caller and moves nobody else; the first guest answers the call. */
  lemma JoinSeatsCaller(s: Switchboard, id: CallId, u: M.UserId, m: Moment)
    requires Join(s, id, u, m).reply == M.Done
    ensures var c, d := s.calls[id], Join(s, id, u, m).board.calls[id];
            var i, j := Find(c.participants, u), Find(d.participants, u);
            && c.Live() && d.Live() && OnlyMovesUser(c, d, u)
            && j < |d.participants| && d.participants[j].Joined()
            && (d.participants[j].joinedAt == if i < |c.participants| && c.participants[i].joinedAt.Some?
                                              then c.participants[i].joinedAt else Some(m.now))
            && (d.status.Active? <==> c.status.Active? || d.HasJoinedOther())
            && (c.answeredAt.None? ==> d.answeredAt == if d.HasJoinedOther() then Some(m.now) else None)
  {
    var c := s.calls[id];
    SeatedMovesOne(c, u, m.now);
    var w := WithEntry(c, u);
    AnsweredShape(Seated(w, Find(w.participants, u), m.now), m.now);
    assert Join(s, id, u, m).board.calls[id] == JoinedBy(c, u, m.now);
  }

  lemma AnsweredShape(e: Call, now: int)
    ensures var d := Answered(e, now);
            && d == e.(status := d.status, answeredAt := d.answeredAt)
            && d.HasJoinedOther() == e.HasJoinedOther()
            && d.status == (if e.HasJoinedOther() then Active else e.status)
            && d.answeredAt == (if e.HasJoinedOther() then OrElse(e.answeredAt, now) else e.answeredAt)
  {
  }

  lemma {:induction false} SameFind(ps: seq<Participant>, qs: seq<Participant>, u: M.UserId)
    requires |ps| == |qs| && forall i :: 0 <= i < |ps| ==> qs[i].userId == ps[i].userId
    ensures Find(qs, u) == Find(ps, u)
  {
  }

  lemma LeaveIs(s: Switchboard, id: CallId, u: M.UserId, m: Moment)
    requires Leave(s, id, u, m).reply == M.Done && s.calls[id].Live()
    requires var ps := s.calls[id].participants; Find(ps, u) < |ps| && ps[Find(ps, u)].leftAt.None?
    ensures var e := LeftBy(s.calls[id], Find(s.calls[id].participants, u), m.now);
            Leave(s, id, u, m).board.calls[id] ==
            if EndsCall(e, u) then EndedBy(e, u, e.UsualReason(), m.closing) else e
  {
  }

  /** Whom a call from which entry i departs still waits for: for the initiator's, somebody in the call. */
  ghost predicate LeftTo(c: Call, i: nat, u: M.UserId) {
    exists j: nat :: j < |c.participants| && j != i && c.participants[j].userId != c.initiator
      && c.participants[j].leftAt.None? && (u == c.initiator ==> c.participants[j].joinedAt.Some?)
  }

  lemma EndsUnlessLeftTo(c: Call, i: nat, now: int)
    requires i < |c.participants| && c.participants[i].leftAt.None?
    ensures var u := c.participants[i].userId; EndsCall(LeftBy(c, i, now), u) <==> !LeftTo(c, i, u)
  {
    var d, u := LeftBy(c, i, now), c.participants[i].userId;
    assert forall j: nat :: j < |c.participants| && j != i ==> d.participants[j] == c.participants[j];
    if LeftTo(c, i, u) {
      var j: nat :| j < |c.participants| && j != i && c.participants[j].userId != c.initiator
        && c.participants[j].leftAt.None? && (u == c.initiator ==> c.participants[j].joinedAt.Some?);
      assert d.Other(j) && d.participants[j].leftAt.None?;
    }
  }

  /**
   A leave that is let through takes the caller out. The call goes on exactly if it is left to somebody:
   after its initiator to a guest who is in it, after a guest to another who has not left.
   */
  lemma LeaveTakesCallerOut(s: Switchboard, id: CallId, u: M.UserId, m: Moment)
    requires Leave(s, id, u, m).reply == M.Done && s.calls[id].Live()
    requires var ps := s.calls[id].participants; Find(ps, u) < |ps| && ps[Find(ps, u)].leftAt.None?
    ensures var c, d := s.calls[id], Leave(s, id, u, m).board.calls[id];
            var i := Find(c.participants, u);
            && i < |d.participants| && d.participants[i] == c.participants[i].(leftAt := Some(m.now))
            && (d.Live() <==> LeftTo(c, i, u))
            && (d.Live() ==> d == c.(participants := d.participants) && OnlyMovesUser(c, d, u))
            && (!d.Live() ==> d.endedBy == Some(u) && d.endedAt == Some(m.closing) && d.reason == Some(c.UsualReason()))
  {
    LeaveIs(s, id, u, m);
    EndsUnlessLeftTo(s.calls[id], Find(s.calls[id].participants, u), m.now);
    var e := LeftBy(s.calls[id], Find(s.calls[id].participants, u), m.now);
    EndedEntries(e, u, e.UsualReason(), m.closing);
  }

  /**
   An explicit end goes through exactly for a manager with access and an obedient media server. Then
   everybody in the call has left it, every untouched guest has missed it, and nobody else's entry changed.
   */
  lemma EndEndsIff(s: Switchboard, id: CallId, u: M.UserId, m: Moment)
    requires id < |s.calls| && s.calls[id].Live()
    ensures var c, t := s.calls[id], Calls.End(s, id, u, m).board;
            if CallAccess(s, id, u) == M.Done && Manages(s, c, u) && m.closeWorks then
              var d := t.calls[id];
              && d.status.Ended? && d.endedBy == Some(u) && d.endedAt == Some(m.closing)
              && d.reason == Some(if c.answeredAt.Some? then Finished else Cancelled)
              && |d.participants| == |c.participants|
              && forall i :: 0 <= i < |c.participants| ==>
                   d.participants[i] == EntryAtEnd(c.participants[i], c.initiator, m.closing)
            else t == s
  {
    EndedEntries(s.calls[id], u, s.calls[id].UsualReason(), m.closing);
  }

  // ---------- leaving the room and leaving the call ----------

  lemma GoneAfterClose(s: Switchboard, id: CallId, i: nat, u: M.UserId, reason: Reason, m: Moment)
    requires id < |s.calls| && i < |s.calls[id].participants| && s.calls[id].participants[i].leftAt.Some?
    ensures var d := Close(s, id, u, reason, m).board.calls[id];
            i < |d.participants| && d.participants[i].userId == s.calls[id].participants[i].userId
            && !d.participants[i].Joined()
  {
  }

  lemma RemoveTakesOut(s: Switchboard, id: CallId, i: nat, actor: M.UserId, m: Moment)
    requires id < |s.calls| && s.calls[id].Live() && m.kickWorks
    requires i < |s.calls[id].participants| && Find(s.calls[id].participants, s.calls[id].participants[i].userId) == i
    requires CallAccess(s, id, actor) == M.Done && Manages(s, s.calls[id], actor)
    ensures var u := s.calls[id].participants[i].userId;
            var d := Remove(s, id, actor, u, m).board.calls[id];
            i < |d.participants| && d.participants[i].userId == u && !d.participants[i].Joined()
  {
    var t := Save(s, id, LeftBy(s.calls[id], i, m.now));
    assert t.calls[id] == LeftBy(s.calls[id], i, m.now);
    GoneAfterClose(t, id, i, actor, MemberRemoved, m);
  }

  lemma KickFails(s: Switchboard, id: CallId, i: nat, actor: M.UserId, m: Moment)
    requires id < |s.calls| && !m.kickWorks
    requires i < |s.calls[id].participants| && s.calls[id].participants[i].Joined()
    requires Find(s.calls[id].participants, s.calls[id].participants[i].userId) == i
    ensures Remove(s, id, actor, s.calls[id].participants[i].userId, m).board == s
  {
  }

  /**
   The call clean-up that follows a member's departure from a room gets that member out of the call
   exactly when the actor still has access to the room and manages the call, and the media server
   lets the member go.
   */
  lemma DepartedMemberStaysInCall(s: Switchboard, id: CallId, i: nat, actor: M.UserId, m: Moment, clock: int)
    requires BoardOk(s, clock) && id < |s.calls| && s.calls[id].Live()
    requires i < |s.calls[id].participants| && s.calls[id].participants[i].Joined()
    ensures var c := s.calls[id];
            var d := MemberGone(s, c.room, c.participants[i].userId, actor, m).board.calls[id];
            && i < |d.participants| && d.participants[i].userId == c.participants[i].userId
            && (d.participants[i].Joined() <==>
                !(CallAccess(s, id, actor) == M.Done && Manages(s, c, actor) && m.kickWorks))
  {
    LiveCallIs(s, id);
    var c := s.calls[id];
    assert CallOk(c, clock);
    assert Find(c.participants, c.participants[i].userId) == i;
    if !m.kickWorks {
      KickFails(s, id, i, actor, m);
    } else if CallAccess(s, id, actor) == M.Done && Manages(s, c, actor) {
      RemoveTakesOut(s, id, i, actor, m);
    } else {
      assert MemberGone(s, c.room, c.participants[i].userId, actor, m).board == s;
    }
  }

  /**
   A member who leaves a group on their own stays in its live call: after the room service's leave,
   on whatever store it ran, the call clean-up meets somebody without access.
   */
  lemma LeaverStaysInCall(chat: M.Chat, r: M.RoomId, s: Switchboard, id: CallId, i: nat, m: Moment, clock: int)
    requires BoardOk(s, clock) && id < |s.calls| && s.calls[id].Live() && s.calls[id].room == r
    requires i < |s.calls[id].participants| && s.calls[id].participants[i].Joined()
    requires Chats.Core(chat) && M.Leave(chat, r, s.calls[id].participants[i].userId).reply == M.Done
    requires s.rooms == M.Leave(chat, r, s.calls[id].participants[i].userId).chat.rooms
    ensures var u := s.calls[id].participants[i].userId;
            && MemberGone(s, r, u, u, m) == Result(s, M.Refused(403))
            && MemberGone(s, r, u, u, m).board.calls[id].participants[i].Joined()
  {
    var u := s.calls[id].participants[i].userId;
    Effects.LeaverIsOut(chat, r, u);
    Chats.GetForUserKeeps(chat, r, u);
    LiveCallIs(s, id);
  }
}
