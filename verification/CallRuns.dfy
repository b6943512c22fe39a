/** The invariants of every run of call events, and who can be left waiting in a live call. */
module CallRuns {
  import opened Wrappers
  import M = ChatModel
  import opened Calls
  import opened CallInvariants

  // ---------- every event keeps the board in order ----------

  /** t is in order at clock, and every call of s is still in it, moved only forwards. */
  ghost predicate Moved(s: Switchboard, t: Switchboard, clock: int) {
    && BoardOk(t, clock)
    && |s.calls| <= |t.calls|
    && forall i :: 0 <= i < |s.calls| ==> Evolved(s.calls[i], t.calls[i])
  }

  lemma StayedPut(s: Switchboard, before: int, after: int)
    requires BoardOk(s, before) && before <= after
    ensures Moved(s, s, after)
  {
    forall i | 0 <= i < |s.calls| ensures CallOk(s.calls[i], after) && Evolved(s.calls[i], s.calls[i]) {
      LaterOk(s.calls[i], before, after);
    }
  }

  lemma SaveKeeps(s: Switchboard, id: CallId, c: Call, before: int, after: int)
    requires BoardOk(s, before) && before <= after && id < |s.calls|
    requires CallOk(c, after) && Evolved(s.calls[id], c)
    ensures Moved(s, Save(s, id, c), after)
  {
    var t := Save(s, id, c);
    forall i | 0 <= i < |s.calls| ensures CallOk(t.calls[i], after) && Evolved(s.calls[i], t.calls[i]) {
      LaterOk(s.calls[i], before, after);
    }
    forall i, j | 0 <= i < j < |t.calls| && t.calls[i].Live() && t.calls[j].Live()
      ensures t.calls[i].room != t.calls[j].room
    {
      assert s.calls[i].Live() && s.calls[j].Live();
    }
  }

  lemma MovedTwice(s: Switchboard, t: Switchboard, v: Switchboard, clock: int, later: int)
    requires Moved(s, t, clock) && Moved(t, v, later)
    ensures Moved(s, v, later)
  {
    forall i | 0 <= i < |s.calls| ensures Evolved(s.calls[i], v.calls[i]) {
      EvolvedTwice(s.calls[i], t.calls[i], v.calls[i]);
    }
  }

  ghost predicate Timely(m: Moment, clock: int) {
    clock <= m.now <= m.closing
  }

  lemma InviteKeeps(s: Switchboard, r: M.RoomId, u: M.UserId, m: Moment, clock: int)
    requires BoardOk(s, clock) && Timely(m, clock)
    ensures Moved(s, Invite(s, r, u, m).board, m.closing)
  {
    StayedPut(s, clock, m.closing);
    var t := Invite(s, r, u, m).board;
    if t != s {
      NewCallOk(r, s.rooms[r], u, m.now);
      LaterOk(NewCall(r, s.rooms[r], u, m.now), m.now, m.closing);
    }
  }

  lemma JoinKeeps(s: Switchboard, id: CallId, u: M.UserId, m: Moment, clock: int)
    requires BoardOk(s, clock) && Timely(m, clock)
    ensures Moved(s, Join(s, id, u, m).board, m.closing)
  {
    StayedPut(s, clock, m.closing);
    if id < |s.calls| && s.calls[id].Live() {
      LaterOk(s.calls[id], clock, m.now);
      JoinedKeeps(s.calls[id], u, m.now);
      LaterOk(JoinedBy(s.calls[id], u, m.now), m.now, m.closing);
      SaveKeeps(s, id, JoinedBy(s.calls[id], u, m.now), clock, m.closing);
    }
  }

  lemma RingKeeps(s: Switchboard, id: CallId, u: M.UserId, m: Moment, clock: int)
    requires BoardOk(s, clock) && Timely(m, clock)
    ensures Moved(s, Ring(s, id, u, m).board, m.closing)
  {
    StayedPut(s, clock, m.closing);
    if id < |s.calls| && s.calls[id].Live() {
      LaterOk(s.calls[id], clock, m.now);
      RungKeeps(s.calls[id], u, m.now);
      LaterOk(RungBy(s.calls[id], u, m.now), m.now, m.closing);
      SaveKeeps(s, id, RungBy(s.calls[id], u, m.now), clock, m.closing);
    }
  }

  lemma CloseKeeps(s: Switchboard, id: CallId, u: M.UserId, reason: Reason, m: Moment, clock: int)
    requires BoardOk(s, clock) && clock <= m.closing && id < |s.calls|
    requires reason == Finished ==> s.calls[id].answeredAt.Some?
    requires reason == Cancelled ==> s.calls[id].answeredAt.None?
    ensures Moved(s, Close(s, id, u, reason, m).board, m.closing)
  {
    StayedPut(s, clock, m.closing);
    if s.calls[id].Live() && m.closeWorks {
      EndedKeeps(s.calls[id], u, reason, clock, m.closing);
      SaveKeeps(s, id, EndedBy(s.calls[id], u, reason, m.closing), clock, m.closing);
    }
  }

  /** A departure is stored first; the call may then be closed in a second write. */
  lemma DepartureKeeps(s: Switchboard, id: CallId, i: nat, u: M.UserId, reason: Reason, m: Moment, clock: int)
    requires BoardOk(s, clock) && Timely(m, clock) && id < |s.calls| && s.calls[id].Live()
    requires i < |s.calls[id].participants|
    requires reason == MemberRemoved || reason == s.calls[id].UsualReason()
    ensures var t := Save(s, id, LeftBy(s.calls[id], i, m.now));
            Moved(s, t, m.closing) && Moved(s, Close(t, id, u, reason, m).board, m.closing)
  {
    var d := LeftBy(s.calls[id], i, m.now);
    LaterOk(s.calls[id], clock, m.now);
    LeftKeeps(s.calls[id], i, m.now);
    SaveKeeps(s, id, d, clock, m.now);
    var t := Save(s, id, d);
    StayedPut(t, m.now, m.closing);
    MovedTwice(s, t, t, m.now, m.closing);
    CloseKeeps(t, id, u, reason, m, m.now);
    MovedTwice(s, t, Close(t, id, u, reason, m).board, m.now, m.closing);
  }

  lemma LeaveKeeps(s: Switchboard, id: CallId, u: M.UserId, m: Moment, clock: int)
    requires BoardOk(s, clock) && Timely(m, clock)
    ensures Moved(s, Leave(s, id, u, m).board, m.closing)
  {
    StayedPut(s, clock, m.closing);
    if id < |s.calls| {
      var i := Find(s.calls[id].participants, u);
      if s.calls[id].Live() && i < |s.calls[id].participants| {
        DepartureKeeps(s, id, i, u, s.calls[id].UsualReason(), m, clock);
      }
    }
  }

  lemma EndKeeps(s: Switchboard, id: CallId, u: M.UserId, m: Moment, clock: int)
    requires BoardOk(s, clock) && Timely(m, clock)
    ensures Moved(s, End(s, id, u, m).board, m.closing)
  {
    StayedPut(s, clock, m.closing);
    if id < |s.calls| {
      CloseKeeps(s, id, u, s.calls[id].UsualReason(), m, clock);
    }
  }

  lemma RemoveKeeps(s: Switchboard, id: CallId, actor: M.UserId, target: M.UserId, m: Moment, clock: int)
    requires BoardOk(s, clock) && Timely(m, clock)
    ensures Moved(s, Remove(s, id, actor, target, m).board, m.closing)
  {
    StayedPut(s, clock, m.closing);
    if id < |s.calls| {
      var i := Find(s.calls[id].participants, target);
      if s.calls[id].Live() && i < |s.calls[id].participants| {
        DepartureKeeps(s, id, i, actor, MemberRemoved, m, clock);
      }
    }
  }

  lemma AcknowledgeKeeps(s: Switchboard, id: CallId, u: M.UserId, m: Moment, clock: int)
    requires BoardOk(s, clock) && Timely(m, clock)
    ensures Moved(s, Acknowledge(s, id, u, m).board, m.closing)
  {
    StayedPut(s, clock, m.closing);
    if id < |s.calls| {
      var c := s.calls[id];
      var i := Find(c.participants, u);
      if i < |c.participants| && c.participants[i].missedAt.Some? {
        LaterOk(c, clock, m.now);
        AcknowledgedKeeps(c, i, m.now);
        LaterOk(AcknowledgedBy(c, i, m.now), m.now, m.closing);
        SaveKeeps(s, id, AcknowledgedBy(c, i, m.now), clock, m.closing);
      }
    }
  }

  lemma StepKeeps(s: Switchboard, e: Event, clock: int)
    requires BoardOk(s, clock) && Timely(e.moment, clock) && RoomsFit(e.op)
    ensures Moved(s, Step(s, e).board, e.moment.closing)
  {
    var m := e.moment;
    StayedPut(s, clock, m.closing);
    match e.op
    case DoInvite(r, u) => InviteKeeps(s, r, u, m, clock);
    case DoJoin(c, u) => JoinKeeps(s, c, u, m, clock);
    case DoRing(c, u) => RingKeeps(s, c, u, m, clock);
    case DoLeave(c, u) => LeaveKeeps(s, c, u, m, clock);
    case DoEnd(c, u) => EndKeeps(s, c, u, m, clock);
    case DoRemove(c, a, t) => RemoveKeeps(s, c, a, t, m, clock);
    case DoAcknowledge(c, u) => AcknowledgeKeeps(s, c, u, m, clock);
    case MemberTakenOut(r, t, a) =>
      if LiveCall(s.calls, r).Some? {
        RemoveKeeps(s, LiveCall(s.calls, r).value, a, t, m, clock);
      }
    case RoomTakenDown(r, a) =>
      if LiveCall(s.calls, r).Some? {
        CloseKeeps(s, LiveCall(s.calls, r).value, a, RoomDeleted, m, clock);
      }
    case RoomsBecome(rooms) =>
  }

  // ---------- whole runs ----------

  lemma {:induction false} RunKeepsBoard(users: set<M.UserId>, es: seq<Event>)
    requires Orderly(es)
    ensures BoardOk(Run(Fresh(users), es), Clock(es))
  {
    if |es| == 0 {
    } else {
      RunKeepsBoard(users, es[..|es| - 1]);
      StepKeeps(Run(Fresh(users), es[..|es| - 1]), es[|es| - 1], Clock(es[..|es| - 1]));
    }
  }

  /** Whatever happens after a point of a run, the calls of that point only move forwards. */
  lemma {:induction false} CallsOnlyMoveForward(users: set<M.UserId>, es: seq<Event>, k: nat)
    requires Orderly(es) && k <= |es|
    ensures Moved(Run(Fresh(users), es[..k]), Run(Fresh(users), es), Clock(es))
  {
    if k == |es| {
      assert es[..k] == es;
      RunKeepsBoard(users, es);
      StayedPut(Run(Fresh(users), es), Clock(es), Clock(es));
    } else {
      var front := es[..|es| - 1];
      assert front[..k] == es[..k];
      CallsOnlyMoveForward(users, front, k);
      RunKeepsBoard(users, front);
      StepKeeps(Run(Fresh(users), front), es[|es| - 1], Clock(front));
      MovedTwice(Run(Fresh(users), es[..k]), Run(Fresh(users), front), Run(Fresh(users), es), Clock(front), Clock(es));
    }
  }
}
