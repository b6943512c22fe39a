/**
 The call service as it runs: a request loads one call, changes the loaded copy step by step and
 stores it. Every method is proved to have the effect its function in Calls has.
 */
module CallService {
  import opened Wrappers
  import M = ChatModel
  import opened Calls

  class CallService {
    var users: set<M.UserId>
    var rooms: map<M.RoomId, M.Room>
    var calls: seq<Call>

    constructor (users: set<M.UserId>)
      ensures Board() == Fresh(users)
    {
      this.users := users;
      rooms := map[];
      calls := [];
    }

    function Board(): Switchboard
      reads this
    {
      Switchboard(users, rooms, calls)
    }

    /** The first entry of u in ps, or |ps|. */
    static method ParticipantState(ps: seq<Participant>, u: M.UserId) returns (i: nat)
      ensures i == Find(ps, u)
    {
      i := 0;
      while i < |ps|
        invariant i <= |ps|
        invariant forall j :: 0 <= j < i ==> ps[j].userId != u
      {
        if ps[i].userId == u {
          FindIs(ps, u, i);
          return;
        }
        i := i + 1;
      }
    }

    static lemma FindIs(ps: seq<Participant>, u: M.UserId, i: nat)
      requires i < |ps| && ps[i].userId == u && forall j :: 0 <= j < i ==> ps[j].userId != u
      ensures Find(ps, u) == i
    {
    }

    static method EnsureParticipantState(call: Call, u: M.UserId) returns (d: Call, i: nat)
      ensures d == WithEntry(call, u) && i == Find(d.participants, u) && i < |d.participants|
    {
      d := call;
      i := ParticipantState(d.participants, u);
      if i == |d.participants| {
        d := d.(participants := d.participants + [Invited(u, d.createdAt)]);
        FindIs(d.participants, u, i);
      }
    }

    static method CloseJoinedParticipants(call: Call, at: int) returns (d: Call)
      ensures d == call.(participants := Closed(call.participants, at))
    {
      d := call;
      for i := 0 to |call.participants|
        invariant d == call.(participants := d.participants) && |d.participants| == |call.participants|
        invariant forall j :: 0 <= j < i ==> d.participants[j] == Closed(call.participants, at)[j]
        invariant forall j :: i <= j < |call.participants| ==> d.participants[j] == call.participants[j]
      {
        if d.participants[i].joinedAt.Some? && d.participants[i].leftAt.None? {
          d := d.(participants := d.participants[i := d.participants[i].(leftAt := Some(at))]);
        }
      }
      assert d.participants == Closed(call.participants, at);
    }

    static method MarkMissedParticipants(call: Call, at: int) returns (d: Call)
      ensures d == call.(participants := Missed(call.participants, call.initiator, at))
    {
      d := call;
      for i := 0 to |call.participants|
        invariant d == call.(participants := d.participants) && |d.participants| == |call.participants|
        invariant forall j :: 0 <= j < i ==> d.participants[j] == Missed(call.participants, call.initiator, at)[j]
        invariant forall j :: i <= j < |call.participants| ==> d.participants[j] == call.participants[j]
      {
        var p := d.participants[i];
        if p.userId != call.initiator && p.joinedAt.None? && p.leftAt.None? && p.missedAt.None? {
          d := d.(participants := d.participants[i := p.(missedAt := Some(at))]);
        }
      }
      assert d.participants == Missed(call.participants, call.initiator, at);
    }

    /** call is what is stored under id. */
    method EndCall(id: CallId, call: Call, closer: M.UserId, reason: Reason, m: Moment) returns (reply: M.Reply)
      requires id < |calls| && calls[id] == call
      modifies this`calls
      ensures Result(Board(), reply) == Close(old(Board()), id, closer, reason, m)
    {
      if call.status.Ended? {
        return M.Done;
      }
      if !m.closeWorks {
        return M.Refused(503);
      }
      var d := call.(status := Ended, endedAt := Some(m.closing), endedBy := Some(closer), reason := Some(reason));
      d := CloseJoinedParticipants(d, m.closing);
      d := MarkMissedParticipants(d, m.closing);
      calls := calls[id := d];
      reply := M.Done;
    }

    method Invite(r: M.RoomId, u: M.UserId, m: Moment) returns (reply: M.Reply)
      modifies this`calls
      ensures Result(Board(), reply) == Calls.Invite(old(Board()), r, u, m)
    {
      reply := RoomAccess(Board(), r, u);
      if reply != M.Done {
        return;
      }
      if LiveCall(calls, r).Some? {
        return M.Refused(409);
      }
      if u !in users {
        return M.Refused(404);
      }
      var participants := InvitedAll(M.MemberIds(rooms[r]), m.now);
      calls := calls + [Call(r, u, Ringing, participants, None, None, None, None, m.now)];
    }

    method Join(id: CallId, u: M.UserId, m: Moment) returns (reply: M.Reply)
      modifies this`calls
      ensures Result(Board(), reply) == Calls.Join(old(Board()), id, u, m)
    {
      reply := CallAccess(Board(), id, u);
      if reply != M.Done {
        return;
      }
      if calls[id].status.Ended? {
        return M.Refused(409);
      }
      if u !in users {
        return M.Refused(404);
      }
      var call, i := EnsureParticipantState(calls[id], u);
      var state := call.participants[i];
      if state.joinedAt.None? {
        state := state.(joinedAt := Some(m.now));
      }
      state := state.(leftAt := None);
      call := call.(participants := call.participants[i := state]);
      if call.HasJoinedOther() {
        call := call.(status := Active, answeredAt := if call.answeredAt.Some? then call.answeredAt else Some(m.now));
      }
      calls := calls[id := call];
    }

    method MarkRinging(id: CallId, u: M.UserId, m: Moment) returns (reply: M.Reply)
      modifies this`calls
      ensures Result(Board(), reply) == Ring(old(Board()), id, u, m)
    {
      reply := CallAccess(Board(), id, u);
      if reply != M.Done {
        return;
      }
      if calls[id].status.Ended? {
        return M.Refused(409);
      }
      var call, i := EnsureParticipantState(calls[id], u);
      if call.participants[i].ringingAt.None? {
        call := call.(participants := call.participants[i := call.participants[i].(ringingAt := Some(m.now))]);
        calls := calls[id := call];
      } else {
        assert calls[id := calls[id]] == calls;
      }
    }

    method Leave(id: CallId, u: M.UserId, m: Moment) returns (reply: M.Reply)
      modifies this`calls
      ensures Result(Board(), reply) == Calls.Leave(old(Board()), id, u, m)
    {
      reply := CallAccess(Board(), id, u);
      if reply != M.Done {
        return;
      }
      var call := calls[id];
      var i := ParticipantState(call.participants, u);
      if call.status.Ended? || i == |call.participants| || call.participants[i].leftAt.Some? {
        return;
      }
      if call.participants[i].joinedAt.Some? && !m.kickWorks {
        return M.Refused(503);
      }
      call := call.(participants := call.participants[i := call.participants[i].(leftAt := Some(m.now))]);
      calls := calls[id := call];
      assert call == LeftBy(old(calls[id]), i, m.now);
      var shouldEnd := !call.HasJoinedOther();
      if u != call.initiator {
        shouldEnd := shouldEnd && !call.HasPendingOther();
      }
      if shouldEnd {
        reply := EndCall(id, call, u, if call.answeredAt.Some? then Finished else Cancelled, m);
      }
    }

    method End(id: CallId, u: M.UserId, m: Moment) returns (reply: M.Reply)
      modifies this`calls
      ensures Result(Board(), reply) == Calls.End(old(Board()), id, u, m)
    {
      reply := CallAccess(Board(), id, u);
      if reply != M.Done {
        return;
      }
      var call := calls[id];
      if u != rooms[call.room].createdBy && u != call.initiator {
        return M.Refused(403);
      }
      reply := EndCall(id, call, u, if call.answeredAt.Some? then Finished else Cancelled, m);
    }

    method RemoveParticipant(id: CallId, actor: M.UserId, target: M.UserId, m: Moment) returns (reply: M.Reply)
      modifies this`calls
      ensures Result(Board(), reply) == Remove(old(Board()), id, actor, target, m)
    {
      reply := CallAccess(Board(), id, actor);
      if reply != M.Done {
        return;
      }
      var call := calls[id];
      if actor != rooms[call.room].createdBy && actor != call.initiator {
        return M.Refused(403);
      }
      var i := ParticipantState(call.participants, target);
      if i == |call.participants| || call.status.Ended? {
        return;
      }
      if call.participants[i].joinedAt.Some? && call.participants[i].leftAt.None? && !m.kickWorks {
        return M.Refused(503);
      }
      if call.participants[i].leftAt.None? {
        call := call.(participants := call.participants[i := call.participants[i].(leftAt := Some(m.now))]);
      }
      assert call == LeftBy(old(calls[id]), i, m.now);
      calls := calls[id := call];
      if !call.HasJoinedOther() && !call.HasPendingOther() {
        reply := EndCall(id, call, actor, MemberRemoved, m);
      }
    }

    method AcknowledgeMissedCall(id: CallId, u: M.UserId, m: Moment) returns (reply: M.Reply)
      modifies this`calls
      ensures Result(Board(), reply) == Acknowledge(old(Board()), id, u, m)
    {
      if id >= |calls| {
        return M.Refused(404);
      }
      var call := calls[id];
      var i := ParticipantState(call.participants, u);
      if i == |call.participants| {
        return M.Refused(403);
      }
      if call.participants[i].missedAt.None? {
        return M.Refused(400);
      }
      if call.participants[i].acknowledgedAt.None? {
        call := call.(participants := call.participants[i := call.participants[i].(acknowledgedAt := Some(m.now))]);
        calls := calls[id := call];
      } else {
        assert AcknowledgedBy(call, i, m.now) == call;
        assert calls[id := calls[id]] == calls;
      }
      reply := M.Done;
    }

    method HandleRoomMemberRemoved(r: M.RoomId, target: M.UserId, actor: M.UserId, m: Moment) returns (reply: M.Reply)
      modifies this`calls
      ensures Result(Board(), reply) == MemberGone(old(Board()), r, target, actor, m)
    {
      var live := LiveCall(calls, r);
      if live.None? {
        return M.Done;
      }
      reply := RemoveParticipant(live.value, actor, target, m);
    }

    method HandleRoomDeleted(r: M.RoomId, actor: M.UserId, m: Moment) returns (reply: M.Reply)
      modifies this`calls
      ensures Result(Board(), reply) == RoomGone(old(Board()), r, actor, m)
    {
      var live := LiveCall(calls, r);
      if live.None? {
        return M.Done;
      }
      reply := EndCall(live.value, calls[live.value], actor, RoomDeleted, m);
      reply := M.Done;
    }
  }
}
