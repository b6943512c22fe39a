/**
 Call sessions: inviting, joining, ringing, leaving, removing, ending and acknowledging, as functions
 from the stored calls to the new ones. Ids are positions: calls are never deleted. The outcome of
 the two media-server requests and the clock readings of an event are parameters.
 */
module Calls {
  import opened Wrappers
  import opened ChatModel

  type CallId = nat

  datatype Participant = Participant(
    userId: UserId,
    invitedAt: Option<int>,
    ringingAt: Option<int>,
    joinedAt: Option<int>,
    leftAt: Option<int>,
    missedAt: Option<int>,
    acknowledgedAt: Option<int>)
  {
    /** In the call right now, or last seen in it. */
    predicate Joined() {
      joinedAt.Some? && leftAt.None?
    }
  }

  datatype Status = Ringing | Active | Ended
  datatype Reason = Finished | Cancelled | RoomDeleted | MemberRemoved

  datatype Call = Call(
    room: RoomId,
    initiator: UserId,
    status: Status,
    participants: seq<Participant>,
    answeredAt: Option<int>,
    endedAt: Option<int>,
    endedBy: Option<UserId>,
    reason: Option<Reason>,
    createdAt: int)
  {
    predicate Live() {
      !status.Ended?
    }

    predicate Other(i: nat)
      requires i < |participants|
    {
      participants[i].userId != initiator
    }

    /** Somebody other than the initiator is in the call. */
    predicate HasJoinedOther() {
      exists i: nat :: i < |participants| && Other(i) && participants[i].Joined()
    }

    /** Somebody other than the initiator has not left. */
    predicate HasPendingOther() {
      exists i: nat :: i < |participants| && Other(i) && participants[i].leftAt.None?
    }

    /** The reason a leave or an explicit end gives. */
    function UsualReason(): Reason {
      if answeredAt.Some? then Finished else Cancelled
    }
  }

  datatype Switchboard = Switchboard(users: set<UserId>, rooms: map<RoomId, Room>, calls: seq<Call>)

  datatype Result = Result(board: Switchboard, reply: Reply)

  /**
   When the request reads the clock first, when it reads it again to end the call, and whether the media
   server obeys.
   */
  datatype Moment = Moment(now: int, closing: int, kickWorks: bool, closeWorks: bool)

  // ---------- participants ----------

  /** The position of the first entry for u, or |ps|. */
  function Find(ps: seq<Participant>, u: UserId): (i: nat)
    ensures i <= |ps|
    ensures i < |ps| ==> ps[i].userId == u
    ensures forall j :: 0 <= j < i ==> ps[j].userId != u
  {
    if |ps| == 0 then 0
    else
      var i := Find(ps[..|ps| - 1], u);
      if i < |ps| - 1 || ps[|ps| - 1].userId == u then i else i + 1
  }

  function Invited(u: UserId, at: int): Participant {
    Participant(u, Some(at), None, None, None, None, None)
  }

  function WithEntry(c: Call, u: UserId): Call {
    if Find(c.participants, u) < |c.participants| then c
    else c.(participants := c.participants + [Invited(u, c.createdAt)])
  }

  function Closed(ps: seq<Participant>, at: int): (qs: seq<Participant>)
    ensures |qs| == |ps|
    ensures forall i :: 0 <= i < |ps| ==> qs[i] == if ps[i].Joined() then ps[i].(leftAt := Some(at)) else ps[i]
  {
    if |ps| == 0 then []
    else
      var p := ps[|ps| - 1];
      Closed(ps[..|ps| - 1], at) + [if p.Joined() then p.(leftAt := Some(at)) else p]
  }

  predicate Unreached(p: Participant, initiator: UserId) {
    p.userId != initiator && p.joinedAt.None? && p.leftAt.None? && p.missedAt.None?
  }

  function Missed(ps: seq<Participant>, initiator: UserId, at: int): (qs: seq<Participant>)
    ensures |qs| == |ps|
    ensures forall i :: 0 <= i < |ps| ==>
              qs[i] == if Unreached(ps[i], initiator) then ps[i].(missedAt := Some(at)) else ps[i]
  {
    if |ps| == 0 then []
    else
      var p := ps[|ps| - 1];
      Missed(ps[..|ps| - 1], initiator, at) + [if Unreached(p, initiator) then p.(missedAt := Some(at)) else p]
  }

  // ---------- one call ----------

  function OrElse(a: Option<int>, b: int): Option<int> {
    if a.Some? then a else Some(b)
  }

  function Answered(c: Call, now: int): Call {
    if c.HasJoinedOther() then c.(status := Active, answeredAt := OrElse(c.answeredAt, now)) else c
  }

  function Seated(c: Call, i: nat, now: int): Call
    requires i < |c.participants|
  {
    c.(participants := c.participants[i :=
      c.participants[i].(joinedAt := OrElse(c.participants[i].joinedAt, now), leftAt := None)])
  }

  function JoinedBy(c: Call, u: UserId, now: int): Call {
    var d := WithEntry(c, u);
    Answered(Seated(d, Find(d.participants, u), now), now)
  }

  function RungBy(c: Call, u: UserId, now: int): Call {
    var d := WithEntry(c, u);
    var i := Find(d.participants, u);
    var p := d.participants[i];
    if p.ringingAt.Some? then c else d.(participants := d.participants[i := p.(ringingAt := Some(now))])
  }

  function LeftBy(c: Call, i: nat, now: int): Call
    requires i < |c.participants|
  {
    c.(participants := c.participants[i := c.participants[i].(leftAt := OrElse(c.participants[i].leftAt, now))])
  }

  function EndedBy(c: Call, closer: UserId, reason: Reason, at: int): Call {
    c.(status := Ended, endedAt := Some(at), endedBy := Some(closer), reason := Some(reason),
       participants := Missed(Closed(c.participants, at), c.initiator, at))
  }

  function AcknowledgedBy(c: Call, i: nat, now: int): Call
    requires i < |c.participants|
  {
    c.(participants := c.participants[i :=
      c.participants[i].(acknowledgedAt := OrElse(c.participants[i].acknowledgedAt, now))])
  }

  // ---------- requests ----------

  /** The newest live call of room r. */
  function LiveCall(calls: seq<Call>, r: RoomId): (o: Option<CallId>)
    ensures o.Some? ==> o.value < |calls| && calls[o.value].room == r && calls[o.value].Live()
    ensures o.None? ==> forall i :: 0 <= i < |calls| ==> !(calls[i].room == r && calls[i].Live())
  {
    if |calls| == 0 then None
    else if calls[|calls| - 1].room == r && calls[|calls| - 1].Live() then Some(|calls| - 1)
    else LiveCall(calls[..|calls| - 1], r)
  }

  function RoomAccess(s: Switchboard, r: RoomId, u: UserId): Reply {
    if r !in s.rooms then Refused(404) else if Allowed(s.rooms[r], u) then Done else Refused(403)
  }

  function CallAccess(s: Switchboard, c: CallId, u: UserId): Reply {
    if c >= |s.calls| then Refused(404) else RoomAccess(s, s.calls[c].room, u)
  }

  predicate Manages(s: Switchboard, c: Call, u: UserId)
    requires c.room in s.rooms
  {
    u == s.rooms[c.room].createdBy || u == c.initiator
  }

  function Save(s: Switchboard, id: CallId, c: Call): Switchboard
    requires id < |s.calls|
  {
    s.(calls := s.calls[id := c])
  }

  function InvitedAll(us: seq<UserId>, at: int): (ps: seq<Participant>)
    ensures |ps| == |us| && forall i :: 0 <= i < |us| ==> ps[i] == Invited(us[i], at)
  {
    seq(|us|, i requires 0 <= i < |us| => Invited(us[i], at))
  }

  function NewCall(r: RoomId, room: Room, u: UserId, now: int): Call {
    Call(r, u, Ringing, InvitedAll(MemberIds(room), now), None, None, None, None, now)
  }

  function Invite(s: Switchboard, r: RoomId, u: UserId, m: Moment): Result {
    var access := RoomAccess(s, r, u);
    if access != Done then Result(s, access)
    else if LiveCall(s.calls, r).Some? then Result(s, Refused(409))
    else if u !in s.users then Result(s, Refused(404))
    else Result(s.(calls := s.calls + [NewCall(r, s.rooms[r], u, m.now)]), Done)
  }

  function Join(s: Switchboard, id: CallId, u: UserId, m: Moment): Result {
    var access := CallAccess(s, id, u);
    if access != Done then Result(s, access)
    else if !s.calls[id].Live() then Result(s, Refused(409))
    else if u !in s.users then Result(s, Refused(404))
    else Result(Save(s, id, JoinedBy(s.calls[id], u, m.now)), Done)
  }

  function Ring(s: Switchboard, id: CallId, u: UserId, m: Moment): Result {
    var access := CallAccess(s, id, u);
    if access != Done then Result(s, access)
    else if !s.calls[id].Live() then Result(s, Refused(409))
    else Result(Save(s, id, RungBy(s.calls[id], u, m.now)), Done)
  }

  /** t differs from s in call id at most. */
  ghost predicate OnlyTouches(s: Switchboard, t: Switchboard, id: CallId) {
    && t == s.(calls := t.calls) && |t.calls| == |s.calls|
    && forall j: nat :: j < |s.calls| && j != id ==> t.calls[j] == s.calls[j]
  }

  /** Nothing is stored unless the media room could be deleted. */
  function Close(s: Switchboard, id: CallId, closer: UserId, reason: Reason, m: Moment): (r: Result)
    requires id < |s.calls|
    ensures OnlyTouches(s, r.board, id)
  {
    if !s.calls[id].Live() then Result(s, Done)
    else if !m.closeWorks then Result(s, Refused(503))
    else Result(Save(s, id, EndedBy(s.calls[id], closer, reason, m.closing)), Done)
  }

  predicate EndsCall(c: Call, leaver: UserId) {
    !c.HasJoinedOther() && (leaver == c.initiator || !c.HasPendingOther())
  }

  function Leave(s: Switchboard, id: CallId, u: UserId, m: Moment): (r: Result)
    ensures OnlyTouches(s, r.board, id)
  {
    var access := CallAccess(s, id, u);
    if access != Done then Result(s, access)
    else
      var c := s.calls[id];
      var i := Find(c.participants, u);
      if !c.Live() || i == |c.participants| || c.participants[i].leftAt.Some? then Result(s, Done)
      else if c.participants[i].joinedAt.Some? && !m.kickWorks then Result(s, Refused(503))
      else
        var d := LeftBy(c, i, m.now);
        var t := Save(s, id, d);
        if EndsCall(d, u) then Close(t, id, u, d.UsualReason(), m) else Result(t, Done)
  }

  function End(s: Switchboard, id: CallId, u: UserId, m: Moment): Result {
    var access := CallAccess(s, id, u);
    if access != Done then Result(s, access)
    else if !Manages(s, s.calls[id], u) then Result(s, Refused(403))
    else Close(s, id, u, s.calls[id].UsualReason(), m)
  }

  function Remove(s: Switchboard, id: CallId, actor: UserId, target: UserId, m: Moment): (r: Result)
    ensures OnlyTouches(s, r.board, id)
  {
    var access := CallAccess(s, id, actor);
    if access != Done then Result(s, access)
    else if !Manages(s, s.calls[id], actor) then Result(s, Refused(403))
    else
      var c := s.calls[id];
      var i := Find(c.participants, target);
      if i == |c.participants| || !c.Live() then Result(s, Done)
      else if c.participants[i].Joined() && !m.kickWorks then Result(s, Refused(503))
      else
        var d := LeftBy(c, i, m.now);
        var t := Save(s, id, d);
        if !d.HasJoinedOther() && !d.HasPendingOther() then Close(t, id, actor, MemberRemoved, m) else Result(t, Done)
  }

  function Acknowledge(s: Switchboard, id: CallId, u: UserId, m: Moment): Result {
    if id >= |s.calls| then Result(s, Refused(404))
    else
      var c := s.calls[id];
      var i := Find(c.participants, u);
      if i == |c.participants| then Result(s, Refused(403))
      else if c.participants[i].missedAt.None? then Result(s, Refused(400))
      else Result(Save(s, id, AcknowledgedBy(c, i, m.now)), Done)
  }

  /** Called after the room service has taken the member out of room r. */
  function MemberGone(s: Switchboard, r: RoomId, target: UserId, actor: UserId, m: Moment): Result {
    var live := LiveCall(s.calls, r);
    if live.None? then Result(s, Done) else Remove(s, live.value, actor, target, m)
  }

  /** Called after the room service has deleted room r. A media failure is swallowed. */
  function RoomGone(s: Switchboard, r: RoomId, actor: UserId, m: Moment): Result {
    var live := LiveCall(s.calls, r);
    if live.None? then Result(s, Done)
    else Result(Close(s, live.value, actor, RoomDeleted, m).board, Done)
  }

  // ---------- runs ----------

  datatype Op =
    | DoInvite(room: RoomId, user: UserId)
    | DoJoin(call: CallId, user: UserId)
    | DoRing(call: CallId, user: UserId)
    | DoLeave(call: CallId, user: UserId)
    | DoEnd(call: CallId, user: UserId)
    | DoRemove(call: CallId, actor: UserId, target: UserId)
    | DoAcknowledge(call: CallId, user: UserId)
    | MemberTakenOut(room: RoomId, target: UserId, actor: UserId)
    | RoomTakenDown(room: RoomId, actor: UserId)
    | RoomsBecome(rooms: map<RoomId, Room>)

  datatype Event = Event(op: Op, moment: Moment)

  /** RoomsBecome stands for whatever the room service does between two call requests. */
  function Step(s: Switchboard, e: Event): Result {
    match e.op
    case DoInvite(r, u) => Invite(s, r, u, e.moment)
    case DoJoin(c, u) => Join(s, c, u, e.moment)
    case DoRing(c, u) => Ring(s, c, u, e.moment)
    case DoLeave(c, u) => Leave(s, c, u, e.moment)
    case DoEnd(c, u) => End(s, c, u, e.moment)
    case DoRemove(c, a, t) => Remove(s, c, a, t, e.moment)
    case DoAcknowledge(c, u) => Acknowledge(s, c, u, e.moment)
    case MemberTakenOut(r, t, a) => MemberGone(s, r, t, a, e.moment)
    case RoomTakenDown(r, a) => RoomGone(s, r, a, e.moment)
    case RoomsBecome(rooms) => Result(s.(rooms := rooms), Done)
  }

  function Run(s: Switchboard, es: seq<Event>): Switchboard {
    if |es| == 0 then s else Step(Run(s, es[..|es| - 1]), es[|es| - 1]).board
  }

  function Fresh(users: set<UserId>): Switchboard {
    Switchboard(users, map[], [])
  }

  /** When the last event is over; 0 before the first. */
  function Clock(es: seq<Event>): int {
    if |es| == 0 then 0 else es[|es| - 1].moment.closing
  }

  /** The clock never runs backwards, and the room service keeps member lists free of repetition. */
  ghost predicate Orderly(es: seq<Event>) {
    if |es| == 0 then true
    else
      && Orderly(es[..|es| - 1])
      && Clock(es[..|es| - 1]) <= es[|es| - 1].moment.now <= es[|es| - 1].moment.closing
      && RoomsFit(es[|es| - 1].op)
  }

  ghost predicate RoomsFit(op: Op) {
    op.RoomsBecome? ==> MembersDistinct(op.rooms)
  }

  ghost predicate MembersDistinct(rooms: map<RoomId, Room>) {
    forall r :: r in rooms ==> NoDup(rooms[r].members)
  }
}
