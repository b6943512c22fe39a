/** What holds of every call in every run, and how far one event may move a call. */
module CallInvariants {
  import opened Wrappers
  import M = ChatModel
  import opened Calls

  // ---------- the invariant ----------

  ghost predicate Before(a: Option<int>, b: Option<int>) {
    a.Some? && b.Some? ==> a.value <= b.value
  }

  ghost predicate Past(a: Option<int>, clock: int) {
    a.Some? ==> a.value <= clock
  }

  /** The entry of one participant of a call that is over at endedAt, if at all. */
  ghost predicate EntryOk(p: Participant, initiator: M.UserId, endedAt: Option<int>, clock: int) {
    && Before(p.joinedAt, p.leftAt) && Before(p.leftAt, endedAt)
    && Past(p.joinedAt, clock) && Past(p.leftAt, clock)
    && (p.missedAt.Some? <==> endedAt.Some? && p.userId != initiator && p.joinedAt.None? && p.leftAt.None?)
    && (p.missedAt.Some? ==> p.missedAt == endedAt)
    && (p.acknowledgedAt.Some? ==> p.missedAt.Some?)
    && (endedAt.Some? ==> !p.Joined())
  }

  ghost predicate EntriesOk(ps: seq<Participant>, initiator: M.UserId, endedAt: Option<int>, clock: int) {
    forall i :: 0 <= i < |ps| ==> EntryOk(ps[i], initiator, endedAt, clock)
  }

  ghost predicate DistinctUsers(ps: seq<Participant>) {
    forall i, j :: 0 <= i < j < |ps| ==> ps[i].userId != ps[j].userId
  }

  /** answeredAt is the least joinedAt of anybody but the initiator. */
  ghost predicate AnswerOk(c: Call) {
    && (forall i: nat :: i < |c.participants| && c.Other(i) && c.participants[i].joinedAt.Some? ==>
          c.answeredAt.Some? && c.answeredAt.value <= c.participants[i].joinedAt.value)
    && (c.answeredAt.Some? ==>
          exists i: nat :: i < |c.participants| && c.Other(i) && c.participants[i].joinedAt == c.answeredAt)
  }

  ghost predicate StatusOk(c: Call) {
    && (c.status.Ended? <==> c.endedAt.Some?)
    && (c.status.Ended? <==> c.endedBy.Some?)
    && (c.status.Ended? <==> c.reason.Some?)
    && (c.status.Ringing? ==> c.answeredAt.None?)
    && (c.status.Active? ==> c.answeredAt.Some?)
    && (c.reason == Some(Finished) ==> c.answeredAt.Some?)
    && (c.reason == Some(Cancelled) ==> c.answeredAt.None?)
  }

  ghost predicate CallOk(c: Call, clock: int) {
    && DistinctUsers(c.participants)
    && EntriesOk(c.participants, c.initiator, c.endedAt, clock)
    && AnswerOk(c)
    && StatusOk(c)
    && Past(c.endedAt, clock)
    && Past(c.answeredAt, clock)
  }

  ghost predicate OneLive(calls: seq<Call>) {
    forall i, j :: 0 <= i < j < |calls| && calls[i].Live() && calls[j].Live() ==> calls[i].room != calls[j].room
  }

  ghost predicate BoardOk(s: Switchboard, clock: int) {
    && (forall i :: 0 <= i < |s.calls| ==> CallOk(s.calls[i], clock))
    && OneLive(s.calls)
    && MembersDistinct(s.rooms)
  }

  // ---------- how far a call may move ----------

  ghost predicate SameOrSet(a: Option<int>, b: Option<int>) {
    a.Some? ==> b == a
  }

  /** Only the acknowledgement of a missed call may have been filled in. */
  ghost predicate OnlyAcknowledged(p: Participant, q: Participant) {
    q == p || (p.missedAt.Some? && p.acknowledgedAt.None? && q == p.(acknowledgedAt := q.acknowledgedAt))
  }

  ghost predicate FrozenSince(c: Call, d: Call) {
    && d == c.(participants := d.participants)
    && |d.participants| == |c.participants|
    && forall i :: 0 <= i < |c.participants| ==> OnlyAcknowledged(c.participants[i], d.participants[i])
  }

  ghost predicate EntryGrew(p: Participant, q: Participant) {
    && q.userId == p.userId && q.invitedAt == p.invitedAt
    && SameOrSet(p.ringingAt, q.ringingAt) && SameOrSet(p.joinedAt, q.joinedAt)
    && SameOrSet(p.missedAt, q.missedAt) && SameOrSet(p.acknowledgedAt, q.acknowledgedAt)
  }

  ghost predicate EntriesGrew(ps: seq<Participant>, qs: seq<Participant>) {
    |ps| <= |qs| && forall i :: 0 <= i < |ps| ==> EntryGrew(ps[i], qs[i])
  }

  /** Ringing, then active, then ended, never back; first times and the answer time stay; the end is final. */
  ghost predicate Evolved(c: Call, d: Call) {
    && d.room == c.room && d.initiator == c.initiator && d.createdAt == c.createdAt
    && EntriesGrew(c.participants, d.participants)
    && SameOrSet(c.answeredAt, d.answeredAt)
    && (!c.status.Ringing? ==> !d.status.Ringing?)
    && (c.status.Ended? ==> FrozenSince(c, d))
  }

  lemma EvolvedTwice(c: Call, d: Call, e: Call)
    requires Evolved(c, d) && Evolved(d, e)
    ensures Evolved(c, e)
  {
    forall i | 0 <= i < |c.participants| ensures EntryGrew(c.participants[i], e.participants[i]) {
      assert EntryGrew(c.participants[i], d.participants[i]) && EntryGrew(d.participants[i], e.participants[i]);
    }
    if c.status.Ended? {
      forall i | 0 <= i < |c.participants| ensures OnlyAcknowledged(c.participants[i], e.participants[i]) {
        assert OnlyAcknowledged(c.participants[i], d.participants[i]);
        assert OnlyAcknowledged(d.participants[i], e.participants[i]);
      }
    }
  }

  // ---------- one call, one change ----------

  lemma LaterOk(c: Call, before: int, after: int)
    requires CallOk(c, before) && before <= after
    ensures CallOk(c, after)
  {
  }

  /** The answer rule reads user ids and join times only. */
  lemma AnswerStays(c: Call, d: Call)
    requires AnswerOk(c) && d.initiator == c.initiator && d.answeredAt == c.answeredAt
    requires |c.participants| <= |d.participants|
    requires forall i: nat :: i < |c.participants| ==>
               d.participants[i].userId == c.participants[i].userId
                 && d.participants[i].joinedAt == c.participants[i].joinedAt
    requires forall i: nat :: |c.participants| <= i < |d.participants| ==> d.participants[i].joinedAt.None?
    ensures AnswerOk(d)
  {
    forall i: nat | i < |d.participants| && d.Other(i) && d.participants[i].joinedAt.Some?
      ensures d.answeredAt.Some? && d.answeredAt.value <= d.participants[i].joinedAt.value
    {
      assert c.Other(i);
    }
    if d.answeredAt.Some? {
      var i: nat :| i < |c.participants| && c.Other(i) && c.participants[i].joinedAt == c.answeredAt;
      assert d.Other(i);
    }
  }

  lemma NewCallOk(r: M.RoomId, room: M.Room, u: M.UserId, now: int)
    requires NoDup(room.members)
    ensures CallOk(NewCall(r, room, u, now), now)
  {
    var c := NewCall(r, room, u, now);
    assert NoDup(M.MemberIds(room));
    assert AnswerOk(c);
  }

  lemma WithEntryKeeps(c: Call, u: M.UserId, clock: int)
    requires CallOk(c, clock) && c.Live()
    ensures var d := WithEntry(c, u);
            && CallOk(d, clock) && d == c.(participants := d.participants)
            && EntriesGrew(c.participants, d.participants) && Find(d.participants, u) < |d.participants|
  {
    var d := WithEntry(c, u);
    if d != c {
      assert d.participants[|c.participants|].userId == u;
    }
    AnswerStays(c, d);
  }

  lemma RungKeeps(c: Call, u: M.UserId, now: int)
    requires CallOk(c, now) && c.Live()
    ensures CallOk(RungBy(c, u, now), now) && Evolved(c, RungBy(c, u, now)) && RungBy(c, u, now).Live()
  {
    WithEntryKeeps(c, u, now);
    AnswerStays(c, RungBy(c, u, now));
  }

  lemma LeftKeeps(c: Call, i: nat, now: int)
    requires CallOk(c, now) && c.Live() && i < |c.participants|
    ensures CallOk(LeftBy(c, i, now), now) && Evolved(c, LeftBy(c, i, now)) && LeftBy(c, i, now).Live()
  {
    AnswerStays(c, LeftBy(c, i, now));
  }

  lemma EndedEntry(p: Participant, q: Participant, initiator: M.UserId, clock: int, at: int)
    requires EntryOk(p, initiator, None, clock) && clock <= at
    requires q == EntryAtEnd(p, initiator, at)
    ensures EntryOk(q, initiator, Some(at), at) && EntryGrew(p, q)
    ensures q.userId == p.userId && q.joinedAt == p.joinedAt
  {
  }

  /** What becomes of one entry when the call ends: at most one of the two loops touches it. */
  function EntryAtEnd(p: Participant, initiator: M.UserId, at: int): Participant {
    if p.Joined() then p.(leftAt := Some(at))
    else if Unreached(p, initiator) then p.(missedAt := Some(at))
    else p
  }

  lemma EndedEntries(c: Call, u: M.UserId, reason: Reason, at: int)
    ensures var d := EndedBy(c, u, reason, at);
            && |d.participants| == |c.participants|
            && forall i :: 0 <= i < |c.participants| ==>
                 d.participants[i] == EntryAtEnd(c.participants[i], c.initiator, at)
  {
  }

  lemma EndedKeeps(c: Call, u: M.UserId, reason: Reason, clock: int, at: int)
    requires CallOk(c, clock) && c.Live() && clock <= at
    requires reason == Finished ==> c.answeredAt.Some?
    requires reason == Cancelled ==> c.answeredAt.None?
    ensures CallOk(EndedBy(c, u, reason, at), at) && Evolved(c, EndedBy(c, u, reason, at))
  {
    var d := EndedBy(c, u, reason, at);
    EndedEntries(c, u, reason, at);
    var qs := d.participants;
    forall i | 0 <= i < |qs|
      ensures EntryOk(qs[i], c.initiator, Some(at), at) && EntryGrew(c.participants[i], qs[i])
      ensures qs[i].userId == c.participants[i].userId && qs[i].joinedAt == c.participants[i].joinedAt
    {
      EndedEntry(c.participants[i], qs[i], c.initiator, clock, at);
    }
    assert d == Call(c.room, c.initiator, Ended, qs, c.answeredAt, Some(at), Some(u), Some(reason), c.createdAt);
    AnswerStays(c, d);
  }

  lemma AcknowledgedKeeps(c: Call, i: nat, now: int)
    requires CallOk(c, now) && i < |c.participants| && c.participants[i].missedAt.Some?
    ensures CallOk(AcknowledgedBy(c, i, now), now) && Evolved(c, AcknowledgedBy(c, i, now))
    ensures c.status.Ended? && AcknowledgedBy(c, i, now).status.Ended?
  {
    AnswerStays(c, AcknowledgedBy(c, i, now));
  }

  lemma SeatedKeeps(c: Call, i: nat, now: int)
    requires CallOk(c, now) && c.Live() && i < |c.participants|
    ensures var e := Seated(c, i, now);
            && DistinctUsers(e.participants) && EntriesOk(e.participants, c.initiator, None, now)
            && EntriesGrew(c.participants, e.participants)
  {
    assert EntryOk(c.participants[i], c.initiator, None, now);
  }

  /** The entry of the joiner is filled in; then the call is answered if it was not. */
  lemma JoinedKeeps(c: Call, u: M.UserId, now: int)
    requires CallOk(c, now) && c.Live()
    ensures CallOk(JoinedBy(c, u, now), now) && Evolved(c, JoinedBy(c, u, now)) && JoinedBy(c, u, now).Live()
  {
    WithEntryKeeps(c, u, now);
    var d := WithEntry(c, u);
    var i := Find(d.participants, u);
    SeatedKeeps(d, i, now);
    JoinedAnswers(d, i, now);
    AnsweredKeeps(c, d, Seated(d, i, now), now);
  }

  lemma AnsweredKeeps(c: Call, d: Call, e: Call, now: int)
    requires CallOk(d, now) && d.Live() && d == c.(participants := d.participants)
    requires e == d.(participants := e.participants)
    requires DistinctUsers(e.participants) && EntriesOk(e.participants, d.initiator, None, now)
    requires EntriesGrew(c.participants, d.participants) && EntriesGrew(d.participants, e.participants)
    requires AnswerOk(Answered(e, now)) && Past(Answered(e, now).answeredAt, now)
    requires Answered(e, now).status.Ringing? ==> Answered(e, now).answeredAt.None?
    ensures CallOk(Answered(e, now), now) && Evolved(c, Answered(e, now)) && Answered(e, now).Live()
  {
    var f := Answered(e, now);
    assert f == e.(status := f.status, answeredAt := f.answeredAt);
    forall i | 0 <= i < |c.participants| ensures EntryGrew(c.participants[i], f.participants[i]) {
      assert EntryGrew(c.participants[i], d.participants[i]) && EntryGrew(d.participants[i], e.participants[i]);
    }
  }

  lemma JoinedAnswers(d: Call, i: nat, now: int)
    requires CallOk(d, now) && i < |d.participants|
    ensures var f := Answered(Seated(d, i, now), now);
            && AnswerOk(f) && (f.status.Ringing? ==> f.answeredAt.None?) && Past(f.answeredAt, now)
  {
    var e := Seated(d, i, now);
    assert forall j: nat :: j < |d.participants| ==> EntryOk(d.participants[j], d.initiator, d.endedAt, now);
    var f := Answered(e, now);
    if d.answeredAt.Some? {
      var j: nat :| j < |d.participants| && d.Other(j) && d.participants[j].joinedAt == d.answeredAt;
      assert f.Other(j) && f.participants[j].joinedAt == f.answeredAt;
      forall k: nat | k < |f.participants| && f.Other(k) && f.participants[k].joinedAt.Some?
        ensures f.answeredAt.value <= f.participants[k].joinedAt.value
      {
        assert d.Other(k);
      }
    } else {
      forall k: nat | k < |d.participants| && k != i && d.Other(k) ensures d.participants[k].joinedAt.None? {}
      if d.Other(i) {
        assert d.participants[i].joinedAt.None?;
        assert e.Other(i) && e.participants[i].Joined();
        assert f.Other(i) && f.participants[i].joinedAt == f.answeredAt;
      } else {
        forall k: nat | k < |e.participants| && e.Other(k) ensures !e.participants[k].Joined() {
          assert d.Other(k);
        }
        assert f == e;
        forall k: nat | k < |f.participants| && f.Other(k) ensures f.participants[k].joinedAt.None? {
          assert d.Other(k);
        }
      }
      forall k: nat | k < |f.participants| && f.Other(k) && f.participants[k].joinedAt.Some?
        ensures f.answeredAt.Some? && f.answeredAt.value <= f.participants[k].joinedAt.value
      {
        assert d.Other(k);
      }
    }
  }
}
