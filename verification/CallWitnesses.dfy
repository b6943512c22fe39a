/** Runs of call events, from an empty switchboard, that show what the call service does not promise. */
module CallWitnesses {
  import opened Wrappers
  import M = ChatModel
  import opened Calls
  import opened CallTheorems

  lemma OneMore(s: Switchboard, es: seq<Event>, e: Event)
    ensures Run(s, es + [e]) == Step(Run(s, es), e).board
  {
    assert (es + [e])[..|es|] == es;
  }

  lemma TwoMore(s: Switchboard, es: seq<Event>, e: Event, f: Event)
    ensures Run(s, es + [e] + [f]) == Step(Step(Run(s, es), e).board, f).board
  {
    OneMore(s, es, e);
    OneMore(s, es + [e], f);
  }

  /** A moment at which the media server lets people go; its rooms can be deleted or not. */
  function At(now: int, closeWorks: bool): Moment {
    Moment(now, now, true, closeWorks)
  }

  // ---------- two members, one of them calls ----------

  function Pair(a: M.UserId, b: M.UserId): M.Room {
    M.Room(true, [a, b], a, [], None)
  }

  function Calling(r: M.RoomId, a: M.UserId, b: M.UserId): seq<Event> {
    [] + [Event(RoomsBecome(map[r := Pair(a, b)]), At(1, true))] + [Event(DoInvite(r, a), At(2, true))]
  }

  function TheCall(r: M.RoomId, a: M.UserId, b: M.UserId): Call {
    NewCall(r, Pair(a, b), a, 2)
  }

  function Rung(r: M.RoomId, a: M.UserId, b: M.UserId): Switchboard {
    Switchboard({a, b}, map[r := Pair(a, b)], [TheCall(r, a, b)])
  }

  lemma Rings(r: M.RoomId, a: M.UserId, b: M.UserId)
    requires a != b
    ensures Run(Fresh({a, b}), Calling(r, a, b)) == Rung(r, a, b)
    ensures TheCall(r, a, b).participants == [Invited(a, 2), Invited(b, 2)]
  {
    TwoMore(Fresh({a, b}), [], Event(RoomsBecome(map[r := Pair(a, b)]), At(1, true)),
      Event(DoInvite(r, a), At(2, true)));
    assert [] + [TheCall(r, a, b)] == [TheCall(r, a, b)];
    assert M.MemberIds(Pair(a, b)) == [a, b];
  }

  lemma FindsGuest(ps: seq<Participant>, a: M.UserId, b: M.UserId)
    requires |ps| == 2 && ps[0].userId == a && ps[1].userId == b && a != b
    ensures Find(ps, b) == 1 && Find(ps, a) == 0
  {
  }

  // ---------- a live call that waits for nobody ----------

  lemma GuestDeclines(r: M.RoomId, a: M.UserId, b: M.UserId, t: Moment)
    requires a != b && !t.closeWorks
    ensures var c := Leave(Rung(r, a, b), 0, b, t).board.calls[0]; c.Live() && !c.HasPendingOther()
  {
    Rings(r, a, b);
    var c := TheCall(r, a, b);
    FindsGuest(c.participants, a, b);
    var d := LeftBy(c, 1, t.now);
    assert d.participants == [Invited(a, 2), Invited(b, 2).(leftAt := Some(t.now))];
    assert Leave(Rung(r, a, b), 0, b, t).board == Save(Rung(r, a, b), 0, d);
  }

  /** The only guest declines, the media room cannot be deleted, and the call goes on ringing for nobody. */
  lemma StrandedCallHappens(r: M.RoomId, a: M.UserId, b: M.UserId)
    requires a != b
    ensures var s := Run(Fresh({a, b}), Calling(r, a, b) + [Event(DoLeave(0, b), At(3, false))]);
            |s.calls| == 1 && s.calls[0].Live() && !s.calls[0].HasPendingOther()
  {
    Rings(r, a, b);
    OneMore(Fresh({a, b}), Calling(r, a, b), Event(DoLeave(0, b), At(3, false)));
    GuestDeclines(r, a, b, At(3, false));
  }

  // ---------- a former member in a live call ----------

  function Answered(r: M.RoomId, a: M.UserId, b: M.UserId): Call {
    JoinedBy(TheCall(r, a, b), b, 3)
  }

  lemma GuestJoins(r: M.RoomId, a: M.UserId, b: M.UserId)
    requires a != b
    ensures Join(Rung(r, a, b), 0, b, At(3, true)) == Result(Save(Rung(r, a, b), 0, Answered(r, a, b)), M.Done)
    ensures var c := Answered(r, a, b);
            c.room == r && c.Live() && |c.participants| == 2 && c.participants[1].userId == b
              && c.participants[1].Joined()
  {
    Rings(r, a, b);
    FindsGuest(TheCall(r, a, b).participants, a, b);
  }

  /** The room once b has left it. */
  function Left(a: M.UserId): M.Room {
    M.Room(true, [a], a, [], None)
  }

  lemma LeaverIsRefused(s: Switchboard, r: M.RoomId, a: M.UserId, b: M.UserId, t: Moment)
    requires a != b && |s.calls| == 1 && s.calls[0].room == r && s.calls[0].Live() && s.rooms == map[r := Left(a)]
    ensures MemberGone(s, r, b, b, t).board == s
  {
    assert !M.Allowed(Left(a), b);
  }

  /** A guest joins, leaves the room on their own, and is still in the call after its clean-up. */
  lemma LeaverInCallHappens(r: M.RoomId, a: M.UserId, b: M.UserId)
    requires a != b
    ensures var s := Run(Fresh({a, b}),
                         Calling(r, a, b) + [Event(DoJoin(0, b), At(3, true))]
                         + [Event(RoomsBecome(map[r := Left(a)]), At(4, true))]
                         + [Event(MemberTakenOut(r, b, b), At(5, true))]);
            && |s.calls| == 1 && s.calls[0].Live() && |s.calls[0].participants| == 2
            && s.calls[0].participants[1].userId == b && s.calls[0].participants[1].Joined()
            && s.rooms == map[r := Left(a)]
  {
    var es := Calling(r, a, b);
    Rings(r, a, b);
    GuestJoins(r, a, b);
    OneMore(Fresh({a, b}), es, Event(DoJoin(0, b), At(3, true)));
    var before := es + [Event(DoJoin(0, b), At(3, true))];
    TwoMore(Fresh({a, b}), before, Event(RoomsBecome(map[r := Left(a)]), At(4, true)),
            Event(MemberTakenOut(r, b, b), At(5, true)));
    LeaverIsRefused(Save(Rung(r, a, b), 0, Answered(r, a, b)).(rooms := map[r := Left(a)]), r, a, b, At(5, true));
  }
}
