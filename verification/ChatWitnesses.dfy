/** Runs from the empty store that show what the chat services do not promise. */
module ChatWitnesses {
  import opened Wrappers
  import opened ChatModel
  import opened ChatInvariants
  import opened ChatIndex
  import opened ChatEffects

  lemma OneMore(users: set<UserId>, ops: seq<Op>, op: Op)
    ensures Run(users, ops + [op]) == Step(Run(users, ops), op).chat
  {
    assert (ops + [op])[..|ops|] == ops;
  }

  lemma TwoMore(users: set<UserId>, ops: seq<Op>, a: Op, b: Op)
    ensures Run(users, ops + [a] + [b]) == Step(Step(Run(users, ops), a).chat, b).chat
  {
    OneMore(users, ops, a);
    OneMore(users, ops + [a], b);
  }

  // ---------- a user alone in a group sends one message ----------

  function OneMessage(u: UserId, body: Body): seq<Op> {
    [] + [CreateGroupOp(u, [])] + [SendOp(0, u, false, body, NO_FAULTS)]
  }

  function OwnGroup(u: UserId): Room {
    Room(true, [u], u, [], None)
  }

  function Alone(u: UserId): Chat {
    Init({u}).(nextId := 1, rooms := map[0 := OwnGroup(u)])
  }

  function Sent(u: UserId, body: Body): Chat {
    Init({u}).(nextId := 2, rooms := map[0 := OwnGroup(u)],
               messages := map[1 := Message(0, u, false, body, {u}, false)],
               access := map[(0, u) := true], index := map[1 := body.text])
  }

  lemma GroupOfOne(u: UserId)
    ensures CreateGroup(Init({u}), u, []).chat == Alone(u)
  {
    assert [u] + [] == [u];
    assert Dedupe([u]) == [u] by { assert [u][..0] == []; }
  }

  lemma NobodyToCount(u: UserId)
    ensures Recipients(OwnGroup(u), u) == []
    ensures Incremented(map[], 0, Reached(OwnGroup(u), u, NO_FAULTS)) == map[]
  {
    assert [] + [u] == [u];
    WithoutAppended([], u);
    assert Users([]) == {};
  }

  lemma FirstSend(u: UserId, body: Body)
    ensures SendMessage(Alone(u), 0, u, false, body, NO_FAULTS).chat == Sent(u, body)
  {
    NobodyToCount(u);
    var s := Alone(u);
    assert GetForUser(s, 0, u) == Outcome(s.(access := map[(0, u) := true]), Done);
    assert map[1 := NewMessage(0, u, false, body)] == map[1 := Message(0, u, false, body, {u}, false)];
  }

  lemma OneMessageSent(u: UserId, body: Body)
    ensures Run({u}, OneMessage(u, body)) == Sent(u, body)
  {
    GroupOfOne(u);
    FirstSend(u, body);
    TwoMore({u}, [], CreateGroupOp(u, []), SendOp(0, u, false, body, NO_FAULTS));
  }

  /** The entry of a message that is gone or deleted stays in the index, and no queued job will take it out. */
  ghost predicate LeftBehind(s: Chat, m: MessageId) {
    m in s.index && !Live(s, m) && !Covered(s, m)
  }

  // ---------- a dead letter ----------

  lemma RoomDeleted(u: UserId, body: Body)
    ensures var s := DeleteRoom(Sent(u, body), 0, u).chat;
            s.index == map[1 := body.text] && s.messages == map[] && s.dead == {} && s.pending == {RoomCleanup(0, {1})}
  {
    var s := Sent(u, body);
    assert RoomMessages(s.messages, 0) == {1};
    assert s.messages - {1} == map[];
  }

  lemma JobGivenUp(s: Chat, c: Cleanup, m: MessageId)
    requires s.pending == {c} && s.dead == {} && m in s.index && m !in s.messages
    ensures var t := RunCleanup(s, c, Some(Reach({}, false)), true).chat; LeftBehind(t, m) && t.dead == {c}
  {
    assert s.index - ({} * Subjects(c)) == s.index;
  }

  /** The message's room is deleted, and its cleanup job gives up before reaching the message. */
  function GivenUp(u: UserId, body: Body): seq<Op> {
    OneMessage(u, body) + [DeleteRoomOp(0, u)] + [RunCleanupOp(RoomCleanup(0, {1}), Some(Reach({}, false)), true)]
  }

  /** A dead letter leaves the entry of a deleted message behind. */
  lemma DeadLetterLeavesEntry(u: UserId, body: Body)
    ensures var s := Run({u}, GivenUp(u, body)); LeftBehind(s, 1) && s.dead == {RoomCleanup(0, {1})}
  {
    OneMessageSent(u, body);
    RoomDeleted(u, body);
    GivenUpAfter({u}, OneMessage(u, body), u, Sent(u, body));
  }

  lemma GivenUpAfter(users: set<UserId>, ops: seq<Op>, u: UserId, s: Chat)
    requires Run(users, ops) == s
    requires var t := DeleteRoom(s, 0, u).chat;
             t.pending == {RoomCleanup(0, {1})} && t.dead == {} && 1 in t.index && 1 !in t.messages
    ensures var r := Run(users, ops + [DeleteRoomOp(0, u)]
                              + [RunCleanupOp(RoomCleanup(0, {1}), Some(Reach({}, false)), true)]);
            LeftBehind(r, 1) && r.dead == {RoomCleanup(0, {1})}
  {
    TwoMore(users, ops, DeleteRoomOp(0, u), RunCleanupOp(RoomCleanup(0, {1}), Some(Reach({}, false)), true));
    JobGivenUp(DeleteRoom(s, 0, u).chat, RoomCleanup(0, {1}), 1);
  }

  // ---------- deletes ----------

  lemma DeletedOnce(u: UserId, body: Body, unindex: CallResult)
    ensures var o := Delete(Sent(u, body), 1, u, unindex);
            && (o.reply == Done <==> unindex.Returned?)
            && (unindex == Raised(false) ==> LeftBehind(o.chat, 1))
  {
    DeleteAnswersIff(Sent(u, body), 1, u, unindex);
  }

  lemma DeletedAfter(users: set<UserId>, ops: seq<Op>, m: MessageId, u: UserId, unindex: CallResult, s: Chat)
    requires Run(users, ops) == s && LeftBehind(Delete(s, m, u, unindex).chat, m)
    ensures LeftBehind(Run(users, ops + [DeleteOp(m, u, unindex)]), m)
  {
    OneMore(users, ops, DeleteOp(m, u, unindex));
  }

  /** A delete whose index call raises without effect leaves the entry of its message behind. */
  lemma FailedUnindexLeavesEntry(u: UserId, body: Body)
    ensures LeftBehind(Run({u}, OneMessage(u, body) + [DeleteOp(1, u, Raised(false))]), 1)
  {
    OneMessageSent(u, body);
    DeletedOnce(u, body, Raised(false));
    DeletedAfter({u}, OneMessage(u, body), 1, u, Raised(false), Sent(u, body));
  }

  /** In any run, a message deleted well and deleted again fails the second time, which changes nothing. */
  lemma DeletedTwice(users: set<UserId>, ops: seq<Op>, m: MessageId, u: UserId)
    requires Delete(Run(users, ops), m, u, Returned).reply == Done
    ensures var s := Run(users, ops + [DeleteOp(m, u, Returned)]); Delete(s, m, u, Returned) == Outcome(s, Failed)
  {
    RunKeepsCore(users, ops);
    OneMore(users, ops, DeleteOp(m, u, Returned));
    SecondDeleteFails(Run(users, ops), m, u);
  }

  /** And there is such a run. */
  lemma SecondDeleteHappens(u: UserId, body: Body)
    ensures Delete(Run({u}, OneMessage(u, body)), 1, u, Returned).reply == Done
    ensures Delete(Run({u}, OneMessage(u, body) + [DeleteOp(1, u, Returned)]), 1, u, Returned).reply == Failed
  {
    OneMessageSent(u, body);
    DeletedOnce(u, body, Returned);
    DeletedTwice({u}, OneMessage(u, body), 1, u);
  }
}
