/**
 The search index against the database. When the compensating calls of a failed send or edit work,
 what the index holds is the text of live messages, or is covered by a queued cleanup job.
 */
module ChatIndex {
  import opened Wrappers
  import opened ChatModel
  import opened ChatInvariants

  predicate Live(s: Chat, m: MessageId) {
    m in s.messages && !s.messages[m].isDeleted
  }

  ghost predicate Covered(s: Chat, m: MessageId) {
    exists j :: j in s.pending && j.Covers(m)
  }

  /** A live message is indexed; an entry has a live message's text, or a job will take it out. */
  ghost predicate IndexedOk(s: Chat, m: MessageId) {
    && (Live(s, m) ==> m in s.index)
    && (m in s.index ==> m < s.nextId && (Covered(s, m) || (Live(s, m) && s.index[m] == s.messages[m].body.text)))
  }

  // ---------- one send ----------

  /** Neither a message, nor an index entry that nobody will clean. */
  ghost predicate NoTrace(s: Chat, m: MessageId) {
    m !in s.messages && (m in s.index ==> Covered(s, m))
  }

  /** The rollback's calls that matter got through. */
  predicate CleansUp(f: SendFaults) {
    f.drop.TookEffect()
    && (f.index.TookEffect() ==> f.drop.Returned? && (f.unindex.TookEffect() || f.enqueueOk))
  }

  /** A send that fails at indexing or counting leaves no trace exactly when its rollback got through. */
  lemma FailedSendLeavesNoTrace(s: Chat, r: RoomId, sender: UserId, voice: bool, body: Body, f: SendFaults)
    requires Core(s) && JobsOk(s) && r in s.rooms && s.nextId !in s.index
    requires RollsBack(f, Recipients(s.rooms[r], sender) != [])
    ensures var o := SendEncrypted(s, r, sender, voice, body, f);
      o.reply == Failed && (NoTrace(o.chat, s.nextId) <==> CleansUp(f))
  {
    var m := s.nextId;
    var s' := SendEncrypted(s, r, sender, voice, body, f).chat;
    assert forall j :: j in s.pending + (s.finished + s.dead) ==> JobOk(s, j) && !j.Covers(m);
    if LeavesJob(f, Recipients(s.rooms[r], sender) != []) {
      assert MessageCleanup(m) in s'.pending && MessageCleanup(m).Covers(m);
    }
  }

  // ---------- one edit ----------

  ghost predicate InStep(s: Chat, m: MessageId) {
    m in s.messages && m in s.index && s.index[m] == s.messages[m].body.text
  }

  /** Which faults of an edit leave database and index in step. */
  predicate EditSafe(f: EditFaults) {
    match (f.save, f.index, f.restore)
    case (Raised(applied), _, _) => !applied
    case (Returned, Returned, _) => true
    case (Returned, Raised(indexed), Returned) => f.reindex.TookEffect() || !indexed
    case (Returned, Raised(indexed), Raised(restored)) => restored != indexed
  }

  /** An edit that changes the text keeps database and index in step exactly for these faults. */
  lemma EditInStepIff(s: Chat, m: MessageId, body: Body, f: EditFaults)
    requires InStep(s, m) && body.text != s.messages[m].body.text
    ensures InStep(EditStored(s, m, body, f).chat, m) <==> EditSafe(f)
  {
  }

  /** With an all-or-nothing save and a rollback whose calls succeed: all new on success, all old on failure. */
  lemma EditAllOrNothing(s: Chat, m: MessageId, body: Body, f: EditFaults)
    requires InStep(s, m)
    requires f.save != Raised(true) && f.restore.Returned? && f.reindex.Returned?
    ensures var o := EditStored(s, m, body, f); var text := o.chat.messages[m].body;
      && InStep(o.chat, m)
      && (if f.save.Returned? && f.index.Returned? then text == body && o.reply == Done
          else text == s.messages[m].body && o.reply == Failed)
      && (forall k :: k in s.messages && k != m ==> o.chat.messages[k] == s.messages[k])
  {
  }

  /** A rollback whose calls get through leaves the old text stored and indexed, whatever the index held before. */
  lemma RollbackReindexes(s: Chat, m: MessageId, body: Body, f: EditFaults)
    requires m in s.messages
    requires f.save.Returned? && f.index.Raised? && f.restore.Returned? && f.reindex.TookEffect()
    ensures var o := EditStored(s, m, body, f);
      && o.reply == Failed && InStep(o.chat, m) && o.chat.messages == s.messages
      && forall k :: k != m ==> (k in o.chat.index <==> k in s.index)
                                && (k in s.index ==> o.chat.index[k] == s.index[k])
  {
  }

  // ---------- what one operation does to one message ----------

  /** The faults of a send that leave its message indexed, or no entry without a job. */
  predicate SendSafe(f: SendFaults, anyRecipient: bool) {
    var entry := Indexes(f) && !Unindexes(f, anyRecipient);
    if Stays(f, anyRecipient) then entry else entry ==> LeavesJob(f, anyRecipient)
  }

  /** The edit gets past its checks. */
  predicate Edits(s: Chat, m: MessageId, u: UserId) {
    && Live(s, m) && s.messages[m].sender == u && !s.messages[m].voice
    && GetForUser(s, s.messages[m].room, u).reply == Done
  }

  /** The job gives up without having taken the entry of m out, and no other job will. */
  ghost predicate GivesUpOn(s: Chat, c: Cleanup, reached: Option<Reach>, lastTry: bool, m: MessageId) {
    && c in s.pending && c.Covers(m) && m in s.index
    && reached.Some? && lastTry && m !in reached.value.messages
    && forall j :: j in s.pending && j != c ==> !j.Covers(m)
  }

  /** When an operation puts the entry of message m out of order. */
  ghost predicate Spoils(s: Chat, op: Op, m: MessageId) {
    match op
    case SendOp(r, u, _, _, f) =>
      Sends(s, r, u) && m == s.nextId && !SendSafe(f, Recipients(s.rooms[r], u) != [])
    case ForwardOp(r, u, ids, fs) =>
      && ForwardMessages(s, r, u, ids, fs).reply == Done && r in s.rooms
      && s.nextId <= m < s.nextId + |ids|
      && !SendSafe(FaultsAt(fs, m - s.nextId), Recipients(s.rooms[r], u) != [])
    case EditOp(e, u, body, f) =>
      e == m && Edits(s, m, u) && body.text != s.messages[m].body.text && !EditSafe(f)
    case DeleteOp(e, u, unindex) =>
      e == m && Live(s, m) && s.messages[m].sender == u && unindex == Raised(false)
    case RunCleanupOp(c, reached, lastTry) => GivesUpOn(s, c, reached, lastTry, m)
    case _ => false
  }

  /** The entries of other messages are as they were, for better or worse. */
  lemma SendLeavesOthers(s: Chat, r: RoomId, sender: UserId, voice: bool, body: Body, f: SendFaults, m: MessageId)
    requires r in s.rooms && m != s.nextId
    ensures IndexedOk(SendEncrypted(s, r, sender, voice, body, f).chat, m) <==> IndexedOk(s, m)
  {
    var s' := SendEncrypted(s, r, sender, voice, body, f).chat;
    assert Covered(s, m) <==> Covered(s', m) by {
      if j :| j in s.pending && j.Covers(m) { assert j in s'.pending; }
    }
  }

  lemma SendIndexIff(s: Chat, r: RoomId, sender: UserId, voice: bool, body: Body, f: SendFaults, m: MessageId)
    requires Core(s) && JobsOk(s) && r in s.rooms && IndexedOk(s, m)
    ensures IndexedOk(SendEncrypted(s, r, sender, voice, body, f).chat, m) <==>
            (m == s.nextId ==> SendSafe(f, Recipients(s.rooms[r], sender) != []))
  {
    var some := Recipients(s.rooms[r], sender) != [];
    var s' := SendEncrypted(s, r, sender, voice, body, f).chat;
    if m != s.nextId {
      SendLeavesOthers(s, r, sender, voice, body, f, m);
    } else {
      assert forall j :: j in s.pending + (s.finished + s.dead) ==> JobOk(s, j) && !j.Covers(m);
      assert Covered(s', m) <==> LeavesJob(f, some) by {
        if LeavesJob(f, some) {
          assert MessageCleanup(m) in s'.pending && MessageCleanup(m).Covers(m);
        }
      }
    }
  }

  /** One more copy, after i copies from a state with n as the next id. */
  lemma ForwardOneIndexIff(before: Chat, n: MessageId, i: nat, r: RoomId, u: UserId, voice: bool, body: Body,
                           fs: seq<SendFaults>, m: MessageId)
    requires Core(before) && JobsOk(before) && r in before.rooms && before.nextId == n + i
    requires var anyRecipient := Recipients(before.rooms[r], u) != [];
             IndexedOk(before, m) <==> (n <= m < n + i ==> SendSafe(FaultsAt(fs, m - n), anyRecipient))
    requires m == before.nextId ==> IndexedOk(before, m)
    ensures var anyRecipient := Recipients(before.rooms[r], u) != [];
            IndexedOk(SendEncrypted(before, r, u, voice, body, FaultsAt(fs, i)).chat, m) <==>
            (n <= m < n + i + 1 ==> SendSafe(FaultsAt(fs, m - n), anyRecipient))
  {
    if m == before.nextId {
      SendIndexIff(before, r, u, voice, body, FaultsAt(fs, i), m);
    } else {
      SendLeavesOthers(before, r, u, voice, body, FaultsAt(fs, i), m);
    }
  }

  lemma {:induction false} ForwardAllIndexIff(s: Chat, r: RoomId, u: UserId, sources: seq<Message>,
                                              fs: seq<SendFaults>, m: MessageId)
    requires Core(s) && JobsOk(s) && r in s.rooms && IndexedOk(s, m)
    ensures ForwardAll(s, r, u, sources, fs).nextId == s.nextId + |sources|
    ensures IndexedOk(ForwardAll(s, r, u, sources, fs), m) <==>
            (s.nextId <= m < s.nextId + |sources| ==>
               SendSafe(FaultsAt(fs, m - s.nextId), Recipients(s.rooms[r], u) != []))
  {
    if |sources| != 0 {
      var i := |sources| - 1;
      ForwardAllIndexIff(s, r, u, sources[..i], fs, m);
      ForwardKeeps(s, r, u, sources[..i], fs);
      ForwardAllKeepsJobs(s, r, u, sources[..i], fs);
      ForwardOneIndexIff(ForwardAll(s, r, u, sources[..i], fs), s.nextId, i, r, u, sources[i].voice,
                         Body(sources[i].body.text, [], None), fs, m);
    }
  }

  /** An operation that leaves messages, index and jobs alone. */
  ghost predicate SameIndex(s: Chat, s': Chat) {
    s'.messages == s.messages && s'.index == s.index && s'.pending == s.pending && s'.nextId >= s.nextId
  }

  lemma SameIndexKeeps(s: Chat, s': Chat, m: MessageId)
    requires IndexedOk(s, m) && SameIndex(s, s')
    ensures IndexedOk(s', m)
  {
    assert Covered(s, m) ==> Covered(s', m);
  }

  lemma SendMessageIndexIff(s: Chat, r: RoomId, u: UserId, voice: bool, body: Body, f: SendFaults, m: MessageId)
    requires Core(s) && JobsOk(s) && IndexedOk(s, m)
    ensures IndexedOk(SendMessage(s, r, u, voice, body, f).chat, m) <==> !Spoils(s, SendOp(r, u, voice, body, f), m)
  {
    GetForUserKeeps(s, r, u);
    var o := GetForUser(s, r, u);
    SameIndexKeeps(s, o.chat, m);
    if Sends(s, r, u) { SendIndexIff(o.chat, r, u, voice, body, f, m); }
  }

  lemma ForwardedIndexIff(s: Chat, r: RoomId, u: UserId, ids: seq<MessageId>, fs: seq<SendFaults>, m: MessageId)
    requires Core(s) && JobsOk(s) && IndexedOk(s, m) && ForwardMessages(s, r, u, ids, fs).reply == Done
    ensures r in s.rooms
    ensures IndexedOk(ForwardMessages(s, r, u, ids, fs).chat, m) <==>
            (s.nextId <= m < s.nextId + |ids| ==> SendSafe(FaultsAt(fs, m - s.nextId), Recipients(s.rooms[r], u) != []))
  {
    ForwardMessagesSplit(s, r, u, ids, fs);
    CheckedKeeps(s, r, u, ids);
    SameIndexKeeps(s, Checked(s, r, u, ids), m);
    ForwardAllIndexIff(Checked(s, r, u, ids), r, u, Lookup(s.messages, ids), fs, m);
  }

  lemma ForwardMessagesIndexIff(s: Chat, r: RoomId, u: UserId, ids: seq<MessageId>, fs: seq<SendFaults>, m: MessageId)
    requires Core(s) && JobsOk(s) && IndexedOk(s, m)
    ensures IndexedOk(ForwardMessages(s, r, u, ids, fs).chat, m) <==> !Spoils(s, ForwardOp(r, u, ids, fs), m)
  {
    if ForwardMessages(s, r, u, ids, fs).reply == Done {
      ForwardedIndexIff(s, r, u, ids, fs, m);
    } else {
      ForwardMessagesSplit(s, r, u, ids, fs);
      assert SameIndex(s, ForwardMessages(s, r, u, ids, fs).chat);
      SameIndexKeeps(s, ForwardMessages(s, r, u, ids, fs).chat, m);
    }
  }

  /** No job names a live message, so a live message's entry is its own text. */
  lemma LiveNotCovered(s: Chat, m: MessageId)
    requires JobsOk(s) && Live(s, m)
    ensures !Covered(s, m)
    ensures IndexedOk(s, m) ==> InStep(s, m)
  {
    assert forall j :: j in s.pending ==> JobOk(s, j);
  }

  lemma EditIndexIff(s: Chat, e: MessageId, u: UserId, body: Body, f: EditFaults, m: MessageId)
    requires Core(s) && JobsOk(s) && IndexedOk(s, m)
    ensures IndexedOk(Edit(s, e, u, body, f).chat, m) <==> !Spoils(s, EditOp(e, u, body, f), m)
  {
    if e in s.messages {
      GetForUserKeeps(s, s.messages[e].room, u);
      var s' := Edit(s, e, u, body, f).chat;
      assert Covered(s, m) <==> Covered(s', m);
      if Live(s, m) { LiveNotCovered(s, m); }
    }
  }

  lemma MarkReadKeepsIndex(s: Chat, e: MessageId, u: UserId, m: MessageId)
    requires Core(s) && IndexedOk(s, m)
    ensures IndexedOk(MarkRead(s, e, u).chat, m)
  {
    if e in s.messages {
      GetForUserKeeps(s, s.messages[e].room, u);
      assert Covered(s, m) ==> Covered(MarkRead(s, e, u).chat, m);
    }
  }

  lemma MarkRoomReadKeepsIndex(s: Chat, r: RoomId, u: UserId, m: MessageId)
    requires Core(s) && IndexedOk(s, m)
    ensures IndexedOk(MarkRoomRead(s, r, u).chat, m)
  {
    GetForUserKeeps(s, r, u);
    assert Covered(s, m) ==> Covered(MarkRoomRead(s, r, u).chat, m);
  }

  /** After the delete of a live message its entry is gone or covered exactly if the index call took effect. */
  lemma DeleteIndexIff(s: Chat, m: MessageId, u: UserId, unindex: CallResult)
    requires JobsOk(s) && InStep(s, m) && Live(s, m) && s.messages[m].sender == u
    ensures var s' := Delete(s, m, u, unindex).chat;
            !Live(s', m) && ((m in s'.index ==> Covered(s', m)) <==> unindex.TookEffect())
  {
    LiveNotCovered(s, m);
    var s' := Delete(s, m, u, unindex).chat;
    if unindex.Raised? { assert s'.pending == s.pending; }
  }

  lemma DeleteKeepsIndexIff(s: Chat, e: MessageId, u: UserId, unindex: CallResult, m: MessageId)
    requires Core(s) && JobsOk(s) && IndexedOk(s, m)
    ensures IndexedOk(Delete(s, e, u, unindex).chat, m) <==> !Spoils(s, DeleteOp(e, u, unindex), m)
  {
    if e in s.messages && s.messages[e].sender == u {
      DeleteWrites(s, e, u, unindex);
      if e == m && Live(s, m) {
        LiveNotCovered(s, m);
        DeleteIndexIff(s, m, u, unindex);
      } else {
        assert Covered(s, m) ==> Covered(Delete(s, e, u, unindex).chat, m);
      }
    }
  }

  lemma DeleteRoomKeepsIndex(s: Chat, r: RoomId, actor: UserId, m: MessageId)
    requires Core(s) && JobsOk(s) && IndexedOk(s, m)
    ensures IndexedOk(DeleteRoom(s, r, actor).chat, m)
  {
    var s' := DeleteRoom(s, r, actor).chat;
    assert Covered(s, m) ==> Covered(s', m);
    if r in s.rooms && s.rooms[r].createdBy == actor {
      var c := RoomCleanup(r, RoomMessages(s.messages, r));
      assert forall j :: j in s.pending + (s.finished + s.dead) ==> JobOk(s, j) && !j.SameKey(c);
      assert c in s'.pending;
      assert m in RoomMessages(s.messages, r) ==> c.Covers(m);
    }
  }

  lemma RunCleanupIndexIff(s: Chat, c: Cleanup, reached: Option<Reach>, lastTry: bool, m: MessageId)
    requires Core(s) && JobsOk(s) && IndexedOk(s, m)
    ensures IndexedOk(RunCleanup(s, c, reached, lastTry).chat, m) <==> !GivesUpOn(s, c, reached, lastTry, m)
  {
    var s' := RunCleanup(s, c, reached, lastTry).chat;
    if c in s.pending && c.Covers(m) {
      assert JobOk(s, c) && !Live(s, m);
      assert reached.Some? && !lastTry ==> c in s'.pending;
      if j :| j in s.pending && j != c && j.Covers(m) { assert j in s'.pending; }
    } else if Covered(s, m) {
      var j :| j in s.pending && j.Covers(m);
      assert j in s'.pending;
    }
  }

  lemma RoomOpsSameIndex(s: Chat, op: Op)
    requires op.AddMemberOp? || op.RemoveMemberOp? || op.LeaveOp? || op.JoinOp? || op.CreateInviteOp?
             || op.RevokeInviteOp? || op.PromoteOp? || op.DemoteOp? || op.CreateGroupOp? || op.OpenDmOp?
             || op.GetRoomOp? || op.ExpireAccessOp? || op.ReconcileOp?
    ensures SameIndex(s, Step(s, op).chat)
  {
  }

  lemma MessageStepIndexIff(s: Chat, op: Op, m: MessageId)
    requires Core(s) && JobsOk(s) && IndexedOk(s, m)
    requires op.SendOp? || op.ForwardOp? || op.EditOp? || op.MarkReadOp? || op.MarkRoomReadOp? || op.DeleteOp?
    ensures IndexedOk(Step(s, op).chat, m) <==> !Spoils(s, op, m)
  {
    match op
    case SendOp(r, u, voice, body, f) => SendMessageIndexIff(s, r, u, voice, body, f, m);
    case ForwardOp(r, u, ids, fs) => ForwardMessagesIndexIff(s, r, u, ids, fs, m);
    case EditOp(e, u, body, f) => EditIndexIff(s, e, u, body, f, m);
    case MarkReadOp(e, u) => MarkReadKeepsIndex(s, e, u, m);
    case MarkRoomReadOp(r, u) => MarkRoomReadKeepsIndex(s, r, u, m);
    case DeleteOp(e, u, unindex) => DeleteKeepsIndexIff(s, e, u, unindex, m);
  }

  /** One operation keeps the entry of a message in order exactly if it does not spoil it. */
  lemma StepIndexIff(s: Chat, op: Op, m: MessageId)
    requires Core(s) && JobsOk(s) && IndexedOk(s, m)
    ensures IndexedOk(Step(s, op).chat, m) <==> !Spoils(s, op, m)
  {
    if op.SendOp? || op.ForwardOp? || op.EditOp? || op.MarkReadOp? || op.MarkRoomReadOp? || op.DeleteOp? {
      MessageStepIndexIff(s, op, m);
    } else if op.DeleteRoomOp? {
      DeleteRoomKeepsIndex(s, op.room, op.actor, m);
    } else if op.RunCleanupOp? {
      RunCleanupIndexIff(s, op.job, op.reached, op.lastTry, m);
    } else {
      RoomOpsSameIndex(s, op);
      SameIndexKeeps(s, Step(s, op).chat, m);
    }
  }

  // ---------- whole runs ----------

  /**
   In every serial run in which no operation spoils the entry of a message, the message is indexed
   under its current text while it lives, and afterwards its entry is gone or covered by a queued job.
   */
  lemma {:induction false} IndexFollowsMessages(users: set<UserId>, ops: seq<Op>, m: MessageId)
    requires forall i :: 0 <= i < |ops| ==> !Spoils(Run(users, ops[..i]), ops[i], m)
    ensures var s := Run(users, ops);
      if Live(s, m) then InStep(s, m) else m in s.index ==> Covered(s, m)
    ensures IndexedOk(Run(users, ops), m)
  {
    if |ops| != 0 {
      var n := |ops| - 1;
      var earlier := ops[..n];
      forall i | 0 <= i < n ensures !Spoils(Run(users, earlier[..i]), earlier[i], m) {
        assert earlier[..i] == ops[..i];
      }
      RunKeepsCore(users, earlier);
      IndexFollowsMessages(users, earlier, m);
      assert !Spoils(Run(users, ops[..n]), ops[n], m);
      StepIndexIff(Run(users, earlier), ops[n], m);
    }
    RunKeepsCore(users, ops);
    if Live(Run(users, ops), m) { LiveNotCovered(Run(users, ops), m); }
  }
}
