/**
 The state shared by the room, message and unread-counter services, and the effect of every
 operation on it. An operation is a function from the stored state to the new state and a reply.
 Mongo updates, cache writes and index calls that one request makes one after the other are
 composed here; faults of foreign calls are parameters.
 */
module ChatModel {
  import opened Wrappers

  type UserId = nat
  type RoomId = nat
  type MessageId = nat
  type Token = nat
  type Pair = (RoomId, UserId)

  datatype Room = Room(
    isGroup: bool,
    members: seq<UserId>,
    createdBy: UserId,
    admins: seq<UserId>,
    invite: Option<Token>)

  /** The fields an edit rewrites. Ciphertext, nonce, key id and aad are represented by the plaintext. */
  datatype Body = Body(text: string, mentions: seq<UserId>, editedAt: Option<int>)

  datatype Message = Message(
    room: RoomId,
    sender: UserId,
    voice: bool,
    body: Body,
    readBy: set<UserId>,
    isDeleted: bool)

  /** A cleanup job, identified by its dedupe key: the message, or the room. */
  datatype Cleanup =
    | MessageCleanup(message: MessageId)
    | RoomCleanup(room: RoomId, messages: set<MessageId>)
  {
    predicate SameKey(other: Cleanup) {
      match this
      case MessageCleanup(m) => other == MessageCleanup(m)
      case RoomCleanup(r, _) => other.RoomCleanup? && other.room == r
    }

    predicate Covers(m: MessageId) {
      match this
      case MessageCleanup(m') => m == m'
      case RoomCleanup(_, ms) => m in ms
    }
  }

  datatype Chat = Chat(
    users: set<UserId>,
    nextId: nat,
    rooms: map<RoomId, Room>,
    messages: map<MessageId, Message>,
    counters: map<Pair, int>,
    access: map<Pair, bool>,
    index: map<MessageId, string>,
    pending: set<Cleanup>,
    finished: set<Cleanup>,
    dead: set<Cleanup>)

  /** Done, an HTTP error raised by a check, or an exception of a later step. */
  datatype Reply = Done | Refused(status: int) | Failed

  datatype Outcome = Outcome(chat: Chat, reply: Reply)

  // ---------- rooms ----------

  function MemberIds(room: Room): seq<UserId> {
    if room.createdBy in room.members then room.members else room.members + [room.createdBy]
  }

  /** xs with every occurrence of x taken out, as $pull does. */
  function Without(xs: seq<UserId>, x: UserId): (ys: seq<UserId>)
    ensures forall y :: y in ys <==> y in xs && y != x
    ensures NoDup(xs) ==> NoDup(ys)
  {
    if |xs| == 0 then []
    else
      var rest := Without(xs[..|xs| - 1], x);
      assert xs == xs[..|xs| - 1] + [xs[|xs| - 1]];
      assert NoDup(xs) ==> xs[|xs| - 1] !in xs[..|xs| - 1];
      assert forall i :: 0 <= i < |rest| ==> rest[i] in rest;
      if xs[|xs| - 1] == x then rest else rest + [xs[|xs| - 1]]
  }

  lemma {:induction false} WithoutShorter(xs: seq<UserId>, x: UserId)
    ensures |Without(xs, x)| <= |xs|
    ensures |Without(xs, x)| == |xs| <==> x !in xs
    ensures x !in xs ==> Without(xs, x) == xs
  {
    if |xs| == 0 {
    } else {
      WithoutShorter(xs[..|xs| - 1], x);
      assert xs == xs[..|xs| - 1] + [xs[|xs| - 1]];
    }
  }

  lemma {:induction false} WithoutTwice(xs: seq<UserId>, x: UserId)
    ensures Without(Without(xs, x), x) == Without(xs, x)
  {
    WithoutShorter(Without(xs, x), x);
  }

  lemma WithoutAppended(xs: seq<UserId>, x: UserId)
    ensures Without(xs + [x], x) == Without(xs, x)
  {
    assert (xs + [x])[..|xs|] == xs;
  }

  /** xs with x appended unless present, as $addToSet does. */
  function AddToSet(xs: seq<UserId>, x: UserId): seq<UserId> {
    if x in xs then xs else xs + [x]
  }

  /** xs with only the first occurrence of each value kept, in order. */
  function Dedupe(xs: seq<UserId>): (ys: seq<UserId>)
    ensures forall y :: y in ys <==> y in xs
    ensures NoDup(ys)
  {
    if |xs| == 0 then []
    else AddToSet(Dedupe(xs[..|xs| - 1]), xs[|xs| - 1])
  }

  function Users(us: seq<UserId>): set<UserId> {
    set u | u in us
  }

  predicate Allowed(room: Room, u: UserId) {
    room.createdBy == u || u in room.members
  }

  predicate IsAdmin(room: Room, u: UserId) {
    room.createdBy == u || u in room.admins
  }

  /** All entries of room r dropped. */
  function ForgetRoom<T>(m: map<Pair, T>, r: RoomId): map<Pair, T> {
    map k | k in m && k.0 != r :: m[k]
  }

  // ---------- unread counters ----------

  predicate IsUnread(m: Message, r: RoomId, u: UserId) {
    m.room == r && !m.isDeleted && m.sender != u && u !in m.readBy
  }

  function UnreadIds(messages: map<MessageId, Message>, r: RoomId, u: UserId): set<MessageId> {
    set m | m in messages && IsUnread(messages[m], r, u)
  }

  /** The specification of the counter: a count over all messages. */
  function TrueUnread(messages: map<MessageId, Message>, r: RoomId, u: UserId): nat {
    |UnreadIds(messages, r, u)|
  }

  /** A missing row counts as 0. */
  function CounterOf(counters: map<Pair, int>, k: Pair): int {
    if k in counters then counters[k] else 0
  }

  /** One upserting $inc for each user in us. */
  function Incremented(counters: map<Pair, int>, r: RoomId, us: set<UserId>): map<Pair, int> {
    map k | k in counters.Keys + (set u | u in us :: (r, u)) ::
      CounterOf(counters, k) + (if k.0 == r && k.1 in us then 1 else 0)
  }

  function Max0(x: int): int {
    if x < 0 then 0 else x
  }

  /** One clamped, non-upserting decrement for each user in us. */
  function Decremented(counters: map<Pair, int>, r: RoomId, us: set<UserId>, amount: int): map<Pair, int> {
    map k | k in counters :: if k.0 == r && k.1 in us then Max0(counters[k] - amount) else counters[k]
  }

  function SetExact(counters: map<Pair, int>, k: Pair, n: int): map<Pair, int> {
    counters[k := Max0(n)]
  }

  /** Every pair of a room and one of its members. */
  function ValidPairs(rooms: map<RoomId, Room>): set<Pair> {
    set r, u | r in rooms && u in MemberIds(rooms[r]) :: (r, u)
  }

  /** What one reconciliation run leaves, whatever the rows were before. */
  function Recomputed(rooms: map<RoomId, Room>, messages: map<MessageId, Message>): map<Pair, int> {
    map k | k in ValidPairs(rooms) :: TrueUnread(messages, k.0, k.1)
  }

  /** The same rooms and messages exist; only members, cached answers and counters may differ. */
  ghost predicate SameIds(s: Chat, s': Chat) {
    && s' == s.(rooms := s'.rooms, access := s'.access, counters := s'.counters)
    && s'.rooms.Keys == s.rooms.Keys
  }

  /** Only invites and admins differ. */
  ghost predicate SameMembers(s: Chat, s': Chat) {
    && s' == s.(rooms := s'.rooms)
    && s'.rooms.Keys == s.rooms.Keys
    && forall r :: r in s.rooms ==>
         s'.rooms[r].members == s.rooms[r].members && s'.rooms[r].createdBy == s.rooms[r].createdBy
  }

  // ---------- room access ----------

  function GetForUser(s: Chat, r: RoomId, u: UserId): Outcome {
    if r !in s.rooms then Outcome(s, Refused(404))
    else if (r, u) in s.access then
      Outcome(s, if s.access[(r, u)] then Done else Refused(403))
    else
      var ok := Allowed(s.rooms[r], u);
      Outcome(s.(access := s.access[(r, u) := ok]), if ok then Done else Refused(403))
  }

  // ---------- jobs ----------

  /** The queue once a job is inserted, unless its dedupe key is taken by a stored job. */
  function Queued(pending: set<Cleanup>, others: set<Cleanup>, c: Cleanup): (after: set<Cleanup>)
    ensures pending <= after <= pending + {c}
  {
    if exists j :: j in pending + others && j.SameKey(c) then pending else pending + {c}
  }

  function Enqueue(s: Chat, c: Cleanup): (s': Chat)
    ensures s' == s.(pending := s'.pending)
    ensures s.pending <= s'.pending <= s.pending + {c}
  {
    s.(pending := Queued(s.pending, s.finished + s.dead, c))
  }

  // ---------- sending ----------

  /**
   What goes wrong in one send. `increments` is None when every counter update succeeds; otherwise
   that many recipients, in member order, were bumped when an update raised.
   `drop`, `unindex` and `enqueueOk` are the calls of the rollback.
   */
  datatype SendFaults = SendFaults(
    insert: CallResult,
    previewOk: bool,
    index: CallResult,
    increments: Option<nat>,
    drop: CallResult,
    unindex: CallResult,
    enqueueOk: bool)

  const NO_FAULTS := SendFaults(Returned, true, Returned, None, Returned, Returned, true)

  function Recipients(room: Room, sender: UserId): seq<UserId> {
    Without(MemberIds(room), sender)
  }

  /** The recipients whose counter was bumped before the send went on or failed. */
  function Reached(room: Room, sender: UserId, f: SendFaults): set<UserId> {
    var to := Recipients(room, sender);
    match f.increments
    case None => Users(to)
    case Some(n) => Users(to[..if n < |to| then n else |to|])
  }

  function NewMessage(r: RoomId, sender: UserId, voice: bool, body: Body): Message {
    Message(r, sender, voice, body, {sender}, false)
  }

  /** The point where an error makes the send compensate: only past the preview update. */
  predicate RollsBack(f: SendFaults, anyRecipient: bool) {
    f.insert.Returned? && f.previewOk && (f.index.Raised? || (f.increments.Some? && anyRecipient))
  }

  predicate Succeeds(f: SendFaults, anyRecipient: bool) {
    f.insert.Returned? && f.previewOk && f.index.Returned? && !(f.increments.Some? && anyRecipient)
  }

  /** The message is in the store when the send is over. */
  predicate Stays(f: SendFaults, anyRecipient: bool) {
    f.insert.TookEffect() && !(RollsBack(f, anyRecipient) && f.drop.TookEffect())
  }

  predicate Indexes(f: SendFaults) {
    f.insert.Returned? && f.previewOk && f.index.TookEffect()
  }

  /** The rollback takes the index entry out, or leaves it to a job. */
  predicate Unindexes(f: SendFaults, anyRecipient: bool) {
    RollsBack(f, anyRecipient) && f.drop.Returned? && f.unindex.TookEffect()
  }

  predicate LeavesJob(f: SendFaults, anyRecipient: bool) {
    RollsBack(f, anyRecipient) && f.drop.Returned? && f.unindex.Raised? && f.enqueueOk
  }

  predicate CountsReached(f: SendFaults) {
    f.insert.Returned? && f.previewOk && f.index.Returned?
  }

  /** Everything one send does to the store once access is granted, whatever its calls answer. */
  function SendEncrypted(s: Chat, r: RoomId, sender: UserId, voice: bool, body: Body, f: SendFaults): (o: Outcome)
    requires r in s.rooms
    ensures o.chat == s.(nextId := s.nextId + 1, messages := o.chat.messages, counters := o.chat.counters,
                         index := o.chat.index, pending := o.chat.pending)
  {
    var m := s.nextId;
    var some := Recipients(s.rooms[r], sender) != [];
    Outcome(
      s.(nextId := m + 1,
         messages := if Stays(f, some) then s.messages[m := NewMessage(r, sender, voice, body)] else s.messages - {m},
         counters := if CountsReached(f) then Incremented(s.counters, r, Reached(s.rooms[r], sender, f))
           else s.counters,
         index := if Unindexes(f, some) then s.index - {m}
                  else if Indexes(f) then s.index[m := body.text]
                  else s.index,
         pending := if LeavesJob(f, some) then Queued(s.pending, s.finished + s.dead, MessageCleanup(m))
           else s.pending),
      if Succeeds(f, some) then Done else Failed)
  }

  /** A send gets past its checks. */
  predicate Sends(s: Chat, r: RoomId, u: UserId) {
    GetForUser(s, r, u).reply == Done && u in s.users
  }

  function SendMessage(s: Chat, r: RoomId, sender: UserId, voice: bool, body: Body, f: SendFaults): Outcome {
    var o := GetForUser(s, r, sender);
    if o.reply != Done then o
    else if sender !in s.users then Outcome(o.chat, Refused(404))
    else SendEncrypted(o.chat, r, sender, voice, body, f)
  }

  // ---------- forwarding ----------

  /** Room access for each source room, in turn, until one is refused. */
  function CheckRooms(s: Chat, rs: seq<RoomId>, u: UserId): (o: Outcome)
    ensures o.chat == s.(access := o.chat.access)
  {
    if |rs| == 0 then Outcome(s, Done)
    else
      var before := CheckRooms(s, rs[..|rs| - 1], u);
      if before.reply != Done then before else GetForUser(before.chat, rs[|rs| - 1], u)
  }

  function FaultsAt(fs: seq<SendFaults>, i: nat): SendFaults {
    if i < |fs| then fs[i] else NO_FAULTS
  }

  /** The copies are sent one by one; a copy that fails is skipped. */
  function ForwardAll(s: Chat, target: RoomId, u: UserId, sources: seq<Message>, fs: seq<SendFaults>): (s': Chat)
    requires target in s.rooms
    ensures s'.rooms == s.rooms
  {
    if |sources| == 0 then s
    else
      var i := |sources| - 1;
      var before := ForwardAll(s, target, u, sources[..i], fs);
      SendEncrypted(before, target, u, sources[i].voice, Body(sources[i].body.text, [], None), FaultsAt(fs, i)).chat
  }

  function Lookup(messages: map<MessageId, Message>, ids: seq<MessageId>): seq<Message>
    requires forall i :: 0 <= i < |ids| ==> ids[i] in messages
  {
    seq(|ids|, i requires 0 <= i < |ids| => messages[ids[i]])
  }

  function RoomsOf(sources: seq<Message>): seq<RoomId> {
    Dedupe(seq(|sources|, i requires 0 <= i < |sources| => sources[i].room))
  }

  function ForwardMessages(s: Chat, target: RoomId, u: UserId, ids: seq<MessageId>, fs: seq<SendFaults>): Outcome {
    var o := GetForUser(s, target, u);
    if o.reply != Done then o
    else if u !in s.users then Outcome(o.chat, Refused(404))
    else if exists i :: 0 <= i < |ids| && ids[i] !in s.messages then Outcome(o.chat, Refused(404))
    else
      var sources := Lookup(s.messages, ids);
      var checked := CheckRooms(o.chat, RoomsOf(sources), u);
      if checked.reply != Done then checked
      else if exists i :: 0 <= i < |sources| && sources[i].isDeleted then Outcome(checked.chat, Refused(422))
      else Outcome(ForwardAll(checked.chat, target, u, sources, fs), Done)
  }

  // ---------- editing ----------

  /** Faults of an edit: the save, the index call, and the save and index call of the rollback. */
  datatype EditFaults = EditFaults(save: CallResult, index: CallResult, restore: CallResult, reindex: CallResult)

  /** The database has the new text when the edit is over. */
  predicate KeepsNewBody(f: EditFaults) {
    if f.save.Raised? then f.save.applied else f.index.Returned? || !f.restore.TookEffect()
  }

  /** The index call took effect and no reindexing of the old text came after it. */
  predicate KeepsNewIndex(f: EditFaults) {
    f.save.Returned? && f.index.TookEffect()
    && (f.index.Returned? || f.restore.Raised? || !f.reindex.TookEffect())
  }

  predicate Reindexes(f: EditFaults) {
    f.save.Returned? && f.index.Raised? && f.restore.Returned? && f.reindex.TookEffect()
  }

  /** Everything an edit does to the store once its checks passed, whatever its calls answer. */
  function EditStored(s: Chat, m: MessageId, body: Body, f: EditFaults): (o: Outcome)
    requires m in s.messages
    ensures o.chat == s.(messages := o.chat.messages, index := o.chat.index)
  {
    var previous := s.messages[m].body;
    Outcome(
      s.(messages := s.messages[m := s.messages[m].(body := if KeepsNewBody(f) then body else previous)],
         index := if Reindexes(f) then s.index[m := previous.text]
                  else if KeepsNewIndex(f) then s.index[m := body.text]
                  else s.index),
      if f.save.Returned? && f.index.Returned? then Done else Failed)
  }

  function Edit(s: Chat, m: MessageId, u: UserId, body: Body, f: EditFaults): Outcome {
    if m !in s.messages then Outcome(s, Refused(404))
    else
      var msg := s.messages[m];
      if msg.sender != u then Outcome(s, Refused(403))
      else if msg.isDeleted then Outcome(s, Refused(400))
      else if msg.voice then Outcome(s, Refused(422))
      else
        var o := GetForUser(s, msg.room, u);
        if o.reply != Done then o else EditStored(o.chat, m, body, f)
  }

  // ---------- reading ----------

  function MarkRead(s: Chat, m: MessageId, u: UserId): Outcome {
    if m !in s.messages then Outcome(s, Refused(404))
    else
      var msg := s.messages[m];
      var o := GetForUser(s, msg.room, u);
      if o.reply != Done then o
      else if u !in s.users then Outcome(o.chat, Refused(404))
      else if !IsUnread(msg, msg.room, u) then Outcome(o.chat, Done)
      else Outcome(
        o.chat.(messages := s.messages[m := msg.(readBy := msg.readBy + {u})],
                counters := Decremented(s.counters, msg.room, {u}, 1)),
        Done)
  }

  function AllRead(messages: map<MessageId, Message>, r: RoomId, u: UserId): map<MessageId, Message> {
    map m | m in messages ::
      if IsUnread(messages[m], r, u) then messages[m].(readBy := messages[m].readBy + {u}) else messages[m]
  }

  function MarkRoomRead(s: Chat, r: RoomId, u: UserId): Outcome {
    var o := GetForUser(s, r, u);
    if o.reply != Done then o
    else if u !in s.users then Outcome(o.chat, Refused(404))
    else Outcome(
      o.chat.(messages := AllRead(s.messages, r, u),
              counters := Decremented(s.counters, r, {u}, TrueUnread(s.messages, r, u))),
      Done)
  }

  // ---------- deleting a message ----------

  /** The members whose counter a delete lowers. */
  function UnreadMembers(room: Room, msg: Message): set<UserId> {
    set u | u in MemberIds(room) && u != msg.sender && u !in msg.readBy
  }

  function Delete(s: Chat, m: MessageId, u: UserId, unindex: CallResult): Outcome {
    if m !in s.messages then Outcome(s, Refused(404))
    else
      var msg := s.messages[m];
      if msg.sender != u then Outcome(s, Refused(403))
      else
        var marked :=
          if msg.isDeleted then s
          else s.(messages := s.messages[m := msg.(isDeleted := true)],
                  counters := if msg.room in s.rooms
                              then Decremented(s.counters, msg.room, UnreadMembers(s.rooms[msg.room], msg), 1)
                              else s.counters);
        var dropped := if unindex.TookEffect() then marked.(index := marked.index - {m}) else marked;
        if unindex.Raised? then Outcome(dropped, Failed)
        // a second delete publishes an event for a room id it never bound
        else Outcome(Enqueue(dropped, MessageCleanup(m)), if msg.isDeleted then Failed else Done)
  }

  // ---------- rooms and members ----------

  function CreateGroup(s: Chat, creator: UserId, others: seq<UserId>): Outcome {
    var members := Dedupe([creator] + others);
    if creator !in s.users then Outcome(s, Refused(401))
    else if exists u :: u in members && u !in s.users then Outcome(s, Refused(400))
    else Outcome(
      s.(nextId := s.nextId + 1, rooms := s.rooms[s.nextId := Room(true, members, creator, [], None)]),
      Done)
  }

  predicate IsDmOf(room: Room, a: UserId, b: UserId) {
    !room.isGroup && (room.members == [a, b] || room.members == [b, a])
  }

  function OpenDm(s: Chat, creator: UserId, other: UserId): Outcome {
    if other == creator then Outcome(s, Refused(400))
    else if creator !in s.users then Outcome(s, Refused(401))
    else if other !in s.users then Outcome(s, Refused(400))
    else if exists r :: r in s.rooms && IsDmOf(s.rooms[r], creator, other) then Outcome(s, Done)
    else Outcome(
      s.(nextId := s.nextId + 1, rooms := s.rooms[s.nextId := Room(false, [creator, other], creator, [], None)]),
      Done)
  }

  /** The checks every change of a group starts with. */
  function GroupChecks(s: Chat, r: RoomId): Reply {
    if r !in s.rooms then Refused(404)
    else if !s.rooms[r].isGroup then Refused(400)
    else Done
  }

  function Joined(s: Chat, r: RoomId, u: UserId): Chat
    requires r in s.rooms
  {
    s.(rooms := s.rooms[r := s.rooms[r].(members := AddToSet(s.rooms[r].members, u))],
       access := ForgetRoom(s.access, r),
       counters := SetExact(s.counters, (r, u), TrueUnread(s.messages, r, u)))
  }

  function Removed(s: Chat, r: RoomId, u: UserId): Chat
    requires r in s.rooms
  {
    var room := s.rooms[r];
    s.(rooms := s.rooms[r := room.(members := Without(room.members, u), admins := Without(room.admins, u))],
       access := ForgetRoom(s.access, r),
       counters := s.counters - {(r, u)})
  }

  function AddMember(s: Chat, r: RoomId, u: UserId, actor: UserId): (o: Outcome)
    ensures SameIds(s, o.chat)
  {
    if GroupChecks(s, r) != Done then Outcome(s, GroupChecks(s, r))
    else if !IsAdmin(s.rooms[r], actor) then Outcome(s, Refused(403))
    else if u !in s.users then Outcome(s, Refused(400))
    else Outcome(Joined(s, r, u), Done)
  }

  function RemoveMember(s: Chat, r: RoomId, u: UserId, actor: UserId): (o: Outcome)
    ensures SameIds(s, o.chat)
  {
    if GroupChecks(s, r) != Done then Outcome(s, GroupChecks(s, r))
    else if !IsAdmin(s.rooms[r], actor) then Outcome(s, Refused(403))
    else if u == s.rooms[r].createdBy then Outcome(s, Refused(400))
    else if u !in s.users then Outcome(s, Refused(400))
    else Outcome(Removed(s, r, u), Done)
  }

  function Leave(s: Chat, r: RoomId, u: UserId): (o: Outcome)
    ensures SameIds(s, o.chat)
  {
    if GroupChecks(s, r) != Done then Outcome(s, GroupChecks(s, r))
    else if u == s.rooms[r].createdBy then Outcome(s, Refused(400))
    else
      var o := GetForUser(s, r, u);
      if o.reply != Done then o
      else if u !in s.users then Outcome(o.chat, Refused(401))
      else Outcome(Removed(o.chat, r, u), Done)
  }

  function JoinByInvite(s: Chat, r: RoomId, token: Token, u: UserId): (o: Outcome)
    ensures SameIds(s, o.chat)
  {
    if r !in s.rooms || s.rooms[r].invite != Some(token) then Outcome(s, Refused(404))
    else if !s.rooms[r].isGroup then Outcome(s, Refused(400))
    else if u in s.rooms[r].members then Outcome(s, Done)
    else if u !in s.users then Outcome(s, Refused(401))
    else Outcome(Joined(s, r, u), Done)
  }

  function CreateInvite(s: Chat, r: RoomId, actor: UserId, token: Token): (o: Outcome)
    ensures SameMembers(s, o.chat)
  {
    if GroupChecks(s, r) != Done then Outcome(s, GroupChecks(s, r))
    else if !IsAdmin(s.rooms[r], actor) then Outcome(s, Refused(403))
    else if s.rooms[r].invite.Some? then Outcome(s, Done)
    else if actor !in s.users then Outcome(s, Refused(401))
    else Outcome(s.(rooms := s.rooms[r := s.rooms[r].(invite := Some(token))]), Done)
  }

  function RevokeInvite(s: Chat, r: RoomId, actor: UserId): (o: Outcome)
    ensures SameMembers(s, o.chat)
  {
    if GroupChecks(s, r) != Done then Outcome(s, GroupChecks(s, r))
    else if !IsAdmin(s.rooms[r], actor) then Outcome(s, Refused(403))
    else Outcome(s.(rooms := s.rooms[r := s.rooms[r].(invite := None)]), Done)
  }

  function Promote(s: Chat, r: RoomId, u: UserId, actor: UserId): (o: Outcome)
    ensures SameMembers(s, o.chat)
  {
    if GroupChecks(s, r) != Done then Outcome(s, GroupChecks(s, r))
    else if s.rooms[r].createdBy != actor then Outcome(s, Refused(403))
    else if u == s.rooms[r].createdBy then Outcome(s, Done)
    else if u !in s.rooms[r].members then Outcome(s, Refused(400))
    else if u !in s.users then Outcome(s, Refused(401))
    else Outcome(s.(rooms := s.rooms[r := s.rooms[r].(admins := AddToSet(s.rooms[r].admins, u))]), Done)
  }

  function Demote(s: Chat, r: RoomId, u: UserId, actor: UserId): (o: Outcome)
    ensures SameMembers(s, o.chat)
  {
    if GroupChecks(s, r) != Done then Outcome(s, GroupChecks(s, r))
    else if s.rooms[r].createdBy != actor then Outcome(s, Refused(403))
    else if u == s.rooms[r].createdBy then Outcome(s, Refused(400))
    else if u !in s.users then Outcome(s, Refused(401))
    else Outcome(s.(rooms := s.rooms[r := s.rooms[r].(admins := Without(s.rooms[r].admins, u))]), Done)
  }

  function RoomMessages(messages: map<MessageId, Message>, r: RoomId): set<MessageId> {
    set m | m in messages && messages[m].room == r
  }

  function DeleteRoom(s: Chat, r: RoomId, actor: UserId): Outcome {
    if r !in s.rooms then Outcome(s, Done)
    else if s.rooms[r].createdBy != actor then Outcome(s, Refused(403))
    else
      var gone := RoomMessages(s.messages, r);
      Outcome(
        Enqueue(s.(rooms := s.rooms - {r},
                   messages := s.messages - gone,
                   counters := ForgetRoom(s.counters, r)),
                RoomCleanup(r, gone)),
        Done)
  }

  // ---------- background work ----------

  /** Cache entries run out on their own. */
  function ExpireAccess(s: Chat, keys: set<Pair>): Outcome {
    Outcome(s.(access := s.access - keys), Done)
  }

  function Reconcile(s: Chat): Outcome {
    Outcome(s.(counters := Recomputed(s.rooms, s.messages)), Done)
  }

  /** How far a broken-off execution got: the messages done, and whether the access cache was dropped. */
  datatype Reach = Reach(messages: set<MessageId>, access: bool)

  function Subjects(c: Cleanup): set<MessageId> {
    match c
    case MessageCleanup(m) => {m}
    case RoomCleanup(_, ms) => ms
  }

  /** Executing a job; `reached` is None when every call succeeded. */
  function Execute(s: Chat, c: Cleanup, reached: Option<Reach>): Chat {
    match reached
    case None =>
      if c.MessageCleanup? then s.(index := s.index - {c.message})
      else s.(index := s.index - c.messages,
              access := ForgetRoom(s.access, c.room),
              counters := ForgetRoom(s.counters, c.room))
    case Some(reach) =>
      s.(index := s.index - (reach.messages * Subjects(c)),
         access := if c.RoomCleanup? && reach.access then ForgetRoom(s.access, c.room) else s.access)
  }

  /** An execution that breaks off is tried again, unless that was the job's last attempt. */
  function RunCleanup(s: Chat, c: Cleanup, reached: Option<Reach>, lastTry: bool): Outcome {
    if c !in s.pending then Outcome(s, Done)
    else
      var worked := Execute(s, c, reached);
      if reached.Some? && lastTry then Outcome(worked.(pending := s.pending - {c}, dead := s.dead + {c}), Failed)
      else if reached.Some? then Outcome(worked, Failed)
      else Outcome(worked.(pending := s.pending - {c}, finished := s.finished + {c}), Done)
  }

  // ---------- runs ----------

  datatype Op =
    | CreateGroupOp(creator: UserId, others: seq<UserId>)
    | OpenDmOp(creator: UserId, other: UserId)
    | SendOp(room: RoomId, user: UserId, voice: bool, body: Body, faults: SendFaults)
    | ForwardOp(room: RoomId, user: UserId, sources: seq<MessageId>, itemFaults: seq<SendFaults>)
    | EditOp(message: MessageId, user: UserId, body: Body, editFaults: EditFaults)
    | MarkReadOp(message: MessageId, user: UserId)
    | MarkRoomReadOp(room: RoomId, user: UserId)
    | DeleteOp(message: MessageId, user: UserId, unindex: CallResult)
    | AddMemberOp(room: RoomId, user: UserId, actor: UserId)
    | RemoveMemberOp(room: RoomId, user: UserId, actor: UserId)
    | LeaveOp(room: RoomId, user: UserId)
    | JoinOp(room: RoomId, token: Token, user: UserId)
    | CreateInviteOp(room: RoomId, actor: UserId, token: Token)
    | RevokeInviteOp(room: RoomId, actor: UserId)
    | PromoteOp(room: RoomId, user: UserId, actor: UserId)
    | DemoteOp(room: RoomId, user: UserId, actor: UserId)
    | DeleteRoomOp(room: RoomId, actor: UserId)
    | GetRoomOp(room: RoomId, user: UserId)
    | ExpireAccessOp(keys: set<Pair>)
    | ReconcileOp
    | RunCleanupOp(job: Cleanup, reached: Option<Reach>, lastTry: bool)

  function Step(s: Chat, op: Op): Outcome {
    match op
    case CreateGroupOp(creator, others) => CreateGroup(s, creator, others)
    case OpenDmOp(creator, other) => OpenDm(s, creator, other)
    case SendOp(r, u, voice, body, f) => SendMessage(s, r, u, voice, body, f)
    case ForwardOp(r, u, ids, fs) => ForwardMessages(s, r, u, ids, fs)
    case EditOp(m, u, body, f) => Edit(s, m, u, body, f)
    case MarkReadOp(m, u) => MarkRead(s, m, u)
    case MarkRoomReadOp(r, u) => MarkRoomRead(s, r, u)
    case DeleteOp(m, u, unindex) => Delete(s, m, u, unindex)
    case AddMemberOp(r, u, actor) => AddMember(s, r, u, actor)
    case RemoveMemberOp(r, u, actor) => RemoveMember(s, r, u, actor)
    case LeaveOp(r, u) => Leave(s, r, u)
    case JoinOp(r, token, u) => JoinByInvite(s, r, token, u)
    case CreateInviteOp(r, actor, token) => CreateInvite(s, r, actor, token)
    case RevokeInviteOp(r, actor) => RevokeInvite(s, r, actor)
    case PromoteOp(r, u, actor) => Promote(s, r, u, actor)
    case DemoteOp(r, u, actor) => Demote(s, r, u, actor)
    case DeleteRoomOp(r, actor) => DeleteRoom(s, r, actor)
    case GetRoomOp(r, u) => GetForUser(s, r, u)
    case ExpireAccessOp(keys) => ExpireAccess(s, keys)
    case ReconcileOp => Reconcile(s)
    case RunCleanupOp(job, reached, lastTry) => RunCleanup(s, job, reached, lastTry)
  }

  function Init(users: set<UserId>): Chat {
    Chat(users, 0, map[], map[], map[], map[], map[], {}, {}, {})
  }

  /** The state after a serial run of ops. */
  function Run(users: set<UserId>, ops: seq<Op>): Chat {
    if |ops| == 0 then Init(users)
    else Step(Run(users, ops[..|ops| - 1]), ops[|ops| - 1]).chat
  }
}
