/**
 Idempotent message creation over a websocket. Any number of connections run the section
 acquire, look up, send, record, release; each command is one step and other connections may
 run between any two of them, while leases and records run out on a shared clock.
 */
module Idempotency {
  import opened Wrappers
  import opened KeyStore

  type Key = nat      // room, user and idempotency key
  type Token = nat
  type MessageId = nat
  type Conn = nat

  /** How long a lock lives unless released. */
  const LOCK_TTL := 5

  datatype Phase =
    | Locked
    | Clear                    // looked up, no record
    | Sent(message: MessageId) // message stored, not recorded yet
    | Over

  /** What one connection holds while inside the section. */
  datatype Section = Section(key: Key, token: Token, lease: int, phase: Phase)

  /** History of one message: who sent it, when, and when its id was recorded. */
  datatype Created = Created(key: Key, sender: Conn, at: int, recorded: Option<int>)

  datatype State = State(
    ttl: nat,
    now: int,
    locks: map<Key, Entry<Token>>,
    records: map<Key, Entry<MessageId>>,
    sections: map<Conn, Section>,
    nextToken: Token,
    created: seq<Created>)

  datatype Action =
    | Tick(seconds: nat)
    | Acquire(conn: Conn, key: Key)
    | LookUp(conn: Conn)
    | Send(conn: Conn, ok: bool)
    | Record(conn: Conn)
    | Release(conn: Conn)
    | Abandon(conn: Conn)      // the handler raises between storing the message and recording it

  predicate In(s: State, c: Conn, phase: Phase) {
    c in s.sections && s.sections[c].phase == phase
  }

  function At(s: State, c: Conn, phase: Phase): State
    requires c in s.sections
  {
    s.(sections := s.sections[c := s.sections[c].(phase := phase)])
  }

  function Released(s: State, c: Conn): State
    requires c in s.sections
  {
    s.(locks := CompareAndDelete(s.locks, s.sections[c].key, s.sections[c].token, s.now),
       sections := s.sections - {c})
  }

  function AcquireStep(s: State, c: Conn, k: Key): State {
    if c in s.sections then s
    else if Get(s.locks, k, s.now).Some? then s.(nextToken := s.nextToken + 1)
    else s.(locks := SetIfMissing(s.locks, k, s.nextToken, s.now, LOCK_TTL),
            sections := s.sections[c := Section(k, s.nextToken, s.now + LOCK_TTL, Locked)],
            nextToken := s.nextToken + 1)
  }

  /** Nobody gains or loses a section, a lock or a lease. */
  ghost predicate SamePossession(s: State, s': State) {
    && s'.locks == s.locks && s'.nextToken == s.nextToken && s'.now >= s.now
    && s'.sections.Keys == s.sections.Keys
    && forall c :: c in s.sections ==> s'.sections[c].(phase := s.sections[c].phase) == s.sections[c]
  }

  function LookUpStep(s: State, c: Conn): (s': State)
    ensures SamePossession(s, s')
  {
    if !In(s, c, Locked) then s
    else if Get(s.records, s.sections[c].key, s.now).Some? then At(s, c, Over)
    else At(s, c, Clear)
  }

  function SendStep(s: State, c: Conn, ok: bool): (s': State)
    ensures SamePossession(s, s')
  {
    if !In(s, c, Clear) then s
    else if !ok then At(s, c, Over)
    else At(s, c, Sent(|s.created|)).(created := s.created + [Created(s.sections[c].key, c, s.now, None)])
  }

  function RecordStep(s: State, c: Conn): (s': State)
    ensures SamePossession(s, s')
  {
    if c !in s.sections || !s.sections[c].phase.Sent? || s.sections[c].phase.message >= |s.created| then s
    else
      var m := s.sections[c].phase.message;
      At(s, c, Over).(records := Set(s.records, s.sections[c].key, m, s.now, s.ttl),
                      created := s.created[m := s.created[m].(recorded := Some(s.now))])
  }

  function Step(s: State, a: Action): State {
    match a
    case Tick(d) => s.(now := s.now + d)
    case Acquire(c, k) => AcquireStep(s, c, k)
    case LookUp(c) => LookUpStep(s, c)
    case Send(c, ok) => SendStep(s, c, ok)
    case Record(c) => RecordStep(s, c)
    case Release(c) => if c in s.sections && !s.sections[c].phase.Sent? then Released(s, c) else s
    case Abandon(c) => if c in s.sections && s.sections[c].phase.Sent? then Released(s, c) else s
  }

  function Init(ttl: nat, now: int): State {
    State(ttl, now, map[], map[], map[], 0, [])
  }

  function Run(ttl: nat, start: int, acts: seq<Action>): State {
    if |acts| == 0 then Init(ttl, start)
    else Step(Run(ttl, start, acts[..|acts| - 1]), acts[|acts| - 1])
  }

  // ---------- every run ----------

  /** Tokens are handed out once. */
  ghost predicate TokensOk(s: State) {
    && (forall c :: c in s.sections ==> s.sections[c].token < s.nextToken)
    && (forall k :: k in s.locks ==> s.locks[k].value < s.nextToken)
    && (forall c, d :: c in s.sections && d in s.sections && c != d ==> s.sections[c].token != s.sections[d].token)
  }

  /** Until its lease ends, the lock of a section's key is its own. */
  ghost predicate LeasesOk(s: State) {
    forall c :: c in s.sections && s.now < s.sections[c].lease ==>
      s.sections[c].key in s.locks
      && s.locks[s.sections[c].key] == Entry(s.sections[c].token, s.sections[c].lease)
  }

  /** A step that only moves phases, lets time pass, or writes history. */
  lemma SamePossessionKeepsLeases(s: State, s': State)
    requires TokensOk(s) && LeasesOk(s) && SamePossession(s, s')
    ensures TokensOk(s') && LeasesOk(s')
  {
  }

  lemma AcquireKeepsLeases(s: State, c: Conn, k: Key)
    requires TokensOk(s) && LeasesOk(s)
    ensures TokensOk(AcquireStep(s, c, k)) && LeasesOk(AcquireStep(s, c, k))
  {
    var s' := AcquireStep(s, c, k);
    if c !in s.sections && Get(s.locks, k, s.now).None? {
      assert s'.locks == s.locks[k := Entry(s.nextToken, s.now + LOCK_TTL)];
      assert forall d :: d in s.sections ==> s'.sections[d] == s.sections[d] && d != c;
      assert forall d :: d in s.sections && s.now < s.sections[d].lease ==> s.sections[d].key != k;
    }
  }

  lemma ReleasedKeepsLeases(s: State, c: Conn)
    requires TokensOk(s) && LeasesOk(s) && c in s.sections
    ensures TokensOk(Released(s, c)) && LeasesOk(Released(s, c))
  {
  }

  lemma StepKeepsLeases(s: State, a: Action)
    requires TokensOk(s) && LeasesOk(s)
    ensures TokensOk(Step(s, a)) && LeasesOk(Step(s, a))
  {
    match a
    case Acquire(c, k) => AcquireKeepsLeases(s, c, k);
    case Release(c) => if c in s.sections { ReleasedKeepsLeases(s, c); }
    case Abandon(c) => if c in s.sections { ReleasedKeepsLeases(s, c); }
    case Tick(d) => SamePossessionKeepsLeases(s, s.(now := s.now + d));
    case LookUp(c) => SamePossessionKeepsLeases(s, LookUpStep(s, c));
    case Send(c, ok) => SamePossessionKeepsLeases(s, SendStep(s, c, ok));
    case Record(c) => SamePossessionKeepsLeases(s, RecordStep(s, c));
  }

  lemma {:induction false} RunKeepsLeases(ttl: nat, start: int, acts: seq<Action>)
    ensures TokensOk(Run(ttl, start, acts)) && LeasesOk(Run(ttl, start, acts))
  {
    if |acts| != 0 {
      RunKeepsLeases(ttl, start, acts[..|acts| - 1]);
      StepKeepsLeases(Run(ttl, start, acts[..|acts| - 1]), acts[|acts| - 1]);
    }
  }

  /** However late, a release never takes a lock that another section holds. */
  lemma LateReleaseSparesOthers(ttl: nat, start: int, acts: seq<Action>, c: Conn, d: Conn)
    requires var s := Run(ttl, start, acts); c in s.sections && d in s.sections && c != d
    requires var s := Run(ttl, start, acts); Get(s.locks, s.sections[d].key, s.now) == Some(s.sections[d].token)
    ensures var s := Run(ttl, start, acts);
      Get(Released(s, c).locks, s.sections[d].key, s.now) == Some(s.sections[d].token)
  {
    RunKeepsLeases(ttl, start, acts);
  }

  /** At most one section of a key has a lease that still runs. */
  lemma OneLeasePerKey(s: State, c: Conn, d: Conn)
    requires TokensOk(s) && LeasesOk(s)
    requires c in s.sections && d in s.sections && s.sections[c].key == s.sections[d].key
    requires s.now < s.sections[c].lease && s.now < s.sections[d].lease
    ensures c == d
  {
  }

  // ---------- sections that fit their lease ----------

  /**
   The assumption on timing and faults: a section looks up, sends and records before its lease ends,
   and does not break off with a stored but unrecorded message.
   */
  ghost predicate Fits(s: State, a: Action) {
    match a
    case Tick(d) => forall c :: c in s.sections && s.sections[c].phase.Sent? ==> s.now + d < s.sections[c].lease
    case LookUp(c) => c in s.sections ==> s.now < s.sections[c].lease
    case Send(c, _) => c in s.sections ==> s.now < s.sections[c].lease
    case Record(c) => c in s.sections ==> s.now < s.sections[c].lease
    case Abandon(c) => false
    case _ => true
  }

  ghost predicate AllFit(ttl: nat, start: int, acts: seq<Action>) {
    |acts| == 0 ||
    (AllFit(ttl, start, acts[..|acts| - 1]) && Fits(Run(ttl, start, acts[..|acts| - 1]), acts[|acts| - 1]))
  }

  /** A message made for a key comes only after the records of all earlier ones have run out. */
  ghost predicate Spaced(s: State) {
    forall i, j :: 0 <= i < j < |s.created| && s.created[i].key == s.created[j].key ==>
      s.created[i].recorded.Some? && s.created[i].recorded.value + s.ttl <= s.created[j].at
  }

  ghost predicate PastOk(s: State) {
    forall i :: 0 <= i < |s.created| ==>
      && s.created[i].at <= s.now
      && (s.created[i].recorded.Some? ==> s.created[i].at <= s.created[i].recorded.value <= s.now)
  }

  /** Message i is waiting to be recorded by the section that sent it. */
  ghost predicate Waiting(s: State, i: nat)
    requires i < |s.created|
  {
    var c := s.created[i].sender;
    c in s.sections && s.sections[c].phase == Sent(i) && s.sections[c].key == s.created[i].key
      && s.now < s.sections[c].lease
  }

  ghost predicate SentOk(s: State) {
    && (forall i :: 0 <= i < |s.created| && s.created[i].recorded.None? ==> Waiting(s, i))
    && (forall c :: c in s.sections && s.sections[c].phase.Sent? ==>
         var i := s.sections[c].phase.message;
         i < |s.created| && s.created[i].sender == c && s.created[i].key == s.sections[c].key
         && s.created[i].recorded.None? && s.now < s.sections[c].lease)
  }

  /** The stored record of a key is that of its latest recorded message. */
  ghost predicate RecordsOk(s: State) {
    && (forall k :: k in s.records ==>
         var m := s.records[k].value;
         m < |s.created| && s.created[m].key == k && s.created[m].recorded == Some(s.records[k].deadline - s.ttl))
    && (forall i :: 0 <= i < |s.created| && s.created[i].recorded.Some? ==>
         s.created[i].key in s.records && i <= s.records[s.created[i].key].value)
  }

  /** Nothing made for key k is still waiting or within its record's lifetime. */
  ghost predicate AllExpired(s: State, k: Key) {
    forall i :: 0 <= i < |s.created| && s.created[i].key == k ==>
      s.created[i].recorded.Some? && s.created[i].recorded.value + s.ttl <= s.now
  }

  ghost predicate ClearOk(s: State) {
    forall c :: c in s.sections && s.sections[c].phase == Clear && s.now < s.sections[c].lease ==>
      AllExpired(s, s.sections[c].key)
  }

  ghost predicate Inv(s: State) {
    TokensOk(s) && LeasesOk(s) && Spaced(s) && PastOk(s) && SentOk(s) && RecordsOk(s) && ClearOk(s)
  }

  lemma TickKeeps(s: State, d: nat)
    requires Inv(s) && Fits(s, Tick(d))
    ensures Inv(Step(s, Tick(d)))
  {
    var s' := Step(s, Tick(d));
    assert forall k :: AllExpired(s, k) ==> AllExpired(s', k);
    forall i | 0 <= i < |s'.created| && s'.created[i].recorded.None? ensures Waiting(s', i) {
      assert Waiting(s, i);
    }
  }

  /** A step that leaves the history alone and moves no section into or out of Sent. */
  lemma QuietKeeps(s: State, s': State)
    requires Inv(s) && TokensOk(s') && LeasesOk(s')
    requires s'.created == s.created && s'.records == s.records && s'.now == s.now && s'.ttl == s.ttl
    requires forall c :: c in s'.sections && s'.sections[c].phase.Sent? ==>
               c in s.sections && s'.sections[c] == s.sections[c]
    requires forall c :: c in s.sections && s.sections[c].phase.Sent? ==>
               c in s'.sections && s'.sections[c] == s.sections[c]
    requires forall c :: c in s'.sections && s'.sections[c].phase == Clear && s.now < s'.sections[c].lease ==>
               AllExpired(s, s'.sections[c].key)
    ensures Inv(s')
  {
    assert forall k :: AllExpired(s, k) ==> AllExpired(s', k);
    forall i | 0 <= i < |s'.created| && s'.created[i].recorded.None? ensures Waiting(s', i) {
      assert Waiting(s, i);
    }
  }

  lemma AcquireKeeps(s: State, c: Conn, k: Key)
    requires Inv(s)
    ensures Inv(Step(s, Acquire(c, k)))
  {
    AcquireKeepsLeases(s, c, k);
    QuietKeeps(s, AcquireStep(s, c, k));
  }

  lemma ReleaseKeeps(s: State, c: Conn)
    requires Inv(s)
    ensures Inv(Step(s, Release(c)))
  {
    StepKeepsLeases(s, Release(c));
    QuietKeeps(s, Step(s, Release(c)));
  }

  /** A missing record, seen while holding the lease, means every earlier record has run out. */
  lemma MissingRecordMeansExpired(s: State, c: Conn)
    requires Inv(s) && In(s, c, Locked) && s.now < s.sections[c].lease
    requires Get(s.records, s.sections[c].key, s.now).None?
    ensures AllExpired(s, s.sections[c].key)
  {
    var k := s.sections[c].key;
    forall i | 0 <= i < |s.created| && s.created[i].key == k
      ensures s.created[i].recorded.Some? && s.created[i].recorded.value + s.ttl <= s.now
    {
      if s.created[i].recorded.None? {
        // its sender would hold the same lease
        assert false;
      } else {
        var m := s.records[k].value;
        if i < m { assert s.created[m].at <= s.now; }
      }
    }
  }

  lemma LookUpKeeps(s: State, c: Conn)
    requires Inv(s) && Fits(s, LookUp(c))
    ensures Inv(Step(s, LookUp(c)))
  {
    StepKeepsLeases(s, LookUp(c));
    if In(s, c, Locked) && Get(s.records, s.sections[c].key, s.now).None? {
      MissingRecordMeansExpired(s, c);
    }
    QuietKeeps(s, LookUpStep(s, c));
  }

  lemma SendKeeps(s: State, c: Conn, ok: bool)
    requires Inv(s) && Fits(s, Send(c, ok))
    ensures Inv(Step(s, Send(c, ok)))
  {
    StepKeepsLeases(s, Send(c, ok));
    if In(s, c, Clear) && ok {
      StoreKeeps(s, c);
    } else {
      QuietKeeps(s, SendStep(s, c, ok));
    }
  }

  lemma StoreKeeps(s: State, c: Conn)
    requires Inv(s) && In(s, c, Clear) && s.now < s.sections[c].lease
    requires TokensOk(SendStep(s, c, true)) && LeasesOk(SendStep(s, c, true))
    ensures Inv(SendStep(s, c, true))
  {
    var s' := SendStep(s, c, true);
    var k := s.sections[c].key;
    assert AllExpired(s, k);
    forall i | 0 <= i < |s'.created| && s'.created[i].recorded.None? ensures Waiting(s', i) {
      if i < |s.created| { assert Waiting(s, i); }
    }
    forall d | d in s'.sections && s'.sections[d].phase == Clear && s'.now < s'.sections[d].lease
      ensures AllExpired(s', s'.sections[d].key)
    {
      assert AllExpired(s, s.sections[d].key);
      if s.sections[d].key == k { OneLeasePerKey(s, c, d); }
    }
    StoreKeepsSpacing(s, c);
  }

  lemma StoreKeepsSpacing(s: State, c: Conn)
    requires Spaced(s) && PastOk(s) && RecordsOk(s) && In(s, c, Clear) && AllExpired(s, s.sections[c].key)
    ensures var s' := SendStep(s, c, true); Spaced(s') && PastOk(s') && RecordsOk(s')
  {
    var s' := SendStep(s, c, true);
    forall i, j | 0 <= i < j < |s'.created| && s'.created[i].key == s'.created[j].key
      ensures s'.created[i].recorded.Some? && s'.created[i].recorded.value + s'.ttl <= s'.created[j].at
    {
      assert s'.created[i] == s.created[i];
    }
  }

  /** No later message of the key exists while one is waiting: it would have had to wait for it. */
  lemma WaitingIsLast(s: State, c: Conn, i: nat)
    requires Spaced(s) && SentOk(s) && c in s.sections && s.sections[c].phase.Sent?
    requires i < |s.created| && s.created[i].key == s.sections[c].key
    ensures i <= s.sections[c].phase.message
  {
    var m := s.sections[c].phase.message;
    assert s.created[m].recorded.None? && s.created[m].key == s.sections[c].key;
  }

  lemma RecordKeepsSpacing(s: State, c: Conn)
    requires Spaced(s) && PastOk(s) && SentOk(s) && c in s.sections && s.sections[c].phase.Sent?
    ensures var s' := RecordStep(s, c); Spaced(s') && PastOk(s')
  {
    var s' := RecordStep(s, c);
    var m := s.sections[c].phase.message;
    forall i, j | 0 <= i < j < |s'.created| && s'.created[i].key == s'.created[j].key
      ensures s'.created[i].recorded.Some? && s'.created[i].recorded.value + s'.ttl <= s'.created[j].at
    {
      if i == m {
        WaitingIsLast(s, c, j);
      }
    }
  }

  lemma RecordKeepsRecords(s: State, c: Conn)
    requires Spaced(s) && SentOk(s) && RecordsOk(s) && c in s.sections && s.sections[c].phase.Sent?
    ensures RecordsOk(RecordStep(s, c))
  {
    forall i | 0 <= i < |s.created| && s.created[i].key == s.sections[c].key
      ensures i <= s.sections[c].phase.message
    {
      WaitingIsLast(s, c, i);
    }
  }

  lemma RecordKeepsSections(s: State, c: Conn)
    requires Inv(s) && c in s.sections && s.sections[c].phase.Sent? && s.now < s.sections[c].lease
    ensures var s' := RecordStep(s, c); SentOk(s') && ClearOk(s')
  {
    var s' := RecordStep(s, c);
    forall i | 0 <= i < |s'.created| && s'.created[i].recorded.None? ensures Waiting(s', i) {
      assert Waiting(s, i);
    }
    forall d | d in s'.sections && s'.sections[d].phase == Clear && s'.now < s'.sections[d].lease
      ensures AllExpired(s', s'.sections[d].key)
    {
      assert AllExpired(s, s.sections[d].key);
      if s.sections[d].key == s.sections[c].key { OneLeasePerKey(s, c, d); }
    }
  }

  lemma RecordKeeps(s: State, c: Conn)
    requires Inv(s) && Fits(s, Record(c))
    ensures Inv(Step(s, Record(c)))
  {
    StepKeepsLeases(s, Record(c));
    if c in s.sections && s.sections[c].phase.Sent? {
      RecordKeepsSpacing(s, c);
      RecordKeepsRecords(s, c);
      RecordKeepsSections(s, c);
    }
  }

  lemma StepKeepsInv(s: State, a: Action)
    requires Inv(s) && Fits(s, a)
    ensures Inv(Step(s, a))
  {
    match a
    case Tick(d) => TickKeeps(s, d);
    case Acquire(c, k) => AcquireKeeps(s, c, k);
    case LookUp(c) => LookUpKeeps(s, c);
    case Send(c, ok) => SendKeeps(s, c, ok);
    case Record(c) => RecordKeeps(s, c);
    case Release(c) => ReleaseKeeps(s, c);
  }

  lemma {:induction false} RunKeepsInv(ttl: nat, start: int, acts: seq<Action>)
    requires AllFit(ttl, start, acts)
    ensures Inv(Run(ttl, start, acts)) && Run(ttl, start, acts).ttl == ttl
  {
    if |acts| != 0 {
      RunKeepsInv(ttl, start, acts[..|acts| - 1]);
      StepKeepsInv(Run(ttl, start, acts[..|acts| - 1]), acts[|acts| - 1]);
    }
  }

  /**
   If every section fits its lease, two messages for one key are never closer than the lifetime of
   the first one's record: within that lifetime the key has one message.
   */
  lemma AtMostOneMessagePerLifetime(ttl: nat, start: int, acts: seq<Action>, i: nat, j: nat)
    requires AllFit(ttl, start, acts)
    requires var s := Run(ttl, start, acts); i < j < |s.created| && s.created[i].key == s.created[j].key
    ensures var s := Run(ttl, start, acts);
      s.created[i].recorded.Some? && s.created[i].recorded.value + ttl <= s.created[j].at
  {
    RunKeepsInv(ttl, start, acts);
  }

  /**
   A lookup finds an id exactly while the latest message of the key is within its record's lifetime, and
   finds that id.
   */
  lemma ReplayReturnsTheMessage(ttl: nat, start: int, acts: seq<Action>, k: Key, m: MessageId)
    requires AllFit(ttl, start, acts)
    ensures var s := Run(ttl, start, acts);
      Get(s.records, k, s.now) == Some(m) <==>
      m < |s.created| && s.created[m].key == k && s.created[m].recorded.Some?
      && s.created[m].recorded.value <= s.now < s.created[m].recorded.value + ttl
  {
    RunKeepsInv(ttl, start, acts);
  }

  /** The assumption is needed: a section that overruns its lease before recording allows a second message. */
  lemma OverrunDuplicates(k: Key)
    ensures var s := Run(300, 0, Overrun(k) + [Acquire(1, k), LookUp(1), Send(1, true)]);
      |s.created| == 2 && s.created[0].key == s.created[1].key == k && s.created[1].at < s.created[0].at + 300
  {
    OverrunState(k);
    RunOneMore(300, 0, Overrun(k), Acquire(1, k));
    RunOneMore(300, 0, Overrun(k) + [Acquire(1, k)], LookUp(1));
    RunOneMore(300, 0, Overrun(k) + [Acquire(1, k)] + [LookUp(1)], Send(1, true));
    assert Overrun(k) + [Acquire(1, k)] + [LookUp(1)] + [Send(1, true)] ==
           Overrun(k) + [Acquire(1, k), LookUp(1), Send(1, true)];
  }

  /** A message is stored, and the lease ends before it is recorded. */
  function Overrun(k: Key): seq<Action> {
    [Acquire(0, k)] + [LookUp(0)] + [Send(0, true)] + [Tick(LOCK_TTL)]
  }

  lemma OverrunState(k: Key)
    ensures Run(300, 0, Overrun(k))
            == State(300, 5, map[k := Entry(0, 5)], map[], map[0 := Section(k, 0, 5, Sent(0))], 1,
              [Created(k, 0, 0, None)])
  {
    RunOneMore(300, 0, [], Acquire(0, k));
    assert [] + [Acquire(0, k)] == [Acquire(0, k)];
    RunOneMore(300, 0, [Acquire(0, k)], LookUp(0));
    RunOneMore(300, 0, [Acquire(0, k)] + [LookUp(0)], Send(0, true));
    RunOneMore(300, 0, [Acquire(0, k)] + [LookUp(0)] + [Send(0, true)], Tick(LOCK_TTL));
  }

  lemma RunOneMore(ttl: nat, start: int, acts: seq<Action>, a: Action)
    ensures Run(ttl, start, acts + [a]) == Step(Run(ttl, start, acts), a)
  {
    assert (acts + [a])[..|acts|] == acts;
  }
}
