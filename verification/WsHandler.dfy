/**
 One websocket create request, run from lock to release with nobody in between: the code of the
 handler and of the store commands it uses, proved to take the steps of the idempotency protocol.
 */
module WsHandler {
  import opened Wrappers
  import opened KeyStore
  import I = Idempotency

  /** Storing the message fails; succeeds; or succeeds, and a later call raises before the id is recorded. */
  datatype SendOutcome = Fails | Succeeds | RaisesAfter

  datatype Answer = Busy | Existing(message: I.MessageId) | New(message: I.MessageId) | Error

  /** The steps of one request, one after the other; those that do not apply on its path do nothing. */
  function WholeSection(s: I.State, c: I.Conn, k: I.Key, send: SendOutcome): I.State {
    var locked := I.Step(s, I.Acquire(c, k));
    var looked := I.Step(locked, I.LookUp(c));
    var sent := I.Step(looked, I.Send(c, !send.Fails?));
    I.Step(I.Step(sent, if send.RaisesAfter? then I.Abandon(c) else I.Record(c)), I.Release(c))
  }

  ghost predicate CanLock(s: I.State, c: I.Conn, k: I.Key) {
    c !in s.sections && Get(s.locks, k, s.now).None?
  }

  /** The state once the lock has been taken and given back. */
  function LockedAndReleased(s: I.State, k: I.Key): I.State {
    s.(locks := SetIfMissing(s.locks, k, s.nextToken, s.now, I.LOCK_TTL) - {k}, nextToken := s.nextToken + 1)
  }

  lemma BusyPath(s: I.State, c: I.Conn, k: I.Key, send: SendOutcome)
    requires c !in s.sections && Get(s.locks, k, s.now).Some?
    ensures WholeSection(s, c, k, send) == s.(nextToken := s.nextToken + 1)
  {
  }

  lemma ReleasePath(s: I.State, at: I.State, c: I.Conn, k: I.Key)
    requires CanLock(s, c, k)
    requires c in at.sections && at.sections[c].key == k && at.sections[c].token == s.nextToken
    requires !at.sections[c].phase.Sent? && at.sections - {c} == s.sections
    requires at.locks == SetIfMissing(s.locks, k, s.nextToken, s.now, I.LOCK_TTL) && at.now == s.now
    ensures I.Step(at, I.Release(c)) == at.(locks := at.locks - {k}, sections := s.sections)
  {
  }

  lemma ExistingPath(s: I.State, c: I.Conn, k: I.Key, send: SendOutcome)
    requires CanLock(s, c, k) && Get(s.records, k, s.now).Some?
    ensures WholeSection(s, c, k, send) == LockedAndReleased(s, k)
  {
    var looked := I.Step(I.Step(s, I.Acquire(c, k)), I.LookUp(c));
    assert I.In(looked, c, I.Over);
    assert looked.sections - {c} == s.sections;
    ReleasePath(s, looked, c, k);
  }

  lemma FailPath(s: I.State, c: I.Conn, k: I.Key)
    requires CanLock(s, c, k) && Get(s.records, k, s.now).None?
    ensures WholeSection(s, c, k, Fails) == LockedAndReleased(s, k)
  {
    var looked := I.Step(I.Step(s, I.Acquire(c, k)), I.LookUp(c));
    var sent := I.Step(looked, I.Send(c, false));
    assert I.In(sent, c, I.Over);
    assert sent.sections - {c} == s.sections;
    ReleasePath(s, sent, c, k);
  }

  lemma RaisePath(s: I.State, c: I.Conn, k: I.Key)
    requires CanLock(s, c, k) && Get(s.records, k, s.now).None?
    ensures WholeSection(s, c, k, RaisesAfter) ==
            LockedAndReleased(s, k).(created := s.created + [I.Created(k, c, s.now, None)])
  {
    var looked := I.Step(I.Step(s, I.Acquire(c, k)), I.LookUp(c));
    assert I.In(looked, c, I.Clear);
    var sent := I.Step(looked, I.Send(c, true));
    assert sent.sections - {c} == s.sections;
  }

  lemma NewPath(s: I.State, c: I.Conn, k: I.Key)
    requires CanLock(s, c, k) && Get(s.records, k, s.now).None?
    ensures WholeSection(s, c, k, Succeeds) ==
            LockedAndReleased(s, k).(created := s.created + [I.Created(k, c, s.now, Some(s.now))],
                                     records := Set(s.records, k, |s.created|, s.now, s.ttl))
  {
    var looked := I.Step(I.Step(s, I.Acquire(c, k)), I.LookUp(c));
    assert I.In(looked, c, I.Clear);
    var sent := I.Step(looked, I.Send(c, true));
    var recorded := I.Step(sent, I.Record(c));
    assert recorded.created == s.created + [I.Created(k, c, s.now, Some(s.now))];
    assert I.In(recorded, c, I.Over);
    assert recorded.sections - {c} == s.sections;
    ReleasePath(s, recorded, c, k);
  }

  class Handler {
    const ttl: nat
    var now: int
    var locks: map<I.Key, Entry<I.Token>>
    var records: map<I.Key, Entry<I.MessageId>>
    var sections: map<I.Conn, I.Section>
    var nextToken: I.Token
    var created: seq<I.Created>

    constructor (ttl: nat, now: int)
      ensures State() == I.Init(ttl, now)
    {
      this.ttl := ttl;
      this.now := now;
      locks := map[];
      records := map[];
      sections := map[];
      nextToken := 0;
      created := [];
    }

    function State(): I.State
      reads this
    {
      I.State(ttl, now, locks, records, sections, nextToken, created)
    }

    method AcquireLock(k: I.Key, ttlSeconds: int) returns (token: Option<I.Token>)
      modifies this`locks, this`nextToken
      ensures nextToken == old(nextToken) + 1
      ensures token == if Get(old(locks), k, now).Some? then None else Some(old(nextToken))
      ensures locks == SetIfMissing(old(locks), k, old(nextToken), now, ttlSeconds)
    {
      var minted := nextToken;
      nextToken := nextToken + 1;
      if Get(locks, k, now).Some? {
        return None;
      }
      locks := Set(locks, k, minted, now, ttlSeconds);
      token := Some(minted);
    }

    method ReleaseLock(k: I.Key, token: I.Token)
      modifies this`locks
      ensures locks == CompareAndDelete(old(locks), k, token, now)
    {
      if Get(locks, k, now) == Some(token) {
        locks := locks - {k};
      }
    }

    method HandleCreate(c: I.Conn, k: I.Key, send: SendOutcome) returns (answer: Answer)
      requires c !in sections
      modifies this
      ensures State() == WholeSection(old(State()), c, k, send)
      ensures answer.Busy? <==> Get(old(locks), k, old(now)).Some?
      ensures answer.Existing? <==> !answer.Busy? && Get(old(records), k, old(now)).Some?
      ensures answer.Existing? ==> Get(old(records), k, old(now)) == Some(answer.message)
      ensures answer.New? <==> !answer.Busy? && !answer.Existing? && send.Succeeds?
      ensures answer.New? ==> answer.message == |old(created)|
      ensures answer.New? && ttl > 0 ==> Get(records, k, now) == Some(answer.message)
      ensures |created| == |old(created)| + (if answer.New? || (answer.Error? && send.RaisesAfter?) then 1 else 0)
      ensures old(created) <= created
      ensures |created| > |old(created)| ==>
                && created[|old(created)|].key == k && created[|old(created)|].sender == c
                && created[|old(created)|].at == now && (created[|old(created)|].recorded.Some? <==> answer.New?)
      ensures Get(locks, k, now).Some? <==> answer.Busy?
    {
      var token := AcquireLock(k, I.LOCK_TTL);
      if token.None? {
        BusyPath(old(State()), c, k, send);
        return Busy;
      }
      var existing := Get(records, k, now);
      if existing.Some? {
        ExistingPath(old(State()), c, k, send);
        answer := Existing(existing.value);
      } else if send.Fails? {
        FailPath(old(State()), c, k);
        answer := Error;
      } else {
        var message := |created|;
        created := created + [I.Created(k, c, now, None)];
        if send.RaisesAfter? {
          RaisePath(old(State()), c, k);
          answer := Error;
        } else {
          NewPath(old(State()), c, k);
          records := Set(records, k, message, now, ttl);
          created := created[message := created[message].(recorded := Some(now))];
          answer := New(message);
        }
      }
      ReleaseLock(k, token.value);
    }
  }
}
