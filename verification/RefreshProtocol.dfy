/**
 Refresh-token rotation with many concurrent requests. Every store command of refresh, logout and
 revoke-all is one step; between two commands of one request any other request may run, so each
 writes back a copy of the session it read earlier.
 */
module RefreshProtocol {
  import opened Wrappers
  import opened KeyStore

  type UserId = nat
  type SessionId = nat
  type Token = nat
  type Req = nat

  /** revokedAt 0 stands for the absent value; the clock starts above it. */
  datatype Session = Session(user: UserId, expiresAt: int, revokedAt: int, replacedBy: Option<SessionId>)

  predicate Revoked(s: Session) {
    s.revokedAt != 0
  }

  function TtlOf(expiresAt: int, now: int): int {
    if expiresAt - now < 1 then 1 else expiresAt - now
  }

  /** The lock a refresh request holds until it ends. */
  datatype Hold = Hold(session: SessionId, token: Token, lease: int)

  /** Where a request stands; `prior`, `next` and `copy` are its local copies of sessions. */
  datatype Pc =
    | LockHeld
    | Checked(prior: Session, ts: int)
    | Stored(prior: Session, ts: int, nextId: SessionId, next: Session)
    | Listed(prior: Session, ts: int, nextId: SessionId, next: Session)
    | Ready(prior: Session, ts: int, nextId: SessionId, next: Session)
    | RollingBack(nextId: SessionId, next: Session)
    | LogoutRead(id: SessionId, copy: Session, ts: int)
    | RevokeStart(user: UserId, ts: int)
    | Revoking(todo: set<SessionId>, ts: int)
    | RevokingOne(id: SessionId, copy: Session, todo: set<SessionId>, ts: int)
    | Over

  datatype Request = Request(hold: Option<Hold>, pc: Pc)

  /** A successor token handed to a client. */
  datatype Success = Success(prior: SessionId, next: SessionId)

  datatype State = State(
    lockTtl: nat,
    sessionTtl: nat,
    now: int,
    sessions: map<SessionId, Entry<Session>>,
    userSets: map<UserId, Entry<set<SessionId>>>,
    locks: map<SessionId, Entry<Token>>,
    requests: map<Req, Request>,
    nextSession: SessionId,
    nextToken: Token,
    successes: seq<Success>)

  datatype Action =
    | Tick(seconds: nat)
    | Login(user: UserId)
    | Acquire(req: Req, session: SessionId)
    | Check(req: Req, secretOk: bool)
    | StoreFresh(req: Req)
    | ListFresh(req: Req)
    | ExpireList(req: Req)
    | Save(req: Req, outcome: CallResult)
    | RollBack(req: Req, outcome: CallResult)
    | LogoutGet(req: Req, session: SessionId, secretOk: bool)
    | LogoutSave(req: Req, outcome: CallResult)
    | RevokeAll(req: Req, user: UserId)
    | RevokeMembers(req: Req)
    | RevokeGet(req: Req, session: SessionId)
    | RevokeSave(req: Req, outcome: CallResult)
    | End(req: Req)

  function At(s: State, q: Req, pc: Pc): State
    requires q in s.requests
  {
    s.(requests := s.requests[q := s.requests[q].(pc := pc)])
  }

  /** SET of a session under its time to live, counted from the writer's own timestamp. */
  function Write(s: State, id: SessionId, v: Session, ts: int): State {
    s.(sessions := Set(s.sessions, id, v, s.now, TtlOf(v.expiresAt, ts)))
  }

  function WriteIf(s: State, outcome: CallResult, id: SessionId, v: Session, ts: int): State {
    if outcome.TookEffect() then Write(s, id, v, ts) else s
  }

  /** How long a session stored now, and its user's listing, live. */
  function FreshTtl(s: State): int {
    TtlOf(s.now + s.sessionTtl, s.now)
  }

  function NewSession(s: State, u: UserId): Session {
    Session(u, s.now + s.sessionTtl, 0, None)
  }

  function Members(s: State, u: UserId): set<SessionId> {
    match Get(s.userSets, u, s.now)
    case Some(ids) => ids
    case None => {}
  }

  /** Past its check, a refresh works on a session that exists. */
  predicate Rotating(pc: Pc) {
    pc.Checked? || pc.Stored? || pc.Listed? || pc.Ready?
  }

  /** Steps that neither take nor free a lock. */
  ghost predicate SameHolds(s: State, s': State) {
    && s'.locks == s.locks && s'.nextToken >= s.nextToken && s'.now >= s.now
    && (forall q :: q in s'.requests && s'.requests[q].hold.Some? ==>
          q in s.requests && s'.requests[q].hold == s.requests[q].hold)
  }

  /** A request is rotating because it was, or because it just read its session unrevoked. */
  ghost predicate RotatesOnlyOpen(s: State, s': State) {
    forall q :: q in s'.requests && s'.requests[q].hold.Some? && Rotating(s'.requests[q].pc) ==>
      var id := s'.requests[q].hold.value.session;
      (q in s.requests && s.requests[q].hold == s'.requests[q].hold && Rotating(s.requests[q].pc))
      || (id in s.sessions && !Revoked(s.sessions[id].value))
  }

  /** Only the stepping request moves. */
  ghost predicate OnlyMoves(s: State, s': State, q: Req) {
    && (forall p :: p != q ==> (p in s'.requests <==> p in s.requests))
    && (forall p :: p != q && p in s.requests ==> s'.requests[p] == s.requests[p])
  }

  function LoginStep(s: State, u: UserId): (s': State)
    ensures SameHolds(s, s') && RotatesOnlyOpen(s, s')
  {
    var id := s.nextSession;
    Write(s, id, NewSession(s, u), s.now).(
      userSets := Set(s.userSets, u, Members(s, u) + {id}, s.now, FreshTtl(s)),
      nextSession := id + 1)
  }

  function AcquireStep(s: State, q: Req, id: SessionId): (s': State)
    ensures RotatesOnlyOpen(s, s') && OnlyMoves(s, s', q)
  {
    if q in s.requests then s
    else if Get(s.locks, id, s.now).Some? then s.(nextToken := s.nextToken + 1)
    else s.(locks := SetIfMissing(s.locks, id, s.nextToken, s.now, s.lockTtl),
            requests := s.requests[q := Request(Some(Hold(id, s.nextToken, s.now + s.lockTtl)), LockHeld)],
            nextToken := s.nextToken + 1)
  }

  function CheckStep(s: State, q: Req, secretOk: bool): (s': State)
    ensures SameHolds(s, s') && RotatesOnlyOpen(s, s') && OnlyMoves(s, s', q)
  {
    if q !in s.requests || s.requests[q].pc != LockHeld || s.requests[q].hold.None? then s
    else
      match Get(s.sessions, s.requests[q].hold.value.session, s.now)
      case None => At(s, q, Over)
      case Some(v) =>
        if !secretOk then At(s, q, Over)
        else if Revoked(v) || v.expiresAt <= s.now then At(s, q, RevokeStart(v.user, s.now))
        else At(s, q, Checked(v, s.now))
  }

  function StoreFreshStep(s: State, q: Req): (s': State)
    ensures SameHolds(s, s') && RotatesOnlyOpen(s, s') && OnlyMoves(s, s', q)
  {
    if q !in s.requests || !s.requests[q].pc.Checked? then s
    else
      var pc := s.requests[q].pc;
      var next := NewSession(s, pc.prior.user);
      At(Write(s, s.nextSession, next, s.now), q,
        Stored(pc.prior, pc.ts, s.nextSession, next)).(nextSession := s.nextSession + 1)
  }

  function ListFreshStep(s: State, q: Req): (s': State)
    ensures SameHolds(s, s') && RotatesOnlyOpen(s, s') && OnlyMoves(s, s', q)
  {
    if q !in s.requests || !s.requests[q].pc.Stored? then s
    else
      var pc := s.requests[q].pc;
      var u := pc.prior.user;
      var deadline := if Get(s.userSets, u, s.now).Some? then s.userSets[u].deadline else s.now + FreshTtl(s);
      At(s, q, Listed(pc.prior, pc.ts, pc.nextId, pc.next)).(
        userSets := s.userSets[u := Entry(Members(s, u) + {pc.nextId}, deadline)])
  }

  function ExpireListStep(s: State, q: Req): (s': State)
    ensures SameHolds(s, s') && RotatesOnlyOpen(s, s') && OnlyMoves(s, s', q)
  {
    if q !in s.requests || !s.requests[q].pc.Listed? then s
    else
      var pc := s.requests[q].pc;
      var moved := At(s, q, Ready(pc.prior, pc.ts, pc.nextId, pc.next));
      match Get(s.userSets, pc.prior.user, s.now)
      case None => moved
      case Some(ids) => moved.(userSets := Set(s.userSets, pc.prior.user, ids, s.now, FreshTtl(s)))
  }

  function Rotated(prior: Session, ts: int, nextId: SessionId): Session {
    prior.(revokedAt := ts, replacedBy := Some(nextId))
  }

  /** Revoking the old session; only after this SET returns is the successor handed out. */
  function SaveStep(s: State, q: Req, outcome: CallResult): (s': State)
    ensures SameHolds(s, s') && RotatesOnlyOpen(s, s') && OnlyMoves(s, s', q)
  {
    if q !in s.requests || !s.requests[q].pc.Ready? || s.requests[q].hold.None? then s
    else
      var pc := s.requests[q].pc;
      var id := s.requests[q].hold.value.session;
      var written := WriteIf(s, outcome, id, Rotated(pc.prior, pc.ts, pc.nextId), pc.ts);
      if outcome.Returned?
      then At(written, q, Over).(successes := s.successes + [Success(id, pc.nextId)])
      else At(written, q, RollingBack(pc.nextId, pc.next))
  }

  function RollBackStep(s: State, q: Req, outcome: CallResult): (s': State)
    ensures SameHolds(s, s') && RotatesOnlyOpen(s, s') && OnlyMoves(s, s', q)
  {
    if q !in s.requests || !s.requests[q].pc.RollingBack? then s
    else
      var pc := s.requests[q].pc;
      At(WriteIf(s, outcome, pc.nextId, pc.next.(revokedAt := s.now), s.now), q, Over)
  }

  function LogoutGetStep(s: State, q: Req, id: SessionId, secretOk: bool): (s': State)
    ensures SameHolds(s, s') && RotatesOnlyOpen(s, s') && OnlyMoves(s, s', q)
  {
    if q in s.requests then s
    else
      match Get(s.sessions, id, s.now)
      case None => s
      case Some(v) =>
        if !secretOk || Revoked(v) then s
        else s.(requests := s.requests[q := Request(None, LogoutRead(id, v, s.now))])
  }

  function LogoutSaveStep(s: State, q: Req, outcome: CallResult): (s': State)
    ensures SameHolds(s, s') && RotatesOnlyOpen(s, s') && OnlyMoves(s, s', q)
  {
    if q !in s.requests || !s.requests[q].pc.LogoutRead? then s
    else
      var pc := s.requests[q].pc;
      At(WriteIf(s, outcome, pc.id, pc.copy.(revokedAt := pc.ts), pc.ts), q, Over)
  }

  function RevokeAllStep(s: State, q: Req, u: UserId): (s': State)
    ensures SameHolds(s, s') && RotatesOnlyOpen(s, s') && OnlyMoves(s, s', q)
  {
    if q in s.requests then s
    else s.(requests := s.requests[q := Request(None, RevokeStart(u, s.now))])
  }

  function RevokeMembersStep(s: State, q: Req): (s': State)
    ensures SameHolds(s, s') && RotatesOnlyOpen(s, s') && OnlyMoves(s, s', q)
  {
    if q !in s.requests || !s.requests[q].pc.RevokeStart? then s
    else At(s, q, Revoking(Members(s, s.requests[q].pc.user), s.requests[q].pc.ts))
  }

  function RevokeGetStep(s: State, q: Req, id: SessionId): (s': State)
    ensures SameHolds(s, s') && RotatesOnlyOpen(s, s') && OnlyMoves(s, s', q)
  {
    if q !in s.requests || !s.requests[q].pc.Revoking? || id !in s.requests[q].pc.todo then s
    else
      var pc := s.requests[q].pc;
      match Get(s.sessions, id, s.now)
      case None => At(s, q, Revoking(pc.todo - {id}, pc.ts))
      case Some(v) => At(s, q, RevokingOne(id, v, pc.todo - {id}, pc.ts))
  }

  function RevokeSaveStep(s: State, q: Req, outcome: CallResult): (s': State)
    ensures SameHolds(s, s') && RotatesOnlyOpen(s, s') && OnlyMoves(s, s', q)
  {
    if q !in s.requests || !s.requests[q].pc.RevokingOne? then s
    else
      var pc := s.requests[q].pc;
      var written := WriteIf(s, outcome, pc.id, pc.copy.(revokedAt := pc.ts), pc.ts);
      At(written, q, if outcome.Returned? then Revoking(pc.todo, pc.ts) else Over)
  }

  /** The request is over, by returning or by an exception anywhere; a refresh releases its lock. */
  function EndStep(s: State, q: Req): (s': State)
    ensures RotatesOnlyOpen(s, s') && OnlyMoves(s, s', q)
  {
    if q !in s.requests then s
    else
      match s.requests[q].hold
      case None => s.(requests := s.requests - {q})
      case Some(h) => s.(requests := s.requests - {q}, locks := CompareAndDelete(s.locks, h.session, h.token, s.now))
  }

  function Step(s: State, a: Action): State {
    match a
    case Tick(d) => s.(now := s.now + d)
    case Login(u) => LoginStep(s, u)
    case Acquire(q, id) => AcquireStep(s, q, id)
    case Check(q, secretOk) => CheckStep(s, q, secretOk)
    case StoreFresh(q) => StoreFreshStep(s, q)
    case ListFresh(q) => ListFreshStep(s, q)
    case ExpireList(q) => ExpireListStep(s, q)
    case Save(q, outcome) => SaveStep(s, q, outcome)
    case RollBack(q, outcome) => RollBackStep(s, q, outcome)
    case LogoutGet(q, id, secretOk) => LogoutGetStep(s, q, id, secretOk)
    case LogoutSave(q, outcome) => LogoutSaveStep(s, q, outcome)
    case RevokeAll(q, u) => RevokeAllStep(s, q, u)
    case RevokeMembers(q) => RevokeMembersStep(s, q)
    case RevokeGet(q, id) => RevokeGetStep(s, q, id)
    case RevokeSave(q, outcome) => RevokeSaveStep(s, q, outcome)
    case End(q) => EndStep(s, q)
  }

  function Init(lockTtl: nat, sessionTtl: nat, now: int): State {
    State(lockTtl, sessionTtl, now, map[], map[], map[], map[], 0, 0, [])
  }

  function Continue(s: State, acts: seq<Action>): State {
    if |acts| == 0 then s else Step(Continue(s, acts[..|acts| - 1]), acts[|acts| - 1])
  }

  // ---------- nothing un-revokes a session ----------

  /** Ids are handed out once, and every timestamp a request carries is a real one. */
  ghost predicate IdsOk(s: State) {
    && 0 < s.now
    && (forall id :: id in s.sessions ==> id < s.nextSession)
    && (forall q :: q in s.requests ==> PcOk(s, s.requests[q].pc))
    && (forall i :: 0 <= i < |s.successes| ==> s.successes[i].next < s.nextSession)
  }

  ghost predicate PcOk(s: State, pc: Pc) {
    match pc
    case Checked(_, ts) => 0 < ts <= s.now
    case Stored(_, ts, nextId, _) => 0 < ts <= s.now && nextId < s.nextSession
    case Listed(_, ts, nextId, _) => 0 < ts <= s.now && nextId < s.nextSession
    case Ready(_, ts, nextId, _) => 0 < ts <= s.now && nextId < s.nextSession
    case RollingBack(nextId, _) => nextId < s.nextSession
    case LogoutRead(id, _, ts) => 0 < ts <= s.now && id < s.nextSession
    case RevokeStart(_, ts) => 0 < ts <= s.now
    case Revoking(_, ts) => 0 < ts <= s.now
    case RevokingOne(id, _, _, ts) => 0 < ts <= s.now && id < s.nextSession
    case _ => true
  }

  ghost predicate HoldsOk(s: State) {
    forall q :: q in s.requests && s.requests[q].hold.Some? && Rotating(s.requests[q].pc) ==>
      s.requests[q].hold.value.session in s.sessions
  }

  ghost predicate Sane(s: State) {
    IdsOk(s) && HoldsOk(s)
  }

  /** What every step does to the sessions: some get a revoked value, at most a new id gets an open one. */
  ghost predicate OnlyRevokes(s: State, s': State) {
    && s.now <= s'.now && s.nextSession <= s'.nextSession
    && (forall id :: id in s.sessions ==> id in s'.sessions)
    && (forall id :: id in s'.sessions ==>
         || (id in s.sessions && s'.sessions[id] == s.sessions[id])
         || Revoked(s'.sessions[id].value) || s.nextSession <= id)
  }

  lemma StepOnlyRevokes(s: State, a: Action)
    requires Sane(s)
    ensures OnlyRevokes(s, Step(s, a))
  {
    if a.Save? || a.RollBack? {
      RotationSavesOnlyRevoke(s, a);
    } else if a.LogoutSave? || a.RevokeSave? {
      RevokingSavesOnlyRevoke(s, a);
    } else {
      OthersOnlyRevoke(s, a);
    }
  }

  lemma RotationSavesOnlyRevoke(s: State, a: Action)
    requires Sane(s) && (a.Save? || a.RollBack?)
    ensures OnlyRevokes(s, Step(s, a))
  {
    assert a.req in s.requests ==> PcOk(s, s.requests[a.req].pc);
  }

  lemma RevokingSavesOnlyRevoke(s: State, a: Action)
    requires Sane(s) && (a.LogoutSave? || a.RevokeSave?)
    ensures OnlyRevokes(s, Step(s, a))
  {
    assert a.req in s.requests ==> PcOk(s, s.requests[a.req].pc);
  }

  lemma OthersOnlyRevoke(s: State, a: Action)
    requires Sane(s) && !(a.Save? || a.RollBack? || a.LogoutSave? || a.RevokeSave?)
    ensures OnlyRevokes(s, Step(s, a))
  {
  }

  /** A step in which one request moves to a sane place keeps everything sane. */
  lemma MoveKeepsSane(s: State, s': State, q: Req)
    requires Sane(s) && OnlyRevokes(s, s') && OnlyMoves(s, s', q)
    requires forall id :: id in s'.sessions ==> id < s'.nextSession
    requires q in s'.requests ==> PcOk(s', s'.requests[q].pc)
    requires q in s'.requests && s'.requests[q].hold.Some? && Rotating(s'.requests[q].pc) ==>
               s'.requests[q].hold.value.session in s'.sessions
    requires forall i :: 0 <= i < |s'.successes| ==> s'.successes[i].next < s'.nextSession
    ensures Sane(s')
  {
    forall p | p in s'.requests ensures PcOk(s', s'.requests[p].pc) {
      if p != q { assert PcOk(s, s.requests[p].pc); }
    }
  }

  lemma EntryKeepsSane(s: State, a: Action)
    requires Sane(s) && (a.Acquire? || a.LogoutGet? || a.RevokeAll? || a.End?)
    ensures Sane(Step(s, a))
  {
    StepOnlyRevokes(s, a);
    assert a.req in s.requests ==> PcOk(s, s.requests[a.req].pc);
    MoveKeepsSane(s, Step(s, a), a.req);
  }

  lemma CheckKeepsSane(s: State, a: Action)
    requires Sane(s) && a.Check?
    ensures Sane(Step(s, a))
  {
    StepOnlyRevokes(s, a);
    assert a.req in s.requests ==> PcOk(s, s.requests[a.req].pc);
    MoveKeepsSane(s, Step(s, a), a.req);
  }

  lemma CreationKeepsSane(s: State, a: Action)
    requires Sane(s) && a.StoreFresh?
    ensures Sane(Step(s, a))
  {
    StepOnlyRevokes(s, a);
    assert a.req in s.requests ==> PcOk(s, s.requests[a.req].pc);
    MoveKeepsSane(s, Step(s, a), a.req);
  }

  lemma ListingKeepsSane(s: State, a: Action)
    requires Sane(s) && (a.ListFresh? || a.ExpireList?)
    ensures Sane(Step(s, a))
  {
    StepOnlyRevokes(s, a);
    assert a.req in s.requests ==> PcOk(s, s.requests[a.req].pc);
    MoveKeepsSane(s, Step(s, a), a.req);
  }

  lemma SaveKeepsSane(s: State, a: Action)
    requires Sane(s) && a.Save?
    ensures Sane(Step(s, a))
  {
    StepOnlyRevokes(s, a);
    assert a.req in s.requests ==> PcOk(s, s.requests[a.req].pc);
    MoveKeepsSane(s, Step(s, a), a.req);
  }

  lemma RollBackKeepsSane(s: State, a: Action)
    requires Sane(s) && a.RollBack?
    ensures Sane(Step(s, a))
  {
    StepOnlyRevokes(s, a);
    assert a.req in s.requests ==> PcOk(s, s.requests[a.req].pc);
    MoveKeepsSane(s, Step(s, a), a.req);
  }

  lemma RevokingSaveKeepsSane(s: State, a: Action)
    requires Sane(s) && (a.LogoutSave? || a.RevokeSave?)
    ensures Sane(Step(s, a))
  {
    StepOnlyRevokes(s, a);
    assert a.req in s.requests ==> PcOk(s, s.requests[a.req].pc);
    MoveKeepsSane(s, Step(s, a), a.req);
  }

  lemma RevokeReadKeepsSane(s: State, a: Action)
    requires Sane(s) && (a.RevokeMembers? || a.RevokeGet?)
    ensures Sane(Step(s, a))
  {
    StepOnlyRevokes(s, a);
    assert a.req in s.requests ==> PcOk(s, s.requests[a.req].pc);
    MoveKeepsSane(s, Step(s, a), a.req);
  }

  lemma StepKeepsSane(s: State, a: Action)
    requires Sane(s)
    ensures Sane(Step(s, a))
  {
    if a.Tick? || a.Login? {
      forall q | q in s.requests ensures PcOk(Step(s, a), s.requests[q].pc) { assert PcOk(s, s.requests[q].pc); }
    } else if a.Acquire? || a.LogoutGet? || a.RevokeAll? || a.End? {
      EntryKeepsSane(s, a);
    } else if a.Check? {
      CheckKeepsSane(s, a);
    } else if a.StoreFresh? {
      CreationKeepsSane(s, a);
    } else if a.ListFresh? || a.ExpireList? {
      ListingKeepsSane(s, a);
    } else if a.Save? {
      SaveKeepsSane(s, a);
    } else if a.RollBack? {
      RollBackKeepsSane(s, a);
    } else if a.LogoutSave? || a.RevokeSave? {
      RevokingSaveKeepsSane(s, a);
    } else {
      RevokeReadKeepsSane(s, a);
    }
  }

  /**
   Once a stored session is revoked, nothing that any number of requests do later, with whatever
   copies they read before and with or without the lock, makes it readable as unrevoked again.
   */
  lemma {:induction false} RevokedForever(s: State, acts: seq<Action>, id: SessionId)
    requires Sane(s) && id in s.sessions && Revoked(s.sessions[id].value)
    ensures var s' := Continue(s, acts);
      && Sane(s')
      && id in s'.sessions && Revoked(s'.sessions[id].value)
      && (match Get(s'.sessions, id, s'.now) case None => true case Some(v) => Revoked(v))
  {
    if |acts| != 0 {
      RevokedForever(s, acts[..|acts| - 1], id);
      var before := Continue(s, acts[..|acts| - 1]);
      StepOnlyRevokes(before, acts[|acts| - 1]);
      StepKeepsSane(before, acts[|acts| - 1]);
    }
  }

  lemma {:induction false} RunKeepsSane(s: State, acts: seq<Action>)
    requires Sane(s)
    ensures Sane(Continue(s, acts))
  {
    if |acts| != 0 {
      RunKeepsSane(s, acts[..|acts| - 1]);
      StepKeepsSane(Continue(s, acts[..|acts| - 1]), acts[|acts| - 1]);
    }
  }

  /** A rotation that failed and rolled back never leaves a successor that can be used. */
  lemma FailedRotationIsDead(s: State, q: Req, outcome: CallResult, acts: seq<Action>)
    requires Sane(s) && q in s.requests && s.requests[q].pc.RollingBack? && outcome.TookEffect()
    ensures var id := s.requests[q].pc.nextId; var s' := Continue(RollBackStep(s, q, outcome), acts);
      match Get(s'.sessions, id, s'.now) case None => true case Some(v) => Revoked(v)
  {
    StepKeepsSane(s, RollBack(q, outcome));
    RevokedForever(RollBackStep(s, q, outcome), acts, s.requests[q].pc.nextId);
  }

  // ---------- at most one successor ----------

  ghost predicate Holding(s: State, q: Req) {
    q in s.requests && s.requests[q].hold.Some? && s.now < s.requests[q].hold.value.lease
  }

  /** Lock tokens are never handed out twice: those in use are old, and no two requests share one. */
  ghost predicate TokensOld(s: State) {
    && (forall q :: q in s.requests && s.requests[q].hold.Some? ==> s.requests[q].hold.value.token < s.nextToken)
    && (forall id :: id in s.locks ==> s.locks[id].value < s.nextToken)
  }

  ghost predicate TokensDistinct(s: State) {
    forall p, q ::
      p in s.requests && q in s.requests && p != q && s.requests[p].hold.Some? && s.requests[q].hold.Some? ==>
      s.requests[p].hold.value.token != s.requests[q].hold.value.token
  }

  ghost predicate LocksOk(s: State) {
    && TokensOld(s) && TokensDistinct(s)
    && (forall q :: Holding(s, q) ==>
          var h := s.requests[q].hold.value;
          h.session in s.locks && s.locks[h.session] == Entry(h.token, h.lease))
  }

  lemma OneHolder(s: State, p: Req, q: Req)
    requires LocksOk(s) && Holding(s, p) && Holding(s, q)
    requires s.requests[p].hold.value.session == s.requests[q].hold.value.session
    ensures p == q
  {
  }

  /** Each session has at most one success, and a session with one is stored as revoked. */
  ghost predicate SuccessesOk(s: State) {
    && (forall i :: 0 <= i < |s.successes| ==>
          s.successes[i].prior in s.sessions && Revoked(s.sessions[s.successes[i].prior].value))
    && (forall i, j :: 0 <= i < j < |s.successes| ==> s.successes[i].prior != s.successes[j].prior)
  }

  /** A rotation that still holds its lease is of a session that has no successor yet. */
  ghost predicate RotatingOk(s: State) {
    forall q, i :: Holding(s, q) && Rotating(s.requests[q].pc) && 0 <= i < |s.successes| ==>
      s.successes[i].prior != s.requests[q].hold.value.session
  }

  ghost predicate Inv(s: State) {
    Sane(s) && LocksOk(s) && SuccessesOk(s) && RotatingOk(s)
  }

  /** The old session is revoked before the lease ends. */
  ghost predicate Timely(s: State, a: Action) {
    a.Save? ==> a.req in s.requests ==> s.requests[a.req].hold.Some? ==> s.now < s.requests[a.req].hold.value.lease
  }

  ghost predicate AllTimely(s: State, acts: seq<Action>) {
    |acts| == 0 || (AllTimely(s, acts[..|acts| - 1]) && Timely(Continue(s, acts[..|acts| - 1]), acts[|acts| - 1]))
  }

  lemma SameHoldsKeepsLocks(s: State, s': State)
    requires LocksOk(s) && SameHolds(s, s')
    ensures LocksOk(s')
  {
    assert forall q :: Holding(s', q) ==> Holding(s, q);
  }

  lemma AcquireKeepsOld(s: State, q: Req, id: SessionId)
    requires TokensOld(s)
    ensures TokensOld(AcquireStep(s, q, id))
  {
  }

  lemma AcquireKeepsDistinct(s: State, q: Req, id: SessionId)
    requires TokensOld(s) && TokensDistinct(s)
    ensures TokensDistinct(AcquireStep(s, q, id))
  {
  }

  lemma AcquireKeepsLocks(s: State, q: Req, id: SessionId)
    requires LocksOk(s)
    ensures LocksOk(AcquireStep(s, q, id))
  {
    AcquireKeepsOld(s, q, id);
    AcquireKeepsDistinct(s, q, id);
    var s' := AcquireStep(s, q, id);
    if q !in s.requests && Get(s.locks, id, s.now).None? {
      assert s'.locks == s.locks[id := Entry(s.nextToken, s.now + s.lockTtl)];
      forall p | Holding(s', p)
        ensures var h := s'.requests[p].hold.value;
                h.session in s'.locks && s'.locks[h.session] == Entry(h.token, h.lease)
      {
        if p != q {
          assert s'.requests[p] == s.requests[p];
          assert Holding(s, p) && s.requests[p].hold.value.session != id;
        }
      }
    } else {
      SameHoldsKeepsLocks(s, s');
    }
  }

  lemma EndKeepsLocks(s: State, q: Req)
    requires LocksOk(s)
    ensures LocksOk(EndStep(s, q))
  {
    var s' := EndStep(s, q);
    assert forall p :: Holding(s', p) ==> Holding(s, p) && p != q;
  }

  lemma StepKeepsLocks(s: State, a: Action)
    requires LocksOk(s)
    ensures LocksOk(Step(s, a))
  {
    match a
    case Acquire(q, id) => AcquireKeepsLocks(s, q, id);
    case End(q) => EndKeepsLocks(s, q);
    case _ => SameHoldsKeepsLocks(s, Step(s, a));
  }

  /** The one step that hands out a successor. */
  lemma SuccessKeeps(s: State, q: Req)
    requires Inv(s) && Holding(s, q) && s.requests[q].pc.Ready?
    ensures SuccessesOk(SaveStep(s, q, Returned)) && RotatingOk(SaveStep(s, q, Returned))
  {
    var s' := SaveStep(s, q, Returned);
    var id := s.requests[q].hold.value.session;
    assert PcOk(s, s.requests[q].pc);
    assert Revoked(s'.sessions[id].value);
    forall p, i | Holding(s', p) && Rotating(s'.requests[p].pc) && 0 <= i < |s'.successes|
      ensures s'.successes[i].prior != s'.requests[p].hold.value.session
    {
      assert p != q && Holding(s, p);
      if i == |s.successes| && s.requests[p].hold.value.session == id { OneHolder(s, p, q); }
    }
  }

  /** Without a new success, revoked sessions stay revoked, so a check cannot pass on one that has a successor. */
  lemma NoSuccessKeeps(s: State, s': State)
    requires Inv(s) && OnlyRevokes(s, s') && s'.successes == s.successes
    requires RotatesOnlyOpen(s, s')
    ensures SuccessesOk(s') && RotatingOk(s')
  {
  }

  /** The save that makes a rotation succeed. */
  predicate HandsOut(s: State, a: Action) {
    a.Save? && a.outcome.Returned? && a.req in s.requests && s.requests[a.req].pc.Ready? && s.requests[a.req].hold.Some?
  }

  lemma OthersHandOutNothing(s: State, a: Action)
    requires !HandsOut(s, a)
    ensures Step(s, a).successes == s.successes && RotatesOnlyOpen(s, Step(s, a))
  {
  }

  lemma StepKeepsSuccesses(s: State, a: Action)
    requires Inv(s) && Timely(s, a)
    ensures SuccessesOk(Step(s, a)) && RotatingOk(Step(s, a))
  {
    if HandsOut(s, a) {
      SuccessKeeps(s, a.req);
    } else {
      OthersHandOutNothing(s, a);
      StepOnlyRevokes(s, a);
      NoSuccessKeeps(s, Step(s, a));
    }
  }

  lemma StepKeepsInv(s: State, a: Action)
    requires Inv(s) && Timely(s, a)
    ensures Inv(Step(s, a))
  {
    StepKeepsSane(s, a);
    StepKeepsLocks(s, a);
    StepKeepsSuccesses(s, a);
  }

  lemma {:induction false} RunKeepsInv(s: State, acts: seq<Action>)
    requires Inv(s) && AllTimely(s, acts)
    ensures Inv(Continue(s, acts))
  {
    if |acts| != 0 {
      RunKeepsInv(s, acts[..|acts| - 1]);
      StepKeepsInv(Continue(s, acts[..|acts| - 1]), acts[|acts| - 1]);
    }
  }

  /**
   Under any interleaving of refreshes, logouts and revocations, with saves that may raise and roll
   back, at most one refresh of a session ever hands out a successor, as long as the old session is
   revoked within the lock's lease.
   */
  lemma AtMostOneSuccessor(lockTtl: nat, sessionTtl: nat, start: nat, acts: seq<Action>, i: nat, j: nat)
    requires 0 < start && AllTimely(Init(lockTtl, sessionTtl, start), acts)
    requires var s := Continue(Init(lockTtl, sessionTtl, start), acts);
      i < |s.successes| && j < |s.successes| && s.successes[i].prior == s.successes[j].prior
    ensures i == j
  {
    RunKeepsInv(Init(lockTtl, sessionTtl, start), acts);
  }

  // ---------- the lease matters ----------

  lemma StepOn(s: State, acts: seq<Action>, a: Action)
    ensures Continue(s, acts + [a]) == Step(Continue(s, acts), a)
  {
    assert (acts + [a])[..|acts|] == acts;
  }

  /** One refresh of session 0 up to the point where the old session is to be revoked. */
  function Rotation(q: Req): seq<Action> {
    [Acquire(q, 0)] + [Check(q, true)] + [StoreFresh(q)] + [ListFresh(q)] + [ExpireList(q)]
  }

  /** A request that read session 0 while it was open and is about to revoke it for successor `next`. */
  ghost predicate AboutToSave(s: State, q: Req, next: SessionId) {
    q in s.requests && s.requests[q].hold.Some? && s.requests[q].hold.value.session == 0
    && s.requests[q].pc.Ready? && s.requests[q].pc.nextId == next
  }

  /** Session 0 is open and nobody holds its lock. */
  ghost predicate Open(s: State) {
    Get(s.locks, 0, s.now).None? && s.nextSession > 0 && 0 in s.sessions && s.now < s.sessions[0].deadline
    && !Revoked(s.sessions[0].value) && s.now < s.sessions[0].value.expiresAt
  }

  /** Where a rotation gets when nobody else holds the lock of session 0. */
  lemma RotationReady(s: State, q: Req)
    requires q !in s.requests && Open(s)
    ensures var s' := Continue(s, Rotation(q));
      && AboutToSave(s', q, s.nextSession) && OnlyMoves(s, s', q)
      && 0 in s'.sessions && s'.sessions[0] == s.sessions[0]
      && 0 in s'.locks && s'.locks[0].deadline == s.now + s.lockTtl
      && s'.now == s.now && s'.lockTtl == s.lockTtl && s'.nextSession == s.nextSession + 1
      && s'.successes == s.successes
  {
    RotationUnfolds(s, q);
    RotationChecked(s, q);
    RotationStored(CheckStep(AcquireStep(s, q, 0), q, true), q);
  }

  /** Creating and listing the successor touches neither older sessions nor locks. */
  lemma RotationStored(s: State, q: Req)
    requires q in s.requests && s.requests[q].pc.Checked?
    ensures var s' := ExpireListStep(ListFreshStep(StoreFreshStep(s, q), q), q);
      && q in s'.requests && s'.requests[q].hold == s.requests[q].hold
      && s'.requests[q].pc.Ready? && s'.requests[q].pc.nextId == s.nextSession && OnlyMoves(s, s', q)
      && (forall id :: id in s.sessions && id != s.nextSession ==>
            id in s'.sessions && s'.sessions[id] == s.sessions[id])
      && s' == s.(sessions := s'.sessions, requests := s'.requests, userSets := s'.userSets,
                  nextSession := s.nextSession + 1)
  {
    RotationCreated(s, q);
    RotationListed(ListFreshStep(StoreFreshStep(s, q), q), q);
  }

  lemma RotationListed(s: State, q: Req)
    requires q in s.requests && s.requests[q].pc.Listed?
    ensures var s' := ExpireListStep(s, q); var pc := s.requests[q].pc;
      s' == s.(requests := s.requests[q := s.requests[q].(pc := Ready(pc.prior, pc.ts, pc.nextId, pc.next))],
               userSets := s'.userSets)
  {
  }

  lemma FiveSteps(s: State, a: Action, b: Action, c: Action, d: Action, e: Action)
    ensures Continue(s, [a] + [b] + [c] + [d] + [e]) == Step(Step(Step(Step(Step(s, a), b), c), d), e)
  {
    assert [] + [a] == [a];
    StepOn(s, [], a);
    StepOn(s, [a], b);
    StepOn(s, [a] + [b], c);
    StepOn(s, [a] + [b] + [c], d);
    StepOn(s, [a] + [b] + [c] + [d], e);
  }

  lemma RotationUnfolds(s: State, q: Req)
    ensures Continue(s, Rotation(q))
            == ExpireListStep(ListFreshStep(StoreFreshStep(CheckStep(AcquireStep(s, q, 0), q, true), q), q), q)
  {
    FiveSteps(s, Acquire(q, 0), Check(q, true), StoreFresh(q), ListFresh(q), ExpireList(q));
  }

  lemma RotationChecked(s: State, q: Req)
    requires q !in s.requests && Open(s)
    ensures CheckStep(AcquireStep(s, q, 0), q, true)
            == s.(locks := s.locks[0 := Entry(s.nextToken, s.now + s.lockTtl)],
                  requests := s.requests[q := Request(Some(Hold(0, s.nextToken, s.now + s.lockTtl)),
                                                      Checked(s.sessions[0].value, s.now))],
                  nextToken := s.nextToken + 1)
  {
  }

  lemma RotationCreated(s: State, q: Req)
    requires q in s.requests && s.requests[q].pc.Checked?
    ensures var s' := ListFreshStep(StoreFreshStep(s, q), q); var pc := s.requests[q].pc;
      s' == s.(sessions := Set(s.sessions, s.nextSession, NewSession(s, pc.prior.user), s.now,
                               TtlOf(s.now + s.sessionTtl, s.now)),
               requests := s.requests[q := s.requests[q].(
                 pc := Listed(pc.prior, pc.ts, s.nextSession, NewSession(s, pc.prior.user)))],
               nextSession := s.nextSession + 1,
               userSets := s'.userSets)
  {
  }

  lemma {:induction false} ContinueTwice(s: State, first: seq<Action>, second: seq<Action>)
    ensures Continue(s, first + second) == Continue(Continue(s, first), second)
  {
    if |second| == 0 {
      assert first + second == first;
    } else {
      ContinueTwice(s, first, second[..|second| - 1]);
      assert (first + second)[..|first + second| - 1] == first + second[..|second| - 1];
    }
  }

  /** A refresh that overruns its lease before revoking the old session, and one that starts after. */
  function Overrun(lockTtl: nat): seq<Action> {
    Rotation(0) + [Tick(lockTtl)] + Rotation(1) + [Save(1, Returned)] + [Save(0, Returned)]
  }

  /** Both refreshes are past their checks: the first one's lock has run out before the second began. */
  lemma OverrunReady(s: State)
    requires s.requests == map[] && s.successes == [] && Open(s) && Open(s.(now := s.now + s.lockTtl))
    ensures var s' := Continue(s, Rotation(0) + [Tick(s.lockTtl)] + Rotation(1));
      AboutToSave(s', 0, s.nextSession) && AboutToSave(s', 1, s.nextSession + 1) && s'.successes == []
  {
    RotationReady(s, 0);
    StepOn(s, Rotation(0), Tick(s.lockTtl));
    var s2 := Step(Continue(s, Rotation(0)), Tick(s.lockTtl));
    RotationReady(s2, 1);
    ContinueTwice(s, Rotation(0) + [Tick(s.lockTtl)], Rotation(1));
  }

  /** The assumption on the lease is needed: without it one token yields two successors. */
  lemma OverrunTwoSuccessors(s: State)
    requires s.requests == map[] && s.successes == [] && Open(s) && Open(s.(now := s.now + s.lockTtl))
    ensures var s' := Continue(s, Overrun(s.lockTtl));
      s'.successes == [Success(0, s.nextSession + 1), Success(0, s.nextSession)]
  {
    OverrunReady(s);
    var both := Rotation(0) + [Tick(s.lockTtl)] + Rotation(1);
    var s3 := Continue(s, both);
    StepOn(s, both, Save(1, Returned));
    StepOn(s, both + [Save(1, Returned)], Save(0, Returned));
    SaveHandsOut(s3, 1, s.nextSession + 1);
    SaveHandsOut(SaveStep(s3, 1, Returned), 0, s.nextSession);
  }

  lemma SaveHandsOut(s: State, q: Req, next: SessionId)
    requires AboutToSave(s, q, next)
    ensures var s' := SaveStep(s, q, Returned);
      s'.successes == s.successes + [Success(0, next)] && OnlyMoves(s, s', q)
  {
  }

  /** A user logs in, and the run above begins. */
  lemma OverrunHappens(lockTtl: nat, sessionTtl: nat, u: UserId)
    requires lockTtl < sessionTtl
    ensures Continue(Init(lockTtl, sessionTtl, 1), [Login(u)] + Overrun(lockTtl)).successes
            == [Success(0, 2), Success(0, 1)]
  {
    var s0 := Init(lockTtl, sessionTtl, 1);
    assert [] + [Login(u)] == [Login(u)];
    StepOn(s0, [], Login(u));
    ContinueTwice(s0, [Login(u)], Overrun(lockTtl));
    OverrunTwoSuccessors(LoginStep(s0, u));
  }
}
