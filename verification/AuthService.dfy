/**
 Refresh sessions when requests run one after the other: every usable session of a user is listed in
 the user's session set, so presenting a rotated token ends them all.
 */
module AuthService {
  import opened Wrappers
  import opened KeyStore
  import opened RefreshProtocol

  datatype Auth = Auth(
    sessionTtl: nat,
    now: int,
    sessions: map<SessionId, Entry<Session>>,
    userSets: map<UserId, Entry<set<SessionId>>>,
    nextSession: SessionId)

  predicate Usable(s: Auth, id: SessionId) {
    match Get(s.sessions, id, s.now)
    case None => false
    case Some(v) => !Revoked(v) && s.now < v.expiresAt
  }

  function Listing(s: Auth, u: UserId): set<SessionId> {
    match Get(s.userSets, u, s.now)
    case Some(ids) => ids
    case None => {}
  }

  function Fresh(s: Auth, u: UserId): Session {
    Session(u, s.now + s.sessionTtl, 0, None)
  }

  /** The session stored, listed, and the listing's expiry renewed. */
  function Created(s: Auth, u: UserId): Auth {
    s.(sessions := Set(s.sessions, s.nextSession, Fresh(s, u), s.now, TtlOf(s.now + s.sessionTtl, s.now)),
       userSets := Set(s.userSets, u, Listing(s, u) + {s.nextSession}, s.now, TtlOf(s.now + s.sessionTtl, s.now)),
       nextSession := s.nextSession + 1)
  }

  function RevokedAt(s: Auth, v: Session): Entry<Session> {
    Entry(v.(revokedAt := s.now), s.now + TtlOf(v.expiresAt, s.now))
  }

  /** Every readable session of the listing is overwritten as revoked. */
  function AllRevoked(s: Auth, u: UserId): Auth {
    s.(sessions := map id | id in s.sessions ::
         if id in Listing(s, u) && Get(s.sessions, id, s.now).Some? then RevokedAt(s, s.sessions[id].value)
         else s.sessions[id])
  }

  /** How a refresh ended: with a successor, an invalid session, or a failed rotation. */
  datatype Answer = Successor(id: SessionId) | Invalid | Unavailable

  datatype Refreshed = Refreshed(auth: Auth, answer: Answer)

  function Refresh(s: Auth, id: SessionId, secretOk: bool, save: CallResult, rollBack: CallResult): Refreshed {
    match Get(s.sessions, id, s.now)
    case None => Refreshed(s, Invalid)
    case Some(v) =>
      if !secretOk then Refreshed(s, Invalid)
      else if Revoked(v) || v.expiresAt <= s.now then Refreshed(AllRevoked(s, v.user), Invalid)
      else
        var c := Created(s, v.user);
        var rotated := Entry(Rotated(v, s.now, s.nextSession), s.now + TtlOf(v.expiresAt, s.now));
        var saved := if save.TookEffect() then c.(sessions := c.sessions[id := rotated]) else c;
        if save.Returned? then Refreshed(saved, Successor(s.nextSession))
        else Refreshed(
          if rollBack.TookEffect()
          then saved.(sessions := saved.sessions[s.nextSession := RevokedAt(s, Fresh(s, v.user))])
          else saved,
          Unavailable)
  }

  function Logout(s: Auth, id: SessionId, secretOk: bool): Auth {
    match Get(s.sessions, id, s.now)
    case None => s
    case Some(v) =>
      if !secretOk || Revoked(v) then s
      else s.(sessions := s.sessions[id := RevokedAt(s, v)])
  }

  datatype Op =
    | TickOp(seconds: nat)
    | LoginOp(user: UserId)
    | RefreshOp(session: SessionId, secretOk: bool, save: CallResult, rollBack: CallResult)
    | LogoutOp(session: SessionId, secretOk: bool)
    | RevokeAllOp(user: UserId)

  function Apply(s: Auth, op: Op): Auth {
    match op
    case TickOp(d) => s.(now := s.now + d)
    case LoginOp(u) => Created(s, u)
    case RefreshOp(id, secretOk, save, rollBack) => Refresh(s, id, secretOk, save, rollBack).auth
    case LogoutOp(id, secretOk) => Logout(s, id, secretOk)
    case RevokeAllOp(u) => AllRevoked(s, u)
  }

  function Empty(sessionTtl: nat, now: int): Auth {
    Auth(sessionTtl, now, map[], map[], 0)
  }

  function RunAll(sessionTtl: nat, start: int, ops: seq<Op>): Auth {
    if |ops| == 0 then Empty(sessionTtl, start)
    else Apply(RunAll(sessionTtl, start, ops[..|ops| - 1]), ops[|ops| - 1])
  }

  // ---------- every usable session is listed ----------

  /** A live unrevoked session is in its user's live listing, which outlives it. */
  ghost predicate ListedOk(s: Auth, id: SessionId) {
    id in s.sessions && s.now < s.sessions[id].deadline && !Revoked(s.sessions[id].value) ==>
      var u := s.sessions[id].value.user;
      s.sessions[id].deadline <= s.now + TtlOf(s.now + s.sessionTtl, s.now)
      && u in s.userSets && id in s.userSets[u].value && s.sessions[id].deadline <= s.userSets[u].deadline
  }

  ghost predicate Serial(s: Auth) {
    && 0 < s.now
    && (forall id :: id in s.sessions ==> id < s.nextSession)
    && forall id :: ListedOk(s, id)
  }

  lemma CreatedKeeps(s: Auth, u: UserId)
    requires Serial(s)
    ensures Serial(Created(s, u))
  {
    forall id ensures ListedOk(Created(s, u), id) {
      assert ListedOk(s, id);
    }
  }

  /** Overwriting sessions with revoked values only. */
  lemma RevokingKeeps(s: Auth, s': Auth)
    requires Serial(s) && s' == s.(sessions := s'.sessions)
    requires s'.sessions.Keys == s.sessions.Keys
    requires forall id :: id in s.sessions ==> s'.sessions[id] == s.sessions[id] || Revoked(s'.sessions[id].value)
    ensures Serial(s')
  {
    forall id ensures ListedOk(s', id) {
      assert ListedOk(s, id);
    }
  }

  lemma ApplyKeeps(s: Auth, op: Op)
    requires Serial(s)
    ensures Serial(Apply(s, op))
  {
    match op
    case TickOp(d) =>
      forall id ensures ListedOk(Apply(s, op), id) { assert ListedOk(s, id); }
    case LoginOp(u) => CreatedKeeps(s, u);
    case LogoutOp(id, _) => RevokingKeeps(s, Apply(s, op));
    case RevokeAllOp(_) => RevokingKeeps(s, Apply(s, op));
    case RefreshOp(id, secretOk, save, rollBack) => RefreshKeeps(s, id, secretOk, save, rollBack);
  }

  lemma RefreshKeeps(s: Auth, id: SessionId, secretOk: bool, save: CallResult, rollBack: CallResult)
    requires Serial(s)
    ensures Serial(Refresh(s, id, secretOk, save, rollBack).auth)
  {
    if Usable(s, id) && secretOk {
      CreatedKeeps(s, s.sessions[id].value.user);
      RevokingKeeps(Created(s, s.sessions[id].value.user), Refresh(s, id, secretOk, save, rollBack).auth);
    } else {
      RevokingKeeps(s, Refresh(s, id, secretOk, save, rollBack).auth);
    }
  }

  lemma {:induction false} RunStaysSerial(sessionTtl: nat, start: nat, ops: seq<Op>)
    requires 0 < start
    ensures Serial(RunAll(sessionTtl, start, ops))
  {
    if |ops| != 0 {
      RunStaysSerial(sessionTtl, start, ops[..|ops| - 1]);
      ApplyKeeps(RunAll(sessionTtl, start, ops[..|ops| - 1]), ops[|ops| - 1]);
    } else {
      assert forall id :: ListedOk(Empty(sessionTtl, start), id);
    }
  }

  /** In every serial run, with failing saves and rollbacks, a usable session is in its user's listing. */
  lemma UsableSessionsAreListed(sessionTtl: nat, start: nat, ops: seq<Op>, id: SessionId)
    requires 0 < start && Usable(RunAll(sessionTtl, start, ops), id)
    ensures var s := RunAll(sessionTtl, start, ops); id in Listing(s, s.sessions[id].value.user)
  {
    RunStaysSerial(sessionTtl, start, ops);
    assert ListedOk(RunAll(sessionTtl, start, ops), id);
  }

  /** Revoking all leaves the user without a usable session. */
  lemma RevokeAllIsComplete(s: Auth, u: UserId, id: SessionId)
    requires Serial(s) && id in s.sessions && s.sessions[id].value.user == u
    ensures !Usable(AllRevoked(s, u), id)
  {
    assert ListedOk(s, id);
  }

  /** The user has a session that can be refreshed. */
  ghost predicate HasUsable(s: Auth, u: UserId) {
    exists id :: Usable(s, id) && s.sessions[id].value.user == u
  }

  /** As long as the record of a revoked session is readable, replaying its token ends every session of the user. */
  lemma ReplayEndsReadable(s: Auth, token: SessionId, save: CallResult, rollBack: CallResult, id: SessionId)
    requires Serial(s) && token in s.sessions && Revoked(s.sessions[token].value) && s.now < s.sessions[token].deadline
    ensures var r := Refresh(s, token, true, save, rollBack);
      r.answer == Invalid && (Usable(r.auth, id) ==> r.auth.sessions[id].value.user != s.sessions[token].value.user)
  {
    var u := s.sessions[token].value.user;
    if id in s.sessions && s.sessions[id].value.user == u { RevokeAllIsComplete(s, u, id); }
  }

  /**
   Presenting a token that was rotated or logged out, with its correct secret, is always refused. It
   leaves its user without a usable session exactly if the revoked record was still there to be read,
   or the user had no usable session anyway.
   */
  lemma ReplayEndsAllIff(sessionTtl: nat, start: nat, ops: seq<Op>, token: SessionId, save: CallResult,
          rollBack: CallResult)
    requires 0 < start
    requires var s := RunAll(sessionTtl, start, ops); token in s.sessions && Revoked(s.sessions[token].value)
    ensures var s := RunAll(sessionTtl, start, ops);
      var r := Refresh(s, token, true, save, rollBack); var u := s.sessions[token].value.user;
      && r.answer == Invalid
      && (!HasUsable(r.auth, u) <==> s.now < s.sessions[token].deadline || !HasUsable(s, u))
  {
    RunStaysSerial(sessionTtl, start, ops);
    var s := RunAll(sessionTtl, start, ops);
    var r := Refresh(s, token, true, save, rollBack);
    if s.now < s.sessions[token].deadline {
      forall id ensures Usable(r.auth, id) ==> r.auth.sessions[id].value.user != s.sessions[token].value.user {
        ReplayEndsReadable(s, token, save, rollBack, id);
      }
    } else {
      assert r == Refreshed(s, Invalid);
    }
  }

  // ---------- whose sessions an operation touches ----------

  ghost predicate OwnListing(s: Auth, u: UserId)
    requires u in s.userSets
  {
    forall id :: id in s.userSets[u].value ==>
      id < s.nextSession && (id in s.sessions ==> s.sessions[id].value.user == u)
  }

  /** A listing names sessions of its own user only. */
  ghost predicate Owned(s: Auth) {
    && (forall id :: id in s.sessions ==> id < s.nextSession)
    && forall u :: u in s.userSets ==> OwnListing(s, u)
  }

  lemma CreatedKeepsOwned(s: Auth, u: UserId)
    requires Owned(s)
    ensures Owned(Created(s, u))
  {
    var t := Created(s, u);
    forall v | v in t.userSets ensures OwnListing(t, v) {
      assert v in s.userSets ==> OwnListing(s, v);
    }
  }

  /** Overwriting sessions, each with one of the same user. */
  lemma SameUsersKeepOwned(s: Auth, t: Auth)
    requires Owned(s) && t == s.(now := t.now, sessions := t.sessions) && t.sessions.Keys == s.sessions.Keys
    requires forall id :: id in s.sessions ==> t.sessions[id].value.user == s.sessions[id].value.user
    ensures Owned(t)
  {
    forall u | u in t.userSets ensures OwnListing(t, u) {
      assert OwnListing(s, u);
    }
  }

  lemma ApplyKeepsOwned(s: Auth, op: Op)
    requires Owned(s)
    ensures Owned(Apply(s, op))
  {
    if op.LoginOp? {
      CreatedKeepsOwned(s, op.user);
    } else if op.RefreshOp? && Usable(s, op.session) && op.secretOk {
      CreatedKeepsOwned(s, s.sessions[op.session].value.user);
      SameUsersKeepOwned(Created(s, s.sessions[op.session].value.user), Apply(s, op));
    } else {
      SameUsersKeepOwned(s, Apply(s, op));
    }
  }

  lemma {:induction false} RunStaysOwned(sessionTtl: nat, start: nat, ops: seq<Op>)
    ensures Owned(RunAll(sessionTtl, start, ops))
  {
    if |ops| != 0 {
      RunStaysOwned(sessionTtl, start, ops[..|ops| - 1]);
      ApplyKeepsOwned(RunAll(sessionTtl, start, ops[..|ops| - 1]), ops[|ops| - 1]);
    }
  }

  /** The user whose sessions the request is about, or all of them as time passes; a login is about none. */
  predicate Concerns(s: Auth, op: Op, u: UserId) {
    match op
    case TickOp(_) => true
    case LoginOp(_) => false
    case RefreshOp(id, _, _, _) => id in s.sessions && s.sessions[id].value.user == u
    case LogoutOp(id, _) => id in s.sessions && s.sessions[id].value.user == u
    case RevokeAllOp(v) => v == u
  }

  /** In every serial run, whatever one user's request does, it leaves the sessions of all others as they are. */
  lemma OthersKeepTheirs(sessionTtl: nat, start: nat, ops: seq<Op>, op: Op, id: SessionId)
    requires var s := RunAll(sessionTtl, start, ops);
             id in s.sessions && !Concerns(s, op, s.sessions[id].value.user)
    ensures var s := RunAll(sessionTtl, start, ops);
            && id in Apply(s, op).sessions && Apply(s, op).sessions[id] == s.sessions[id]
            && (Usable(Apply(s, op), id) <==> Usable(s, id))
  {
    RunStaysOwned(sessionTtl, start, ops);
    var s := RunAll(sessionTtl, start, ops);
    forall u | u in s.userSets && u != s.sessions[id].value.user ensures id !in Listing(s, u) {
      assert OwnListing(s, u);
    }
  }

  // ---------- a replay too late ----------

  lemma OneMoreOp(sessionTtl: nat, start: int, ops: seq<Op>, op: Op)
    ensures RunAll(sessionTtl, start, ops + [op]) == Apply(RunAll(sessionTtl, start, ops), op)
  {
    assert (ops + [op])[..|ops|] == ops;
  }

  /** A login, a refresh half-way through the session's life, and a pause past the old session's end. */
  function LateReplay(u: UserId): seq<Op> {
    [] + [LoginOp(u)] + [TickOp(5)] + [RefreshOp(0, true, Returned, Returned)] + [TickOp(6)]
  }

  lemma LoggedIn(u: UserId)
    ensures RunAll(10, 1, [] + [LoginOp(u)] + [TickOp(5)]) ==
            Auth(10, 6, map[0 := Entry(Session(u, 11, 0, None), 11)], map[u := Entry({0}, 11)], 1)
  {
    OneMoreOp(10, 1, [], LoginOp(u));
    OneMoreOp(10, 1, [] + [LoginOp(u)], TickOp(5));
    assert Listing(Empty(10, 1), u) + {0} == {0};
  }

  lemma RotatedOnce(u: UserId)
    ensures var s := Auth(10, 6, map[0 := Entry(Session(u, 11, 0, None), 11)], map[u := Entry({0}, 11)], 1);
            var t := Refresh(s, 0, true, Returned, Returned).auth;
            && t.now == 6
            && t.sessions == map[0 := Entry(Session(u, 11, 6, Some(1)), 11), 1 := Entry(Session(u, 16, 0, None), 16)]
  {
  }

  /** The rotated token is replayed when its record is gone: refused, but the successor stays usable. */
  lemma LateReplayEndsNothing(u: UserId, save: CallResult, rollBack: CallResult)
    ensures var s := RunAll(10, 1, LateReplay(u)); var r := Refresh(s, 0, true, save, rollBack);
      && 0 in s.sessions && Revoked(s.sessions[0].value) && s.sessions[0].value.replacedBy == Some(1)
      && r.answer == Invalid && Usable(r.auth, 1) && r.auth.sessions[1].value.user == u
  {
    LoggedIn(u);
    RotatedOnce(u);
    var ops := [] + [LoginOp(u)] + [TickOp(5)];
    OneMoreOp(10, 1, ops, RefreshOp(0, true, Returned, Returned));
    OneMoreOp(10, 1, ops + [RefreshOp(0, true, Returned, Returned)], TickOp(6));
  }

  /** A login gives a usable session, listed, and takes nothing from anybody. */
  lemma CreatedIsUsable(s: Auth, u: UserId, id: SessionId)
    requires Serial(s) && 0 < s.sessionTtl
    ensures var t := Created(s, u);
      && Usable(t, s.nextSession) && t.sessions[s.nextSession].value.user == u && s.nextSession in Listing(t, u)
      && (id != s.nextSession ==> (Usable(t, id) <==> Usable(s, id)))
      && (id in Listing(s, u) ==> id in Listing(t, u))
  {
  }

  /** A logout with the right secret ends that session and no other; with a wrong one it does nothing. */
  lemma LogoutEndsSession(s: Auth, id: SessionId, secretOk: bool, other: SessionId)
    requires 0 < s.now
    ensures var t := Logout(s, id, secretOk);
      && t.sessions.Keys == s.sessions.Keys && t == s.(sessions := t.sessions)
      && (secretOk ==> !Usable(t, id))
      && (!secretOk ==> t == s)
      && (other != id ==> (Usable(t, other) <==> Usable(s, other)))
  {
  }

  /** A refresh answers with a successor exactly for a usable session, the right secret and a save that returns. */
  lemma RefreshAnswersIff(s: Auth, id: SessionId, secretOk: bool, save: CallResult, rollBack: CallResult)
    requires Serial(s) && 0 < s.sessionTtl
    ensures var r := Refresh(s, id, secretOk, save, rollBack);
      && (r.answer.Successor? <==> Usable(s, id) && secretOk && save.Returned?)
      && (r.answer.Successor? ==> Usable(r.auth, r.answer.id) && !Usable(r.auth, id)
                                  && r.auth.sessions[r.answer.id].value.user == s.sessions[id].value.user)
      && (r.answer == Unavailable && rollBack.TookEffect() ==>
            forall k :: Usable(r.auth, k) ==> Usable(s, k))
  {
  }

  // ---------- the service ----------

  class AuthSessions {
    const sessionTtl: nat
    var now: int
    var sessions: map<SessionId, Entry<Session>>
    var userSets: map<UserId, Entry<set<SessionId>>>
    var nextSession: SessionId

    function State(): Auth
      reads this
    {
      Auth(sessionTtl, now, sessions, userSets, nextSession)
    }

    constructor (sessionTtl: nat, now: int)
      ensures State() == Empty(sessionTtl, now)
    {
      this.sessionTtl := sessionTtl;
      this.now := now;
      sessions, userSets, nextSession := map[], map[], 0;
    }

    method CreateSession(u: UserId) returns (id: SessionId)
      modifies this
      ensures State() == Created(old(State()), u) && id == old(nextSession)
    {
      id := nextSession;
      var ttl := TtlOf(now + sessionTtl, now);
      sessions := Set(sessions, id, Session(u, now + sessionTtl, 0, None), now, ttl);
      var members := Listing(State(), u);
      userSets := userSets[u := Entry(members + {id}, now + ttl)];
      nextSession := nextSession + 1;
    }

    /** Reads the listing once, then reads and overwrites its sessions one by one. */
    method RevokeAllSessions(u: UserId)
      modifies this
      ensures State() == AllRevoked(old(State()), u)
    {
      ghost var before := State();
      var todo := Listing(State(), u);
      ghost var done := {};
      while todo != {}
        invariant todo + done == Listing(before, u) && todo !! done
        invariant State() == before.(sessions := sessions) && sessions.Keys == before.sessions.Keys
        invariant forall id :: id in sessions ==>
                    sessions[id] == if id in done then AllRevoked(before, u).sessions[id] else before.sessions[id]
      {
        var id :| id in todo;
        todo := todo - {id};
        done := done + {id};
        match Get(sessions, id, now)
        case None =>
        case Some(v) =>
          sessions := sessions[id := Entry(v.(revokedAt := now), now + TtlOf(v.expiresAt, now))];
      }
      assert sessions == AllRevoked(before, u).sessions;
    }

    method RefreshSession(id: SessionId, secretOk: bool, save: CallResult, rollBack: CallResult)
      returns (answer: Answer)
      modifies this
      ensures Refreshed(State(), answer) == Refresh(old(State()), id, secretOk, save, rollBack)
    {
      var stored := Get(sessions, id, now);
      if stored.None? || !secretOk {
        return Invalid;
      }
      var session := stored.value;
      if session.revokedAt != 0 || session.expiresAt <= now {
        RevokeAllSessions(session.user);
        return Invalid;
      }
      var next := CreateSession(session.user);
      if save.TookEffect() {
        var rotated := session.(revokedAt := now, replacedBy := Some(next));
        sessions := sessions[id := Entry(rotated, now + TtlOf(session.expiresAt, now))];
      }
      if save.Returned? {
        return Successor(next);
      }
      if rollBack.TookEffect() {
        var undone := Session(session.user, now + sessionTtl, now, None);
        sessions := sessions[next := Entry(undone, now + TtlOf(undone.expiresAt, now))];
      }
      return Unavailable;
    }

    method LogOut(id: SessionId, secretOk: bool)
      modifies this
      ensures State() == Logout(old(State()), id, secretOk)
    {
      var stored := Get(sessions, id, now);
      if stored.None? || !secretOk || stored.value.revokedAt != 0 {
        return;
      }
      sessions := sessions[id := Entry(stored.value.(revokedAt := now), now + TtlOf(stored.value.expiresAt, now))];
    }
  }
}
