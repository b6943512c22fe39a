/**
 A refresh with nobody in between: the commands of the interleaved protocol, taken one after the
 other by one request, do to the sessions what the serial refresh does.
 */
module SerialRefresh {
  import opened Wrappers
  import opened KeyStore
  import opened RefreshProtocol
  import A = AuthService

  /** What the serial model keeps of a state. */
  function View(s: State): A.Auth {
    A.Auth(s.sessionTtl, s.now, s.sessions, s.userSets, s.nextSession)
  }

  /** The sessions of a listing are read and overwritten in some order. */
  function Visited(s: State, q: Req, ids: seq<SessionId>): State {
    if |ids| == 0 then s
    else RevokeSaveStep(RevokeGetStep(Visited(s, q, ids[..|ids| - 1]), q, ids[|ids| - 1]), q, Returned)
  }

  function AllVisited(s: State, q: Req, ids: seq<SessionId>): State {
    Visited(RevokeMembersStep(s, q), q, ids)
  }

  /** The successor is stored, listed, and the listing renewed. */
  function Successors(s: State, q: Req): State {
    ExpireListStep(ListFreshStep(StoreFreshStep(s, q), q), q)
  }

  function Rotating(s: State, q: Req, save: CallResult, rollBack: CallResult): State {
    RollBackStep(SaveStep(Successors(s, q), q, save), q, rollBack)
  }

  /** All commands of one refresh, in their order; those that do not apply on its path do nothing. */
  function Alone(s: State, q: Req, id: SessionId, secretOk: bool, save: CallResult, rollBack: CallResult,
                 ids: seq<SessionId>): State
  {
    EndStep(AllVisited(Rotating(CheckStep(AcquireStep(s, q, id), q, secretOk), q, save, rollBack), q, ids), q)
  }

  ghost predicate CanStart(s: State, q: Req, id: SessionId) {
    q !in s.requests && Get(s.locks, id, s.now).None?
  }

  /** A request at rest is moved by none of the commands before its end. */
  lemma AtRest(s: State, q: Req, save: CallResult, rollBack: CallResult, ids: seq<SessionId>)
    requires q in s.requests && s.requests[q].pc == Over
    ensures AllVisited(Rotating(s, q, save, rollBack), q, ids) == s
  {
    RestVisited(s, q, ids);
  }

  lemma {:induction false} RestVisited(s: State, q: Req, ids: seq<SessionId>)
    requires q in s.requests && s.requests[q].pc == Over
    ensures Visited(s, q, ids) == s
  {
    if |ids| != 0 {
      RestVisited(s, q, ids[..|ids| - 1]);
    }
  }

  /** The request's own commands leave the others alone; once it ends, nothing is left of it but its work. */
  lemma EndShowsNothing(s: State, t: State, q: Req)
    requires q !in s.requests && OnlyMoves(s, t, q)
    ensures View(EndStep(t, q)) == View(t) && EndStep(t, q).requests == s.requests
            && EndStep(t, q).successes == t.successes
  {
    forall p ensures p in EndStep(t, q).requests <==> p in s.requests {
      assert p != q ==> (p in t.requests <==> p in s.requests);
    }
  }

  lemma RotatingMovesOne(s: State, q: Req, save: CallResult, rollBack: CallResult)
    ensures OnlyMoves(s, Rotating(s, q, save, rollBack), q)
  {
    var a := StoreFreshStep(s, q);
    var b := ListFreshStep(a, q);
    var c := ExpireListStep(b, q);
    var d := SaveStep(c, q, save);
    assert OnlyMoves(s, a, q) && OnlyMoves(a, b, q) && OnlyMoves(b, c, q) && OnlyMoves(c, d, q);
    assert OnlyMoves(d, RollBackStep(d, q, rollBack), q);
  }

  lemma {:induction false} VisitedMovesOne(s: State, q: Req, ids: seq<SessionId>)
    ensures OnlyMoves(s, Visited(s, q, ids), q)
  {
    if |ids| != 0 {
      var t := Visited(s, q, ids[..|ids| - 1]);
      VisitedMovesOne(s, q, ids[..|ids| - 1]);
      var u := RevokeGetStep(t, q, ids[|ids| - 1]);
      assert OnlyMoves(t, u, q) && OnlyMoves(u, RevokeSaveStep(u, q, Returned), q);
    }
  }

  lemma AllMoveOne(s: State, q: Req, id: SessionId, secretOk: bool, save: CallResult, rollBack: CallResult,
          ids: seq<SessionId>)
    ensures var rotated := Rotating(CheckStep(AcquireStep(s, q, id), q, secretOk), q, save, rollBack);
            OnlyMoves(s, AllVisited(rotated, q, ids), q)
  {
    var a := AcquireStep(s, q, id);
    var b := CheckStep(a, q, secretOk);
    var c := Rotating(b, q, save, rollBack);
    var d := RevokeMembersStep(c, q);
    RotatingMovesOne(b, q, save, rollBack);
    VisitedMovesOne(d, q, ids);
    assert OnlyMoves(s, a, q) && OnlyMoves(a, b, q) && OnlyMoves(b, c, q) && OnlyMoves(c, d, q);
  }

  // ---------- a rotation ----------

  lemma StoredAndListed(s: State, q: Req, v: Session)
    requires q in s.requests && s.requests[q].pc == Checked(v, s.now)
    ensures var t := ListFreshStep(StoreFreshStep(s, q), q);
            && t.sessions == A.Created(View(s), v.user).sessions && t.nextSession == s.nextSession + 1
            && Get(t.userSets, v.user, s.now) == Some(Members(s, v.user) + {s.nextSession})
            && t.userSets - {v.user} == s.userSets - {v.user}
            && t == s.(sessions := t.sessions, userSets := t.userSets, requests := t.requests,
                        nextSession := t.nextSession)
            && q in t.requests
            && t.requests[q] == Request(s.requests[q].hold, Listed(v, s.now, s.nextSession, NewSession(s, v.user)))
  {
  }

  lemma CreatedView(s: State, q: Req, v: Session)
    requires q in s.requests && s.requests[q].pc == Checked(v, s.now)
    ensures var t := Successors(s, q);
            && View(t) == A.Created(View(s), v.user) && t.successes == s.successes
            && q in t.requests
            && t.requests[q] == Request(s.requests[q].hold, Ready(v, s.now, s.nextSession, NewSession(s, v.user)))
  {
    StoredAndListed(s, q, v);
    var b := ListFreshStep(StoreFreshStep(s, q), q);
    ListingSet(b.userSets, s.userSets, v.user, Entry(Members(s, v.user) + {s.nextSession}, s.now + FreshTtl(s)));
  }

  lemma ListingSet(a: map<UserId, Entry<set<SessionId>>>, b: map<UserId, Entry<set<SessionId>>>, u: UserId,
                   e: Entry<set<SessionId>>)
    requires a - {u} == b - {u}
    ensures a[u := e] == b[u := e]
  {
    forall k | k != u ensures (k in a <==> k in b) && (k in a ==> a[k] == b[k]) {
      assert k in a - {u} <==> k in b - {u};
    }
  }

  lemma SaveView(s: State, q: Req, id: SessionId, v: Session, next: SessionId, save: CallResult, rollBack: CallResult)
    requires q in s.requests && s.requests[q].hold.Some? && s.requests[q].hold.value.session == id && id != next
    requires s.requests[q].pc.Ready? && s.requests[q].pc.prior == v && s.requests[q].pc.ts == s.now
    requires s.requests[q].pc.nextId == next && next in s.sessions && s.requests[q].pc.next == s.sessions[next].value
    ensures var t := RollBackStep(SaveStep(s, q, save), q, rollBack);
            var rotated := Entry(Rotated(v, s.now, next), s.now + TtlOf(v.expiresAt, s.now));
            var saved := if save.TookEffect() then s.sessions[id := rotated] else s.sessions;
            && t.sessions == (if save.Raised? && rollBack.TookEffect()
                              then saved[next := A.RevokedAt(View(s), s.sessions[next].value)] else saved)
            && t == s.(sessions := t.sessions, requests := t.requests, successes := t.successes)
            && q in t.requests && t.requests[q].pc == Over
            && t.successes == if save.Returned? then s.successes + [Success(id, next)] else s.successes
  {
  }

  /** The serial refresh of a usable session, in the same terms. */
  lemma SerialRotation(s: A.Auth, id: SessionId, save: CallResult, rollBack: CallResult)
    requires A.Usable(s, id) && id < s.nextSession
    ensures var v := s.sessions[id].value; var c := A.Created(s, v.user);
            var rotated := Entry(Rotated(v, s.now, s.nextSession), s.now + TtlOf(v.expiresAt, s.now));
            var saved := if save.TookEffect() then c.sessions[id := rotated] else c.sessions;
            && s.nextSession in c.sessions && c.sessions[s.nextSession].value == A.Fresh(s, v.user)
            && A.Refresh(s, id, true, save, rollBack) ==
               A.Refreshed(c.(sessions := if save.Raised? && rollBack.TookEffect()
                                          then saved[s.nextSession := A.RevokedAt(s, A.Fresh(s, v.user))] else saved),
                           if save.Returned? then A.Successor(s.nextSession) else A.Unavailable)
  {
  }

  /** c is s with the successor created; what is left is the save and its rollback. */
  lemma SaveMatches(s: State, c: State, q: Req, id: SessionId, v: Session, save: CallResult, rollBack: CallResult)
    requires id in s.sessions && s.sessions[id].value == v && A.Usable(View(s), id) && id < s.nextSession
    requires View(c) == A.Created(View(s), v.user) && c.successes == s.successes && q in c.requests
    requires c.requests[q].hold.Some? && c.requests[q].hold.value.session == id
    requires c.requests[q].pc == Ready(v, s.now, s.nextSession, NewSession(s, v.user))
    ensures var t := RollBackStep(SaveStep(c, q, save), q, rollBack);
            var r := A.Refresh(View(s), id, true, save, rollBack);
            && q in t.requests && t.requests[q].pc == Over && View(t) == r.auth
            && t.successes == if r.answer.Successor? then s.successes + [Success(id, r.answer.id)] else s.successes
  {
    SerialRotation(View(s), id, save, rollBack);
    assert A.Fresh(View(s), v.user) == NewSession(s, v.user);
    assert c.sessions == A.Created(View(s), v.user).sessions && c.now == s.now;
    SaveView(c, q, id, v, s.nextSession, save, rollBack);
  }

  lemma RotationView(s: State, q: Req, id: SessionId, v: Session, save: CallResult, rollBack: CallResult)
    requires q in s.requests && s.requests[q].hold.Some? && s.requests[q].hold.value.session == id
    requires s.requests[q].pc == Checked(v, s.now) && id < s.nextSession
    requires id in s.sessions && s.sessions[id].value == v && A.Usable(View(s), id)
    ensures var t := Rotating(s, q, save, rollBack);
            var r := A.Refresh(View(s), id, true, save, rollBack);
            && q in t.requests && t.requests[q].pc == Over && View(t) == r.auth
            && t.successes == if r.answer.Successor? then s.successes + [Success(id, r.answer.id)] else s.successes
  {
    CreatedView(s, q, v);
    SaveMatches(s, Successors(s, q), q, id, v, save, rollBack);
  }

  // ---------- a replay ----------

  function Seen(ids: seq<SessionId>): set<SessionId> {
    set x | x in ids
  }

  /** After some of the listing's sessions have been visited. */
  ghost predicate PartlyRevoked(s: State, t: State, q: Req, done: set<SessionId>) {
    && t == s.(sessions := t.sessions, requests := t.requests)
    && q in s.requests && s.requests[q].pc.Revoking? && s.requests[q].pc.ts == s.now
    && q in t.requests && t.requests[q] == s.requests[q].(pc := Revoking(s.requests[q].pc.todo - done, s.now))
    && t.sessions.Keys == s.sessions.Keys
    && forall k :: k in s.sessions ==>
         t.sessions[k] == if k in done * s.requests[q].pc.todo && Get(s.sessions, k, s.now).Some?
                          then A.RevokedAt(View(s), s.sessions[k].value) else s.sessions[k]
  }

  /** What the two commands of one visit write. */
  lemma VisitWrites(t: State, q: Req, id: SessionId)
    requires q in t.requests && t.requests[q].pc.Revoking? && t.requests[q].pc.ts == t.now
    ensures var u := RevokeSaveStep(RevokeGetStep(t, q, id), q, Returned);
            var todo := t.requests[q].pc.todo;
            && u == t.(sessions := u.sessions, requests := u.requests) && q in u.requests
            && u.requests[q] == t.requests[q].(pc := Revoking(todo - {id}, t.now))
            && u.sessions == if id in todo && Get(t.sessions, id, t.now).Some?
                             then t.sessions[id := A.RevokedAt(View(t), t.sessions[id].value)] else t.sessions
  {
    assert id !in t.requests[q].pc.todo ==> t.requests[q].pc.todo - {id} == t.requests[q].pc.todo;
  }

  lemma VisitOne(s: State, t: State, q: Req, done: set<SessionId>, id: SessionId)
    requires PartlyRevoked(s, t, q, done)
    ensures PartlyRevoked(s, RevokeSaveStep(RevokeGetStep(t, q, id), q, Returned), q, done + {id})
  {
    VisitWrites(t, q, id);
    assert s.requests[q].pc.todo - done - {id} == s.requests[q].pc.todo - (done + {id});
  }

  lemma {:induction false} VisitAll(s: State, q: Req, ids: seq<SessionId>)
    requires q in s.requests && s.requests[q].pc.Revoking? && s.requests[q].pc.ts == s.now
    ensures PartlyRevoked(s, Visited(s, q, ids), q, Seen(ids))
  {
    if |ids| == 0 {
      assert s.requests[q].pc.todo - {} == s.requests[q].pc.todo;
    } else {
      var n := |ids| - 1;
      VisitAll(s, q, ids[..n]);
      VisitOne(s, Visited(s, q, ids[..n]), q, Seen(ids[..n]), ids[n]);
      assert ids == ids[..n] + [ids[n]];
      assert Seen(ids) == Seen(ids[..n]) + {ids[n]};
    }
  }

  lemma ReplayView(s: State, q: Req, u: UserId, ids: seq<SessionId>)
    requires q in s.requests && s.requests[q].pc == RevokeStart(u, s.now)
    requires forall x :: x in ids <==> x in Members(s, u)
    ensures var t := AllVisited(s, q, ids); View(t) == A.AllRevoked(View(s), u) && t.successes == s.successes
  {
    var m := RevokeMembersStep(s, q);
    VisitAll(m, q, ids);
    assert Seen(ids) == Members(s, u) == A.Listing(View(s), u);
    assert AllVisited(s, q, ids).sessions == A.AllRevoked(View(s), u).sessions;
  }

  // ---------- the whole request ----------

  /** Where the check sends a request. */
  function Verdict(s: State, id: SessionId, secretOk: bool): Pc {
    match Get(s.sessions, id, s.now)
    case None => Over
    case Some(v) =>
      if !secretOk then Over
      else if Revoked(v) || v.expiresAt <= s.now then RevokeStart(v.user, s.now)
      else Checked(v, s.now)
  }

  lemma ChecksAlone(s: State, q: Req, id: SessionId, secretOk: bool)
    requires CanStart(s, q, id)
    ensures var c := CheckStep(AcquireStep(s, q, id), q, secretOk);
            && View(c) == View(s) && c.successes == s.successes && q in c.requests
            && c.requests[q].hold.Some? && c.requests[q].hold.value.session == id
            && c.requests[q].pc == Verdict(s, id, secretOk)
  {
  }

  lemma RefusedView(s: State, q: Req, u: UserId, save: CallResult, rollBack: CallResult, ids: seq<SessionId>)
    requires q in s.requests && s.requests[q].pc == RevokeStart(u, s.now)
    requires forall x :: x in ids <==> x in Members(s, u)
    ensures var t := AllVisited(Rotating(s, q, save, rollBack), q, ids);
            View(t) == A.AllRevoked(View(s), u) && t.successes == s.successes
  {
    assert Rotating(s, q, save, rollBack) == s;
    ReplayView(s, q, u, ids);
  }

  lemma RotatedView(s: State, q: Req, id: SessionId, v: Session, save: CallResult, rollBack: CallResult,
          ids: seq<SessionId>)
    requires q in s.requests && s.requests[q].hold.Some? && s.requests[q].hold.value.session == id
    requires s.requests[q].pc == Checked(v, s.now) && id < s.nextSession
    requires id in s.sessions && s.sessions[id].value == v && A.Usable(View(s), id)
    ensures var t := AllVisited(Rotating(s, q, save, rollBack), q, ids);
            var r := A.Refresh(View(s), id, true, save, rollBack);
            && View(t) == r.auth
            && t.successes == if r.answer.Successor? then s.successes + [Success(id, r.answer.id)] else s.successes
  {
    RotationView(s, q, id, v, save, rollBack);
    RestVisited(Rotating(s, q, save, rollBack), q, ids);
  }

  /**
   A refresh whose commands nobody interrupts does to the sessions what the serial refresh does, hands
   out exactly the successor that one answers with, and is over afterwards. ids is the order in which a
   replay visits the user's sessions.
   */
  lemma RefreshAlone(s: State, q: Req, id: SessionId, secretOk: bool, save: CallResult, rollBack: CallResult,
                     ids: seq<SessionId>)
    requires CanStart(s, q, id) && forall k :: k in s.sessions ==> k < s.nextSession
    requires id in s.sessions ==> forall x :: x in ids <==> x in Members(s, s.sessions[id].value.user)
    ensures var t := Alone(s, q, id, secretOk, save, rollBack, ids);
            var r := A.Refresh(View(s), id, secretOk, save, rollBack);
            && View(t) == r.auth && t.requests == s.requests
            && t.successes == if r.answer.Successor? then s.successes + [Success(id, r.answer.id)] else s.successes
  {
    ChecksAlone(s, q, id, secretOk);
    var c := CheckStep(AcquireStep(s, q, id), q, secretOk);
    WorksAlone(s, c, q, id, secretOk, save, rollBack, ids);
    AllMoveOne(s, q, id, secretOk, save, rollBack, ids);
    EndShowsNothing(s, AllVisited(Rotating(c, q, save, rollBack), q, ids), q);
  }

  /** c is s once the request has checked the session it was given. */
  lemma WorksAlone(s: State, c: State, q: Req, id: SessionId, secretOk: bool, save: CallResult, rollBack: CallResult,
                   ids: seq<SessionId>)
    requires forall k :: k in s.sessions ==> k < s.nextSession
    requires id in s.sessions ==> forall x :: x in ids <==> x in Members(s, s.sessions[id].value.user)
    requires View(c) == View(s) && c.successes == s.successes && q in c.requests
    requires c.requests[q].hold.Some? && c.requests[q].hold.value.session == id
    requires c.requests[q].pc == Verdict(s, id, secretOk)
    ensures var t := AllVisited(Rotating(c, q, save, rollBack), q, ids);
            var r := A.Refresh(View(s), id, secretOk, save, rollBack);
            && View(t) == r.auth
            && t.successes == if r.answer.Successor? then s.successes + [Success(id, r.answer.id)] else s.successes
  {
    match c.requests[q].pc {
      case RevokeStart(u, ts) => RefusedView(c, q, u, save, rollBack, ids);
      case Checked(v, ts) => RotatedView(c, q, id, v, save, rollBack, ids);
      case _ => AtRest(c, q, save, rollBack, ids);
    }
  }

  // ---------- the other requests ----------

  /** A login is one step already. */
  lemma LoginAlone(s: State, u: UserId)
    ensures View(LoginStep(s, u)) == A.Created(View(s), u)
    ensures LoginStep(s, u).requests == s.requests && LoginStep(s, u).successes == s.successes
  {
  }

  /** A logout whose commands nobody interrupts is the serial one. */
  lemma LogoutAlone(s: State, q: Req, id: SessionId, secretOk: bool)
    requires q !in s.requests
    ensures var t := EndStep(LogoutSaveStep(LogoutGetStep(s, q, id, secretOk), q, Returned), q);
            View(t) == A.Logout(View(s), id, secretOk) && t.requests == s.requests && t.successes == s.successes
  {
    var a := LogoutGetStep(s, q, id, secretOk);
    var b := LogoutSaveStep(a, q, Returned);
    assert OnlyMoves(s, a, q) && OnlyMoves(a, b, q);
    EndShowsNothing(s, b, q);
  }

  /** So is a revocation of all sessions, in whatever order it visits them. */
  lemma RevokeAllAlone(s: State, q: Req, u: UserId, ids: seq<SessionId>)
    requires q !in s.requests && forall x :: x in ids <==> x in Members(s, u)
    ensures var t := EndStep(AllVisited(RevokeAllStep(s, q, u), q, ids), q);
            View(t) == A.AllRevoked(View(s), u) && t.requests == s.requests && t.successes == s.successes
  {
    var a := RevokeAllStep(s, q, u);
    var d := RevokeMembersStep(a, q);
    assert Members(a, u) == Members(s, u);
    ReplayView(a, q, u, ids);
    VisitedMovesOne(d, q, ids);
    assert OnlyMoves(s, a, q) && OnlyMoves(a, d, q);
    EndShowsNothing(s, AllVisited(a, q, ids), q);
  }
}
