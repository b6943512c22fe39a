/**
 Reactions to a message: a list of emojis, each with the users who chose it. The list is meant to
 hold a map from users to emojis; an update takes the actor's old choice out and may put a new one in.
 */
module Reactions {
  import opened Wrappers
  import M = ChatModel

  type Emoji = string

  datatype Reaction = Reaction(emoji: Emoji, users: seq<M.UserId>)

  // ---------- the update ----------

  /** The list without u: groups left empty are dropped. */
  function Stripped(rs: seq<Reaction>, u: M.UserId): seq<Reaction> {
    if |rs| == 0 then []
    else
      var users := M.Without(rs[|rs| - 1].users, u);
      Stripped(rs[..|rs| - 1], u) + (if |users| > 0 then [Reaction(rs[|rs| - 1].emoji, users)] else [])
  }

  predicate Chose(rs: seq<Reaction>, e: Emoji, u: M.UserId) {
    exists i: nat :: i < |rs| && rs[i].emoji == e && u in rs[i].users
  }

  /** The position of the first group of e, or |rs|. */
  function GroupAt(rs: seq<Reaction>, e: Emoji): (i: nat)
    ensures i <= |rs|
    ensures i < |rs| ==> rs[i].emoji == e
    ensures forall j :: 0 <= j < i ==> rs[j].emoji != e
  {
    if |rs| == 0 then 0
    else
      var i := GroupAt(rs[..|rs| - 1], e);
      if i < |rs| - 1 || rs[|rs| - 1].emoji == e then i else i + 1
  }

  function Added(rs: seq<Reaction>, e: Emoji, u: M.UserId): seq<Reaction> {
    var i := GroupAt(rs, e);
    if i == |rs| then rs + [Reaction(e, [u])] else rs[i := Reaction(e, rs[i].users + [u])]
  }

  function Updated(rs: seq<Reaction>, e: Emoji, u: M.UserId): seq<Reaction> {
    if Chose(rs, e, u) then Stripped(rs, u) else Added(Stripped(rs, u), e, u)
  }

  /** The loop of the service: one pass that takes the actor out and notices whether e was their choice. */
  method UpdateReactions(rs: seq<Reaction>, e: Emoji, u: M.UserId) returns (next: seq<Reaction>)
    ensures next == Updated(rs, e, u)
  {
    next := [];
    var removedSame := false;
    for k := 0 to |rs|
      invariant next == Stripped(rs[..k], u)
      invariant removedSame == Chose(rs[..k], e, u)
    {
      var users := M.Without(rs[k].users, u);
      M.WithoutShorter(rs[k].users, u);
      ChoseNext(rs, k, e, u);
      assert rs[..k + 1][..k] == rs[..k];
      if rs[k].emoji == e {
        if |users| != |rs[k].users| {
          removedSame := true;
        }
        if |users| > 0 {
          next := next + [Reaction(rs[k].emoji, users)];
        }
        continue;
      }
      if |users| > 0 {
        next := next + [Reaction(rs[k].emoji, users)];
      }
    }
    assert rs[..|rs|] == rs;
    if !removedSame {
      var t := 0;
      while t < |next| && next[t].emoji != e
        invariant t <= |next| && forall j :: 0 <= j < t ==> next[j].emoji != e
      {
        t := t + 1;
      }
      assert t == GroupAt(next, e);
      if t == |next| {
        next := next + [Reaction(e, [u])];
      } else {
        next := next[t := next[t].(users := next[t].users + [u])];
      }
    }
  }

  lemma ChoseNext(rs: seq<Reaction>, k: nat, e: Emoji, u: M.UserId)
    requires k < |rs|
    ensures Chose(rs[..k + 1], e, u) <==> Chose(rs[..k], e, u) || (rs[k].emoji == e && u in rs[k].users)
  {
    assert rs[..k + 1] == rs[..k] + [rs[k]];
    if Chose(rs[..k], e, u) {
      var i: nat :| i < k && rs[..k][i].emoji == e && u in rs[..k][i].users;
      assert rs[..k + 1][i] == rs[..k][i];
    }
    if rs[k].emoji == e && u in rs[k].users {
      assert rs[..k + 1][k] == rs[k];
    }
  }

  // ---------- what other users see ----------

  /** Everybody else's choices, in the order in which they are shown. */
  function Others(rs: seq<Reaction>, u: M.UserId): seq<(Emoji, M.UserId)> {
    if |rs| == 0 then [] else Others(rs[..|rs| - 1], u) + Tagged(rs[|rs| - 1].emoji, M.Without(rs[|rs| - 1].users, u))
  }

  function Tagged(e: Emoji, users: seq<M.UserId>): (ps: seq<(Emoji, M.UserId)>)
    ensures |ps| == |users| && forall i :: 0 <= i < |users| ==> ps[i] == (e, users[i])
  {
    seq(|users|, i requires 0 <= i < |users| => (e, users[i]))
  }

  lemma OthersSnoc(rs: seq<Reaction>, r: Reaction, u: M.UserId)
    ensures Others(rs + [r], u) == Others(rs, u) + Tagged(r.emoji, M.Without(r.users, u))
  {
    assert (rs + [r])[..|rs|] == rs;
  }

  lemma {:induction false} StrippedKeepsOthers(rs: seq<Reaction>, u: M.UserId)
    ensures Others(Stripped(rs, u), u) == Others(rs, u)
  {
    if |rs| == 0 {
    } else {
      var r := rs[|rs| - 1];
      var front := rs[..|rs| - 1];
      var users := M.Without(r.users, u);
      StrippedKeepsOthers(front, u);
      M.WithoutTwice(r.users, u);
      if |users| > 0 {
        OthersSnoc(Stripped(front, u), Reaction(r.emoji, users), u);
      } else {
        assert Tagged(r.emoji, users) == [];
        assert Stripped(rs, u) == Stripped(front, u);
      }
    }
  }

  /** Replacing a group by one with the same others leaves the others as they are. */
  lemma {:induction false} ReplacedKeepsOthers(rs: seq<Reaction>, i: nat, r: Reaction, u: M.UserId)
    requires i < |rs| && r.emoji == rs[i].emoji && M.Without(r.users, u) == M.Without(rs[i].users, u)
    ensures Others(rs[i := r], u) == Others(rs, u)
  {
    var n := |rs| - 1;
    if i == n {
      assert rs[i := r][..n] == rs[..n];
    } else {
      assert rs[i := r][..n] == rs[..n][i := r];
      ReplacedKeepsOthers(rs[..n], i, r, u);
    }
  }

  /** Whatever list an update meets, everybody else's choices stay, in the same order. */
  lemma UpdateKeepsOthers(rs: seq<Reaction>, e: Emoji, u: M.UserId)
    ensures Others(Updated(rs, e, u), u) == Others(rs, u)
  {
    var s := Stripped(rs, u);
    StrippedKeepsOthers(rs, u);
    var i := GroupAt(s, e);
    if i == |s| {
      OthersSnoc(s, Reaction(e, [u]), u);
      assert M.Without([u], u) == [] by { M.WithoutAppended([], u); assert [] + [u] == [u]; }
    } else {
      M.WithoutAppended(s[i].users, u);
      ReplacedKeepsOthers(s, i, Reaction(e, s[i].users + [u]), u);
    }
  }

  /** A new choice comes last: at the end of its emoji's group, which if new is the last of the list. */
  lemma NewChoiceComesLast(rs: seq<Reaction>, e: Emoji, u: M.UserId)
    requires !Chose(rs, e, u)
    ensures var t := Updated(rs, e, u); var s := Stripped(rs, u); var i := GroupAt(t, e);
            && i < |t| && |t[i].users| >= 1 && t[i].users[|t[i].users| - 1] == u
            && (if HasGroup(s, e) then i < |s| && t == s[i := Reaction(e, s[i].users + [u])]
                else t == s + [Reaction(e, [u])])
  {
    var s, t := Stripped(rs, u), Updated(rs, e, u);
    var i := GroupAt(s, e);
    assert t[i].emoji == e && forall j :: 0 <= j < i ==> t[j].emoji != e;
    assert GroupAt(t, e) == i;
  }

  // ---------- a map from users to emojis ----------

  ghost predicate ListOk(rs: seq<Reaction>) {
    && (forall i, j :: 0 <= i < j < |rs| ==> rs[i].emoji != rs[j].emoji)
    && (forall i :: 0 <= i < |rs| ==> |rs[i].users| > 0 && NoDup(rs[i].users))
    && (forall i, j, u :: 0 <= i < j < |rs| && u in rs[i].users ==> u !in rs[j].users)
  }

  /** The emoji u has chosen. */
  function Choice(rs: seq<Reaction>, u: M.UserId): (o: Option<Emoji>)
    ensures o.Some? ==> Chose(rs, o.value, u)
    ensures o.None? ==> forall i :: 0 <= i < |rs| ==> u !in rs[i].users
  {
    if |rs| == 0 then None
    else
      var o := Choice(rs[..|rs| - 1], u);
      if o.Some? then
        var i: nat :| i < |rs| - 1 && rs[..|rs| - 1][i].emoji == o.value && u in rs[..|rs| - 1][i].users;
        assert rs[i].emoji == o.value;
        o
      else if u in rs[|rs| - 1].users then
        Some(rs[|rs| - 1].emoji)
      else None
  }

  /** In a proper list, a user has chosen one emoji at most. */
  lemma ChoiceIs(rs: seq<Reaction>, e: Emoji, u: M.UserId)
    requires ListOk(rs)
    ensures Chose(rs, e, u) <==> Choice(rs, u) == Some(e)
  {
    if Chose(rs, e, u) {
      var i: nat :| i < |rs| && rs[i].emoji == e && u in rs[i].users;
      var o := Choice(rs, u);
      var j: nat :| j < |rs| && rs[j].emoji == o.value && u in rs[j].users;
    }
  }

  predicate HasGroup(rs: seq<Reaction>, e: Emoji) {
    exists i: nat :: i < |rs| && rs[i].emoji == e
  }

  lemma {:induction false} StrippedChoices(rs: seq<Reaction>, u: M.UserId, e: Emoji, v: M.UserId)
    ensures Chose(Stripped(rs, u), e, v) <==> v != u && Chose(rs, e, v)
    ensures HasGroup(Stripped(rs, u), e) ==> HasGroup(rs, e)
  {
    if |rs| == 0 {
    } else {
      var n := |rs| - 1;
      var front := rs[..n];
      var users := M.Without(rs[n].users, u);
      StrippedChoices(front, u, e, v);
      assert rs[..n + 1] == rs;
      ChoseNext(rs, n, e, v);
      var s := Stripped(front, u);
      var t := Stripped(rs, u);
      if i: nat :| i < |front| && front[i].emoji == e {
        assert rs[i].emoji == e;
      }
      if |users| > 0 {
        assert t[..|s| + 1] == t && t[..|s|] == s;
        ChoseNext(t, |s|, e, v);
        if i: nat :| i < |t| && t[i].emoji == e {
          assert i < |s| ==> s[i].emoji == e;
        }
      } else {
        assert t == s;
        assert v != u && v in rs[n].users ==> v in users;
      }
    }
  }

  lemma LastIsApart(rs: seq<Reaction>)
    requires ListOk(rs) && |rs| > 0
    ensures var front, last := rs[..|rs| - 1], rs[|rs| - 1];
            !HasGroup(front, last.emoji) && forall e, v :: v in last.users ==> !Chose(front, e, v)
  {
    var front := rs[..|rs| - 1];
    forall i: nat | i < |front| ensures front[i].emoji != rs[|rs| - 1].emoji && front[i] == rs[i] {}
  }

  lemma {:induction false} StrippedIs(rs: seq<Reaction>, u: M.UserId)
    requires ListOk(rs)
    ensures ListOk(Stripped(rs, u))
  {
    if |rs| == 0 {
    } else {
      var front := rs[..|rs| - 1];
      var r := rs[|rs| - 1];
      var users := M.Without(r.users, u);
      StrippedIs(front, u);
      if |users| > 0 {
        forall e, v | Chose(Stripped(front, u), e, v) ensures Chose(front, e, v) {
          StrippedChoices(front, u, e, v);
        }
        StrippedChoices(front, u, r.emoji, u);
        LastIsApart(rs);
        StrippedSnocOk(front, Stripped(front, u), Reaction(r.emoji, users));
      }
    }
  }

  lemma StrippedSnocOk(front: seq<Reaction>, s: seq<Reaction>, r: Reaction)
    requires ListOk(s) && |r.users| > 0 && NoDup(r.users) && !HasGroup(s, r.emoji)
    requires forall e, v :: Chose(s, e, v) ==> Chose(front, e, v)
    requires forall e, v :: v in r.users ==> !Chose(front, e, v)
    ensures ListOk(s + [r])
  {
    forall i, v | 0 <= i < |s| && v in s[i].users ensures v !in r.users {
      assert Chose(s, s[i].emoji, v);
    }
  }

  lemma AddedIs(rs: seq<Reaction>, e: Emoji, u: M.UserId)
    requires ListOk(rs) && forall g :: !Chose(rs, g, u)
    ensures ListOk(Added(rs, e, u))
    ensures forall g, v :: Chose(Added(rs, e, u), g, v) <==> Chose(rs, g, v) || (g == e && v == u)
  {
    var i := GroupAt(rs, e);
    var t := Added(rs, e, u);
    forall j | 0 <= j < |rs| ensures u !in rs[j].users {
      assert !Chose(rs, rs[j].emoji, u);
    }
    assert t[i].emoji == e && u in t[i].users by { assert [u][0] == u; }
    assert forall j: nat :: j < |t| && j != i ==> j < |rs| && t[j] == rs[j];
    assert forall v :: v in t[i].users <==> v == u || (i < |rs| && v in rs[i].users);
    forall g, v ensures Chose(t, g, v) <==> Chose(rs, g, v) || (g == e && v == u) {
      if Chose(rs, g, v) {
        var j: nat :| j < |rs| && rs[j].emoji == g && v in rs[j].users;
        assert t[j].emoji == g && v in t[j].users;
      }
    }
  }

  /** An update keeps the list proper; it changes the actor's choice alone: off if it was e already, else to e. */
  lemma UpdateTogglesOrMoves(rs: seq<Reaction>, e: Emoji, u: M.UserId)
    requires ListOk(rs)
    ensures ListOk(Updated(rs, e, u))
    ensures Choice(Updated(rs, e, u), u) == if Choice(rs, u) == Some(e) then None else Some(e)
    ensures forall v :: v != u ==> Choice(Updated(rs, e, u), v) == Choice(rs, v)
  {
    StrippedIs(rs, u);
    forall g, v ensures Chose(Stripped(rs, u), g, v) <==> v != u && Chose(rs, g, v) {
      StrippedChoices(rs, u, g, v);
    }
    ChoiceIs(rs, e, u);
    var t := Updated(rs, e, u);
    if !Chose(rs, e, u) {
      AddedIs(Stripped(rs, u), e, u);
      ChoiceIs(t, e, u);
    }
    forall v | v != u ensures Choice(t, v) == Choice(rs, v) {
      SameChoice(rs, t, v);
    }
  }

  lemma SameChoice(rs: seq<Reaction>, t: seq<Reaction>, v: M.UserId)
    requires ListOk(rs) && ListOk(t) && forall e :: Chose(t, e, v) <==> Chose(rs, e, v)
    ensures Choice(t, v) == Choice(rs, v)
  {
    var a, b := Choice(rs, v), Choice(t, v);
    if a.Some? {
      ChoiceIs(t, a.value, v);
    } else if b.Some? {
      ChoiceIs(rs, b.value, v);
    }
  }

  // ---------- runs ----------

  datatype Update = Update(emoji: Emoji, user: M.UserId)

  function Run(us: seq<Update>): seq<Reaction> {
    if |us| == 0 then [] else Updated(Run(us[..|us| - 1]), us[|us| - 1].emoji, us[|us| - 1].user)
  }

  /** What the list stands for. */
  function Choices(us: seq<Update>): map<M.UserId, Emoji> {
    if |us| == 0 then map[]
    else
      var m := Choices(us[..|us| - 1]);
      var (e, u) := (us[|us| - 1].emoji, us[|us| - 1].user);
      if u in m && m[u] == e then m - {u} else m[u := e]
  }

  lemma {:induction false} ListRefinesMap(us: seq<Update>, v: M.UserId)
    ensures ListOk(Run(us))
    ensures Choice(Run(us), v) == if v in Choices(us) then Some(Choices(us)[v]) else None
  {
    if |us| == 0 {
    } else {
      var front := us[..|us| - 1];
      ListRefinesMap(front, v);
      ListRefinesMap(front, us[|us| - 1].user);
      UpdateTogglesOrMoves(Run(front), us[|us| - 1].emoji, us[|us| - 1].user);
    }
  }

  // ---------- there and back ----------

  lemma {:induction false} NothingToStrip(rs: seq<Reaction>, u: M.UserId)
    requires forall i :: 0 <= i < |rs| ==> u !in rs[i].users && |rs[i].users| > 0
    ensures Stripped(rs, u) == rs
  {
    if |rs| == 0 {
    } else {
      NothingToStrip(rs[..|rs| - 1], u);
      M.WithoutShorter(rs[|rs| - 1].users, u);
      assert rs == rs[..|rs| - 1] + [rs[|rs| - 1]];
    }
  }

  lemma {:induction false} StripAdded(rs: seq<Reaction>, i: nat, r: Reaction, u: M.UserId)
    requires i < |rs| && M.Without(r.users, u) == rs[i].users && r.emoji == rs[i].emoji
    requires forall j :: 0 <= j < |rs| ==> u !in rs[j].users && |rs[j].users| > 0
    ensures Stripped(rs[i := r], u) == rs
  {
    var n := |rs| - 1;
    assert rs == rs[..n] + [rs[n]];
    if i == n {
      assert rs[i := r][..n] == rs[..n];
      NothingToStrip(rs[..n], u);
    } else {
      assert rs[i := r][..n] == rs[..n][i := r];
      StripAdded(rs[..n], i, r, u);
      M.WithoutShorter(rs[n].users, u);
    }
  }

  lemma StripAppended(rs: seq<Reaction>, e: Emoji, u: M.UserId)
    requires forall i :: 0 <= i < |rs| ==> u !in rs[i].users && |rs[i].users| > 0
    ensures Stripped(rs + [Reaction(e, [u])], u) == rs
  {
    var t := rs + [Reaction(e, [u])];
    assert t[..|rs|] == rs;
    NothingToStrip(rs, u);
    M.WithoutAppended([], u);
    assert [] + [u] == [u];
  }

  lemma AddedThenStripped(rs: seq<Reaction>, e: Emoji, u: M.UserId)
    requires forall i :: 0 <= i < |rs| ==> u !in rs[i].users && |rs[i].users| > 0
    ensures Stripped(Added(rs, e, u), u) == rs
  {
    var i := GroupAt(rs, e);
    if i == |rs| {
      StripAppended(rs, e, u);
    } else {
      M.WithoutAppended(rs[i].users, u);
      M.WithoutShorter(rs[i].users, u);
      StripAdded(rs, i, Reaction(e, rs[i].users + [u]), u);
    }
  }

  /** Reacting and taking the reaction back leaves the list as it was, group for group. */
  lemma ReactThenUndo(rs: seq<Reaction>, e: Emoji, u: M.UserId)
    requires ListOk(rs) && Choice(rs, u).None?
    ensures Updated(Updated(rs, e, u), e, u) == rs
  {
    NothingToStrip(rs, u);
    AddedThenStripped(rs, e, u);
    UpdateTogglesOrMoves(rs, e, u);
    ChoiceIs(Updated(rs, e, u), e, u);
    ChoiceIs(rs, e, u);
  }
}
