/**
 The fixed-window rate limiter: a script counts the requests of a key, and lets the count expire a
 window after the request that found none. Every request is counted, whether or not it is let through.
 */
module RateLimit {
  import opened Wrappers
  import opened KeyStore

  type Key = string
  type Counters = map<Key, Entry<int>>

  function CountOf(s: Counters, k: Key, now: int): int {
    match Get(s, k, now)
    case Some(n) => n
    case None => 0
  }

  /** The increment script; a count of 1 starts a new window. */
  function Increment(s: Counters, k: Key, now: int, window: int): Counters {
    var current := CountOf(s, k, now) + 1;
    s[k := Entry(current, if current == 1 then now + window else s[k].deadline)]
  }

  predicate Accepted(s: Counters, k: Key, limit: int, now: int) {
    CountOf(s, k, now) + 1 <= limit
  }

  class DragonflyService {
    var counters: Counters

    constructor ()
      ensures counters == map[]
    {
      counters := map[];
    }

    method IncrWithWindow(k: Key, now: int, window: int) returns (current: int)
      modifies this`counters
      ensures counters == Increment(old(counters), k, now, window)
      ensures current == CountOf(old(counters), k, now) + 1
    {
      if k in counters && now < counters[k].deadline {
        current := counters[k].value + 1;
        counters := counters[k := counters[k].(value := current)];
      } else {
        current := 1;
        counters := counters[k := Entry(1, now + window)];
      }
      if current == 1 {
        counters := counters[k := counters[k].(deadline := now + window)];
      }
    }

    method EnforceRateLimit(k: Key, limit: int, now: int, window: int) returns (ok: bool)
      modifies this`counters
      ensures counters == Increment(old(counters), k, now, window)
      ensures ok == Accepted(old(counters), k, limit, now)
    {
      var current := IncrWithWindow(k, now, window);
      ok := current <= limit;
    }
  }

  // ---------- the requests of many keys ----------

  datatype Request = Request(key: Key, at: int)

  function Served(rs: seq<Request>, window: int): Counters {
    if |rs| == 0 then map[]
    else Increment(Served(rs[..|rs| - 1], window), rs[|rs| - 1].key, rs[|rs| - 1].at, window)
  }

  function TimesOf(rs: seq<Request>, k: Key): seq<int> {
    if |rs| == 0 then []
    else TimesOf(rs[..|rs| - 1], k) + (if rs[|rs| - 1].key == k then [rs[|rs| - 1].at] else [])
  }

  function ServedOne(k: Key, times: seq<int>, window: int): Counters {
    if |times| == 0 then map[]
    else Increment(ServedOne(k, times[..|times| - 1], window), k, times[|times| - 1], window)
  }

  /** A key is counted as if it were the only one. */
  lemma {:induction false} KeysAreIndependent(rs: seq<Request>, k: Key, window: int)
    ensures k in Served(rs, window) <==> k in ServedOne(k, TimesOf(rs, k), window)
    ensures k in Served(rs, window) ==> Served(rs, window)[k] == ServedOne(k, TimesOf(rs, k), window)[k]
  {
    if |rs| == 0 {
    } else {
      var front := rs[..|rs| - 1];
      KeysAreIndependent(front, k, window);
      if rs[|rs| - 1].key == k {
        assert TimesOf(rs, k)[..|TimesOf(front, k)|] == TimesOf(front, k);
      } else {
        assert TimesOf(rs, k) == TimesOf(front, k);
      }
    }
  }

  // ---------- the windows of one key ----------

  /** Whether request i of the key is let through. */
  predicate Passes(k: Key, times: seq<int>, window: int, limit: int, i: nat)
    requires i < |times|
  {
    Accepted(ServedOne(k, times[..i], window), k, limit, times[i])
  }

  /** The request that opened the window request i falls into. */
  function Opener(times: seq<int>, window: int, i: nat): (s: nat)
    requires i < |times|
    ensures s <= i
  {
    if i == 0 then 0
    else
      var s := Opener(times, window, i - 1);
      if times[i] < times[s] + window then s else i
  }

  lemma {:induction false} CountFromOpener(k: Key, times: seq<int>, window: int, i: nat)
    requires i < |times|
    ensures var s := Opener(times, window, i);
            var after := ServedOne(k, times[..i + 1], window);
            k in after && after[k] == Entry(i - s + 1, times[s] + window)
    ensures CountOf(ServedOne(k, times[..i], window), k, times[i]) == i - Opener(times, window, i)
  {
    assert times[..i + 1][..i] == times[..i];
    if i == 0 {
    } else {
      CountFromOpener(k, times, window, i - 1);
      assert times[..i - 1 + 1] == times[..i];
    }
  }

  function Passed(k: Key, times: seq<int>, window: int, limit: int, lo: nat, hi: nat): nat
    requires lo <= hi <= |times|
  {
    if lo == hi then 0
    else Passed(k, times, window, limit, lo, hi - 1) + (if Passes(k, times, window, limit, hi - 1) then 1 else 0)
  }

  ghost predicate SameWindow(times: seq<int>, window: int, s: nat, lo: nat, hi: nat) {
    lo <= hi <= |times| && forall i :: lo <= i < hi ==> Opener(times, window, i) == s
  }

  /** Of the requests of one window, the first limit ones pass. */
  lemma {:induction false} PassedInWindow(k: Key, times: seq<int>, window: int, limit: int, s: nat, lo: nat, hi: nat)
    requires SameWindow(times, window, s, lo, hi) && s <= lo
    ensures Passed(k, times, window, limit, lo, hi) ==
            if s + limit <= lo then 0 else if s + limit >= hi then hi - lo else s + limit - lo
    decreases hi
  {
    if lo < hi {
      PassedInWindow(k, times, window, limit, s, lo, hi - 1);
      CountFromOpener(k, times, window, hi - 1);
    }
  }

  /** A window lets through exactly as many of its requests as the limit allows. */
  lemma WindowLetsThrough(k: Key, times: seq<int>, window: int, limit: int, s: nat, e: nat)
    requires SameWindow(times, window, s, s, e)
    ensures Passed(k, times, window, limit, s, e) ==
            if limit <= 0 then 0 else if e - s <= limit then e - s else limit
  {
    PassedInWindow(k, times, window, limit, s, s, e);
  }

  // ---------- any interval of a window's length ----------

  ghost predicate Ordered(times: seq<int>) {
    forall i, j :: 0 <= i <= j < |times| ==> times[i] <= times[j]
  }

  lemma {:induction false} PassedSplits(k: Key, times: seq<int>, window: int, limit: int, lo: nat, m: nat, hi: nat)
    requires lo <= m <= hi <= |times|
    ensures Passed(k, times, window, limit, lo, hi) ==
            Passed(k, times, window, limit, lo, m) + Passed(k, times, window, limit, m, hi)
    decreases hi
  {
    if m < hi {
      PassedSplits(k, times, window, limit, lo, m, hi - 1);
    }
  }

  /** The first request after lo that opens a window, or hi. */
  function NextOpener(times: seq<int>, window: int, lo: nat, hi: nat): (m: nat)
    requires lo < hi <= |times|
    ensures lo < m <= hi
    ensures m < hi ==> Opener(times, window, m) == m
    ensures forall i :: lo <= i < m ==> Opener(times, window, i) == Opener(times, window, lo)
    decreases hi - lo
  {
    if lo + 1 == hi then hi
    else if Opener(times, window, lo + 1) == lo + 1 then lo + 1
    else NextOpener(times, window, lo + 1, hi)
  }

  lemma {:induction false} NoOtherOpener(times: seq<int>, window: int, m: nat, i: nat)
    requires Ordered(times) && m <= i < |times| && Opener(times, window, m) == m && times[i] < times[m] + window
    ensures Opener(times, window, i) == m
    decreases i
  {
    if m < i {
      NoOtherOpener(times, window, m, i - 1);
    }
  }

  /** In any half-open interval of a window's length, fewer than twice the limit pass. */
  lemma IntervalBound(k: Key, times: seq<int>, window: int, limit: nat, a: int, lo: nat, hi: nat)
    requires Ordered(times) && lo <= hi <= |times| && forall i :: lo <= i < hi ==> a <= times[i] < a + window
    ensures Passed(k, times, window, limit, lo, hi) <= if limit == 0 then 0 else 2 * limit - 1
  {
    if lo < hi {
      var s := Opener(times, window, lo);
      var m := NextOpener(times, window, lo, hi);
      PassedSplits(k, times, window, limit, lo, m, hi);
      PassedInWindow(k, times, window, limit, s, lo, m);
      if m < hi {
        OpenedAfter(times, window, m);
        forall i | m <= i < hi ensures Opener(times, window, i) == m {
          NoOtherOpener(times, window, m, i);
        }
        PassedInWindow(k, times, window, limit, m, m, hi);
      }
    }
  }

  /** A window opens only when the one before it is over. */
  lemma OpenedAfter(times: seq<int>, window: int, m: nat)
    requires 0 < m < |times| && Opener(times, window, m) == m
    ensures times[m] >= times[Opener(times, window, m - 1)] + window
  {
  }

  /** One early request, the rest of its window at the end of it, and as many again right after. */
  function Burst(window: int, limit: nat): (times: seq<int>)
    requires limit >= 1
    ensures |times| == 2 * limit
    ensures forall i :: 0 <= i < 2 * limit ==>
              times[i] == if i == 0 then 0 else if i < limit then window - 1 else window
  {
    seq(2 * limit, i => if i == 0 then 0 else if i < limit then window - 1 else window)
  }

  /** The bound is reached, for every limit and every window longer than one tick. */
  lemma IntervalBoundReached(k: Key, window: int, limit: nat)
    requires window >= 2 && limit >= 1
    ensures var times := Burst(window, limit);
            && Ordered(times)
            && (forall i :: 1 <= i < 2 * limit ==> window - 1 <= times[i] < window - 1 + window)
            && Passed(k, times, window, limit, 1, 2 * limit) == 2 * limit - 1
  {
    var times := Burst(window, limit);
    forall i | 0 <= i < limit ensures Opener(times, window, i) == 0 {
      NoOtherOpener(times, window, 0, i);
    }
    assert Opener(times, window, limit - 1) == 0;
    assert Opener(times, window, limit) == limit;
    forall i | limit <= i < 2 * limit ensures Opener(times, window, i) == limit {
      NoOtherOpener(times, window, limit, i);
    }
    PassedSplits(k, times, window, limit, 1, limit, 2 * limit);
    PassedInWindow(k, times, window, limit, 0, 1, limit);
    PassedInWindow(k, times, window, limit, limit, limit, 2 * limit);
  }
}
