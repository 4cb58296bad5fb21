/** Pacing the Bot Connector calls of one process (internal/bot/pacer.go): a token bucket per
    conversation, dropped from the map once it has refilled, and a pause the Connector asks for.
    Time is real and durations are not rounded. Tokens are counted by the time they take to earn:
    a token is worth one interval, the inverse of the rate. */
module Pacer {
  datatype Config = Config(interval: real, burst: nat) {
    /** A full bucket. */
    function Full(): real { Worth(burst, interval) }
  }

  /** What n tokens are worth. */
  function Worth(n: nat, interval: real): real { if n == 0 then 0.0 else Worth(n - 1, interval) + interval }

  lemma {:induction false} WorthIs(n: nat, interval: real)
    ensures Worth(n, interval) == n as real * interval
  {
    if n > 0 { WorthIs(n - 1, interval); }
  }

  lemma {:induction false} WorthGrows(n: nat, m: nat, interval: real)
    requires n <= m && interval >= 0.0
    ensures Worth(n, interval) <= Worth(m, interval)
  {
    if n < m { WorthGrows(n, m - 1, interval); }
  }

  /** rate.Limiter: the credit there was when it was last used; a debt is negative. */
  datatype Limiter = Limiter(credit: real, last: real)

  function Min(x: real, y: real): real { if x < y then x else y }

  /** NewLimiter: a full bucket. */
  function Fresh(c: Config): Limiter { Limiter(c.Full(), 0.0) }

  /** Limiter.TokensAt. */
  function CreditAt(c: Config, l: Limiter, t: real): real {
    Min(c.Full(), l.credit + t - if t < l.last then t else l.last)
  }

  /** ReserveN of one token, which is taken whether or not there is one. */
  function Reserve(c: Config, l: Limiter, t: real): Limiter { Limiter(CreditAt(c, l, t) - c.interval, t) }

  /** When the caller may go on: once the debt its token left is paid. */
  function ReleasedAt(c: Config, l: Limiter, t: real): real {
    var credit := CreditAt(c, l, t) - c.interval;
    if credit < 0.0 then t - credit else t
  }

  /** A limiter that has only ever been used, at the given times. */
  function After(c: Config, times: seq<real>): Limiter {
    if times == [] then Fresh(c) else Reserve(c, After(c, times[..|times| - 1]), times[|times| - 1])
  }

  /** When that limiter lets the k-th call go. */
  function Release(c: Config, times: seq<real>, k: nat): real
    requires k < |times|
  {
    ReleasedAt(c, After(c, times[..k]), times[k])
  }

  /** The same in the library's own units, tokens at a rate, where tokens is credit * rate. */
  lemma InTokens(c: Config, rate: real, l: Limiter, tokens: real, t: real)
    requires rate > 0.0 && c.interval * rate == 1.0 && l.last <= t && tokens == l.credit * rate
    ensures var now := Min(c.burst as real, tokens + (t - l.last) * rate);
            && CreditAt(c, l, t) * rate == now
            && Reserve(c, l, t).credit * rate == now - 1.0
            && (now - 1.0 < 0.0 ==> ReleasedAt(c, l, t) == t + (1.0 - now) / rate)
            && (now - 1.0 >= 0.0 ==> ReleasedAt(c, l, t) == t)
  {
    var earned := l.credit + (t - l.last);
    WorthIs(c.burst, c.interval);
    FullInTokens(c.burst as real, c.interval, rate);
    assert earned * rate == tokens + (t - l.last) * rate;
    MinScaled(c.Full(), earned, rate);
    Owed(CreditAt(c, l, t), c.interval, rate);
  }

  lemma FullInTokens(b: real, interval: real, rate: real)
    requires interval * rate == 1.0
    ensures b * interval * rate == b
  {
    assert b * interval * rate == b * (interval * rate);
  }

  lemma MinScaled(x: real, y: real, r: real)
    requires r > 0.0
    ensures Min(x, y) * r == Min(x * r, y * r)
  {
    if x < y { Scale(r, x, y); } else { Scale(r, y, x); }
  }

  lemma Owed(credit: real, interval: real, rate: real)
    requires rate > 0.0 && interval * rate == 1.0
    ensures (credit - interval) * rate == credit * rate - 1.0
    ensures (credit - interval < 0.0) == (credit * rate - 1.0 < 0.0)
    ensures interval - credit == (1.0 - credit * rate) / rate
  {
    assert (credit - interval) * rate == credit * rate - interval * rate;
    assert 1.0 - credit * rate == (interval - credit) * rate;
  }

  lemma Scale(r: real, x: real, y: real)
    requires r >= 0.0 && x <= y
    ensures r * x <= r * y
  {}

  predicate Ordered(times: seq<real>) {
    (forall i :: 0 <= i < |times| ==> times[i] >= 0.0) && forall i, j :: 0 <= i < j < |times| ==> times[i] <= times[j]
  }

  // The bound.

  /** How far the calls let go, and those waiting, are ahead of the clock. */
  function Backlog(l: Limiter): real { l.last - l.credit }

  lemma ReserveBacklog(c: Config, l: Limiter, t: real)
    requires c.interval > 0.0 && c.burst >= 1 && l.last <= t
    ensures var backlog := Backlog(Reserve(c, l, t));
            && backlog >= Backlog(l) + c.interval
            && backlog <= ReleasedAt(c, l, t) <= backlog + c.Full() - c.interval
  {
    WorthGrows(1, c.burst, c.interval);
  }

  lemma LastUse(c: Config, times: seq<real>)
    ensures times != [] ==> After(c, times).last == times[|times| - 1]
    ensures times == [] ==> After(c, times) == Fresh(c)
  {}

  lemma UpTo(c: Config, times: seq<real>, k: nat)
    requires k < |times|
    ensures After(c, times[..k + 1]) == Reserve(c, After(c, times[..k]), times[k])
  {
    var upto := times[..k + 1];
    assert upto[..|upto| - 1] == times[..k] && upto[|upto| - 1] == times[k];
  }

  lemma UsedBefore(c: Config, times: seq<real>, k: nat)
    requires Ordered(times) && k < |times|
    ensures After(c, times[..k]).last <= times[k]
  {
    LastUse(c, times[..k]);
  }

  /** A call is let go between its backlog and burst - 1 intervals more. */
  lemma ReleaseBounds(c: Config, times: seq<real>, k: nat)
    requires c.interval > 0.0 && c.burst >= 1 && Ordered(times) && k < |times|
    ensures var backlog := Backlog(After(c, times[..k + 1]));
            && backlog <= Release(c, times, k) <= backlog + c.Full() - c.interval
            && backlog >= Backlog(After(c, times[..k])) + c.interval
  {
    UpTo(c, times, k);
    UsedBefore(c, times, k);
    ReserveBacklog(c, After(c, times[..k]), times[k]);
  }

  lemma {:induction false} BacklogGrows(c: Config, times: seq<real>, i: nat, j: nat)
    requires c.interval > 0.0 && c.burst >= 1 && Ordered(times) && i <= j < |times|
    ensures Backlog(After(c, times[..j + 1])) >= Backlog(After(c, times[..i + 1])) + Worth(j - i, c.interval)
  {
    if i < j {
      BacklogGrows(c, times, i, j - 1);
      ReleaseBounds(c, times, j);
    }
  }

  /** When a full bucket and what is earned since the j-th call pay for the calls from that one to the k-th. */
  function Earned(c: Config, times: seq<real>, j: nat, k: nat): real
    requires j <= k < |times|
  {
    times[j] + Worth(k - j + 1, c.interval) - Worth(c.burst, c.interval)
  }

  /** A call adds an interval to the backlog, which is never more than a full bucket behind. */
  lemma NextBacklog(c: Config, l: Limiter, t: real)
    requires l.last <= t
    ensures Backlog(Reserve(c, l, t)) == c.interval + if t - c.Full() >= Backlog(l) then t - c.Full() else Backlog(l)
  {}

  lemma {:induction false} EarnedNext(c: Config, times: seq<real>, i: nat, k: nat)
    requires i < k < |times|
    ensures Earned(c, times, i, k) == Earned(c, times, i, k - 1) + c.interval
  {}

  lemma EarnedNow(c: Config, times: seq<real>, k: nat)
    requires k < |times|
    ensures Earned(c, times, k, k) == times[k] + c.interval - c.Full()
  {
    var n := k - k + 1;
    assert Worth(n, c.interval) == Worth(n - 1, c.interval) + c.interval;
  }

  lemma {:induction false} BacklogIs(c: Config, times: seq<real>, k: nat) returns (j: nat)
    requires c.interval > 0.0 && Ordered(times) && k < |times|
    ensures j <= k && Backlog(After(c, times[..k + 1])) == Earned(c, times, j, k)
    ensures forall i :: 0 <= i <= k ==> Earned(c, times, i, k) <= Backlog(After(c, times[..k + 1]))
  {
    UpTo(c, times, k);
    UsedBefore(c, times, k);
    NextBacklog(c, After(c, times[..k]), times[k]);
    EarnedNow(c, times, k);
    if k == 0 {
      assert times[..0] == [];
      return 0;
    }
    j := BacklogIs(c, times, k - 1);
    assert times[..k - 1 + 1] == times[..k];
    forall i | 0 <= i < k
      ensures Earned(c, times, i, k) == Earned(c, times, i, k - 1) + c.interval
    {
      EarnedNext(c, times, i, k);
    }
    if times[k] - c.Full() >= Backlog(After(c, times[..k])) { j := k; }
  }

  /** Nobody is held up longer than the rate asks for, nor let go before: a call goes at once, unless a
      full bucket and what was earned since some call before it do not pay for those up to this one;
      then it goes when they do. */
  lemma {:induction false} ReleaseIs(c: Config, times: seq<real>, k: nat) returns (j: nat)
    requires c.interval > 0.0 && Ordered(times) && k < |times|
    ensures j <= k && Release(c, times, k) == if Earned(c, times, j, k) > times[k] then Earned(c, times, j, k) else times[k]
    ensures forall i :: 0 <= i <= k ==> Earned(c, times, i, k) <= Release(c, times, k)
  {
    j := BacklogIs(c, times, k);
    UpTo(c, times, k);
    LastUse(c, times[..k + 1]);
  }

  /** So the first calls of a conversation, as many as the burst allows, go at once. */
  lemma {:induction false} BurstGoesAtOnce(c: Config, times: seq<real>, k: nat)
    requires c.interval > 0.0 && Ordered(times) && k < |times| && k < c.burst
    ensures Release(c, times, k) == times[k]
  {
    var j := ReleaseIs(c, times, k);
    WorthGrows(k - j + 1, c.burst, c.interval);
  }

  /** From one release to a later one there are at most burst + rate * T calls. */
  lemma BetweenReleases(c: Config, times: seq<real>, i: nat, j: nat)
    requires c.interval > 0.0 && c.burst >= 1 && Ordered(times) && i <= j < |times|
    ensures Worth(j - i + 1, c.interval) <= c.Full() + Release(c, times, j) - Release(c, times, i)
  {
    ReleaseBounds(c, times, i);
    ReleaseBounds(c, times, j);
    BacklogGrows(c, times, i, j);
  }

  /** The calls released in a window, from a on and for a time T. */
  function Released(c: Config, times: seq<real>, a: real, T: real): set<nat> {
    set k: nat | k < |times| && a <= Release(c, times, k) <= a + T
  }

  lemma {:induction false} FirstAndLast(ks: set<nat>) returns (i: nat, j: nat)
    requires ks != {}
    ensures i in ks && j in ks && forall k :: k in ks ==> i <= k <= j
    decreases |ks|
  {
    var k :| k in ks;
    var rest := ks - {k};
    if rest == {} {
      assert forall m :: m in ks ==> m == k || m in rest;
      return k, k;
    }
    i, j := FirstAndLast(rest);
    assert forall m :: m in ks ==> m == k || m in rest;
    if k < i { i := k; } else if j < k { j := k; }
  }

  lemma {:induction false} AtMost(ks: set<nat>, i: nat, j: nat)
    requires i <= j && forall k :: k in ks ==> i <= k <= j
    ensures |ks| <= j - i + 1
    decreases j - i
  {
    if i == j {
      assert ks <= {i};
      SubsetSize(ks, {i});
    } else {
      AtMost(ks - {j}, i, j - 1);
      if j in ks { assert ks == ks - {j} + {j}; } else { assert ks == ks - {j}; }
    }
  }

  lemma {:induction false} SubsetSize(a: set<nat>, b: set<nat>)
    requires a <= b
    ensures |a| <= |b|
  {
    if a != {} {
      var x :| x in a;
      SubsetSize(a - {x}, b - {x});
    }
  }

  /** In any window of length T, at most burst + rate * T calls of a conversation are let go. */
  lemma WindowBound(c: Config, rate: real, times: seq<real>, a: real, T: real)
    requires c.interval > 0.0 && c.interval * rate == 1.0 && c.burst >= 1 && Ordered(times) && T >= 0.0
    ensures |Released(c, times, a, T)| as real <= c.burst as real + rate * T
  {
    var ks := Released(c, times, a, T);
    var n := 0;
    WorthGrows(0, c.burst, c.interval);
    if ks != {} {
      var i, j := FirstAndLast(ks);
      AtMost(ks, i, j);
      BetweenReleases(c, times, i, j);
      n := j - i + 1;
    }
    PerInterval(c, rate, n, T);
  }

  lemma PerInterval(c: Config, rate: real, n: nat, T: real)
    requires c.interval > 0.0 && c.interval * rate == 1.0 && T >= 0.0 && Worth(n, c.interval) <= c.Full() + T
    ensures n as real <= c.burst as real + rate * T
  {
    WorthIs(n, c.interval);
    WorthIs(c.burst, c.interval);
    Divide(n as real, c.burst as real, c.interval, rate, T);
  }

  lemma Divide(n: real, b: real, interval: real, rate: real, T: real)
    requires interval > 0.0 && interval * rate == 1.0 && n * interval <= b * interval + T
    ensures n <= b + rate * T
  {
    assert rate > 0.0;
    Scale(rate, n * interval, b * interval + T);
    assert rate * (n * interval) == n * (interval * rate);
    assert rate * (b * interval + T) == b * (interval * rate) + rate * T;
  }

  // Eviction.

  /** A limiter that has refilled is, from then on, as good as a fresh one. */
  lemma RefilledIsFresh(c: Config, l: Limiter, now: real, t: real)
    requires l.last <= now <= t && 0.0 <= t && CreditAt(c, l, now) >= c.Full()
    ensures Reserve(c, l, t) == Reserve(c, Fresh(c), t) && ReleasedAt(c, l, t) == ReleasedAt(c, Fresh(c), t)
    ensures CreditAt(c, l, t) == c.Full()
  {}

  /** What a map of limiters is to a conversation's past: its limiter, or nothing when that has
      refilled. */
  predicate Agrees(c: Config, perKey: map<string, Limiter>, key: string, times: seq<real>, now: real) {
    && Ordered(times) && (times != [] ==> times[|times| - 1] <= now)
    && if key in perKey then perKey[key] == After(c, times) else CreditAt(c, After(c, times), now) >= c.Full()
  }

  /** A call through the map is a call through the limiter that was never dropped. */
  lemma SameRelease(c: Config, perKey: map<string, Limiter>, key: string, times: seq<real>, now: real, t: real)
    requires 0.0 <= now <= t && Agrees(c, perKey, key, times, now)
    ensures var l := if key in perKey then perKey[key] else Fresh(c);
            && Ordered(times + [t])
            && Reserve(c, l, t) == After(c, times + [t])
            && ReleasedAt(c, l, t) == Release(c, times + [t], |times|)
  {
    var more := times + [t];
    assert more[..|more| - 1] == times && more[|more| - 1] == t;
    LastUse(c, times);
    if key !in perKey { RefilledIsFresh(c, After(c, times), now, t); }
  }

  lemma StillAgrees(c: Config, perKey: map<string, Limiter>, key: string, times: seq<real>, now: real, t: real)
    requires 0.0 <= now <= t && Agrees(c, perKey, key, times, now)
    ensures Agrees(c, perKey, key, times, t)
  {
    LastUse(c, times);
    if key !in perKey { RefilledIsFresh(c, After(c, times), now, t); }
  }

  /** maxConversationLimiters. */
  const MAX := 10000

  function TimesOf(past: map<string, seq<real>>, key: string): seq<real> { if key in past then past[key] else [] }

  /** A Retry-After the Connector asked for: when, and for how long. */
  datatype Pause = Pause(at: real, d: real)

  datatype State = State(clock: real, pauseUntil: real, past: map<string, seq<real>>, asked: seq<Pause>)

  /** Nothing anyone does takes back time, a call or a pause. */
  ghost predicate Later(s: State, t: State) {
    && s.clock <= t.clock && s.pauseUntil <= t.pauseUntil && s.asked <= t.asked
    && forall key :: TimesOf(s.past, key) <= TimesOf(t.past, key)
  }

  lemma LaterStill(s: State, t: State, u: State)
    requires Later(s, t) && Later(t, u)
    ensures Later(s, u)
  {
    forall key
      ensures TimesOf(s.past, key) <= TimesOf(u.past, key)
    {
      assert TimesOf(s.past, key) <= TimesOf(t.past, key) <= TimesOf(u.past, key);
    }
  }

  /** The k-th call of a conversation has taken its token, and is let go at the given time. */
  ghost predicate HasCall(c: Config, s: State, key: string, k: nat, until: real) {
    k < |TimesOf(s.past, key)| && Release(c, TimesOf(s.past, key), k) == until
  }

  /** Later calls change nothing about when an earlier one is let go. */
  lemma CallStays(c: Config, s: State, t: State, key: string, k: nat, until: real)
    requires HasCall(c, s, key, k, until) && Later(s, t)
    ensures HasCall(c, t, key, k, until)
  {
    var times, more := TimesOf(s.past, key), TimesOf(t.past, key);
    assert times <= more;
    assert more[..k] == times[..k];
  }

  ghost predicate AllAgree(c: Config, perKey: map<string, Limiter>, past: map<string, seq<real>>, now: real) {
    forall key :: Agrees(c, perKey, key, TimesOf(past, key), now)
  }

  lemma UseAgrees(c: Config, perKey: map<string, Limiter>, past: map<string, seq<real>>, key: string, t: real)
    requires AllAgree(c, perKey, past, t) && 0.0 <= t && (c.burst == 0 ==> past == map[])
    ensures var l := if key in perKey then perKey[key] else Fresh(c);
            var more := past[key := TimesOf(past, key) + [t]];
            && AllAgree(c, perKey[key := Reserve(c, l, t)], more, t)
            && (c.burst == 0 ==> AllAgree(c, perKey[key := l], past, t))
            && Release(c, TimesOf(more, key), |TimesOf(past, key)|) == ReleasedAt(c, l, t)
            && forall other :: TimesOf(past, other) <= TimesOf(more, other)
  {
    var times := TimesOf(past, key);
    assert Agrees(c, perKey, key, times, t);
    SameRelease(c, perKey, key, times, t, t);
    var l := if key in perKey then perKey[key] else Fresh(c);
    OnlyOne(c, perKey, past, past[key := times + [t]], key, t, Reserve(c, l, t));
    if c.burst == 0 {
      assert After(c, times) == Fresh(c);
      OnlyOne(c, perKey, past, past, key, t, l);
    }
  }

  /** One conversation moves on, the others stay. */
  lemma OnlyOne(c: Config, perKey: map<string, Limiter>, past: map<string, seq<real>>, more: map<string, seq<real>>,
      key: string, t: real, l: Limiter)
    requires AllAgree(c, perKey, past, t)
    requires forall other :: other != key ==> TimesOf(more, other) == TimesOf(past, other)
    requires var times := TimesOf(more, key);
             Ordered(times) && (times != [] ==> times[|times| - 1] <= t) && l == After(c, times)
    ensures AllAgree(c, perKey[key := l], more, t)
  {
    forall other
      ensures Agrees(c, perKey[key := l], other, TimesOf(more, other), t)
    {
      if other != key { assert Agrees(c, perKey, other, TimesOf(past, other), t); }
    }
  }

  /** The limiters that have not refilled at a time, as they are. */
  ghost predicate NoneRefilled(c: Config, before: map<string, Limiter>, after: map<string, Limiter>, now: real) {
    && (forall key :: key in after <==> key in before && CreditAt(c, before[key], now) < c.Full())
    && forall key :: key in after ==> after[key] == before[key]
  }

  datatype Outcome = Done(releasedAt: real) | Cancelled | NoBurst

  /** processPacer. clock is now, past the times each conversation's calls took their tokens, asked
      every pause anyone was told of. */
  class ProcessPacer {
    const c: Config
    var perKey: map<string, Limiter>
    var pauseUntil: real
    var clock: real
    ghost var past: map<string, seq<real>>
    ghost var asked: seq<Pause>

    ghost predicate Valid()
      reads this
    {
      && c.interval > 0.0 && 0.0 <= clock && (c.burst == 0 ==> past == map[])
      && AllAgree(c, perKey, past, clock)
      && (forall i :: 0 <= i < |asked| ==> asked[i].at <= clock && asked[i].at + asked[i].d <= pauseUntil)
    }

    ghost function Snap(): State
      reads this
    {
      State(clock, pauseUntil, past, asked)
    }

    constructor (c: Config)
      requires c.interval > 0.0
      ensures Valid() && this.c == c && clock == 0.0 && past == map[] && asked == []
    {
      this.c := c;
      perKey, pauseUntil, clock := map[], 0.0, 0.0;
      past, asked := map[], [];
    }

    method Tick(d: real)
      requires Valid() && d >= 0.0
      modifies this`clock
      ensures Valid() && clock == old(clock) + d
    {
      forall key
        ensures Agrees(c, perKey, key, TimesOf(past, key), clock + d)
      {
        StillAgrees(c, perKey, key, TimesOf(past, key), clock, clock + d);
      }
      clock := clock + d;
    }

    /** Throttled. */
    method Throttled(d: real)
      requires Valid()
      modifies this`pauseUntil, this`asked
      ensures Valid() && asked == old(asked) + [Pause(clock, d)]
      ensures pauseUntil == if clock + d > old(pauseUntil) then clock + d else old(pauseUntil)
    {
      var until := clock + d;
      if until > pauseUntil { pauseUntil := until; }
      asked := asked + [Pause(clock, d)];
    }

    /** evictIdle: drops exactly the limiters that have refilled. */
    method EvictIdle()
      requires Valid()
      modifies this`perKey
      ensures Valid()
      ensures NoneRefilled(c, old(perKey), perKey, clock)
    {
      var keys := perKey.Keys;
      while keys != {}
        invariant keys <= old(perKey).Keys
        invariant forall key :: key in perKey <==>
                    key in old(perKey) && (key in keys || CreditAt(c, old(perKey)[key], clock) < c.Full())
        invariant forall key :: key in perKey ==> perKey[key] == old(perKey)[key]
        decreases |keys|
      {
        var key :| key in keys;
        if CreditAt(c, perKey[key], clock) >= c.Full() { perKey := perKey - {key}; }
        keys := keys - {key};
      }
      forall key
        ensures Agrees(c, perKey, key, TimesOf(past, key), clock)
      {
        assert Agrees(c, old(perKey), key, TimesOf(past, key), clock);
      }
    }

    /** conversation and ReserveN, under one lock: the token is the one a limiter that was never
        dropped would give. */
    method TakeToken(key: string) returns (ok: bool, until: real)
      requires Valid()
      modifies this
      ensures Valid() && Later(old(Snap()), Snap())
      ensures ok <==> c.burst >= 1
      ensures ok ==> HasCall(c, Snap(), key, |TimesOf(old(past), key)|, until)
    {
      MakeRoom(key);
      ok, until := Use(key);
    }

    /** An evictIdle reads the clock before the reservation does. */
    method MakeRoom(key: string)
      requires Valid()
      modifies this`perKey, this`clock
      ensures Valid() && clock >= old(clock)
      ensures if key !in old(perKey) && |old(perKey)| >= 10000 then NoneRefilled(c, old(perKey), perKey, old(clock)) else perKey == old(perKey)
    {
      if key !in perKey && |perKey| >= MAX {
        EvictIdle();
        var d: real := *;
        if d > 0.0 { Tick(d); }
      }
    }

    method Use(key: string) returns (ok: bool, until: real)
      requires Valid()
      modifies this`perKey, this`past
      ensures Valid()
      ensures ok <==> c.burst >= 1
      ensures Later(old(Snap()), Snap())
      ensures ok ==> HasCall(c, Snap(), key, |TimesOf(old(past), key)|, until)
    {
      var l := if key in perKey then perKey[key] else Fresh(c);
      assert Agrees(c, perKey, key, TimesOf(past, key), clock);
      ok, until := c.burst >= 1, ReleasedAt(c, l, clock);
      UseAgrees(c, perKey, past, key, clock);
      if ok {
        l := Reserve(c, l, clock);
        past := past[key := TimesOf(past, key) + [clock]];
      }
      perKey := perKey[key := l];
    }

    /** Whatever others do meanwhile. */
    method Others()
      requires Valid()
      modifies this
      ensures Valid() && Later(old(Snap()), Snap())
    {
      var steps: seq<nat> := *;
      for i := 0 to |steps|
        invariant Valid() && Later(old(Snap()), Snap())
      {
        ghost var before := Snap();
        var d: real := *;
        var key: string := *;
        if steps[i] == 0 {
          if d >= 0.0 { Tick(d); }
        } else if steps[i] == 1 {
          Throttled(d);
        } else {
          var ok, until := TakeToken(key);
        }
        LaterStill(old(Snap()), before, Snap());
      }
    }

    /** sleep, unless the caller's context ends. */
    method Sleep(until: real, lucky: bool) returns (slept: bool)
      requires Valid()
      modifies this
      ensures Valid() && Later(old(Snap()), Snap())
      ensures slept ==> clock >= until
      ensures lucky ==> slept
    {
      Others();
      slept := true;
      if !lucky { slept := *; }
      if slept && clock < until { Tick(until - clock); }
    }

    /** Wait: sit out the pause, then wait for the conversation's token, then for the process's own
        limiter, which takes as long as it takes. */
    method Wait(key: string, lucky: bool) returns (out: Outcome)
      requires Valid()
      modifies this
      ensures Valid() && Later(old(Snap()), Snap())
      ensures out.Done? ==> forall i :: 0 <= i < |old(asked)| ==> clock >= old(asked)[i].at + old(asked)[i].d
      ensures out.Done? ==> clock >= out.releasedAt
      ensures out.Done? && key != "" ==>
                exists k :: |TimesOf(old(past), key)| <= k && HasCall(c, Snap(), key, k, out.releasedAt)
      ensures out == NoBurst ==> key != "" && c.burst == 0
      ensures lucky && out != NoBurst ==> out.Done?
    {
      var slept := Sleep(pauseUntil, lucky);
      if !slept { return Cancelled; }
      ghost var paused := Snap();
      out := Done(clock);
      if key != "" { out := WaitConversation(key, lucky); }
      ghost var waited := Snap();
      LaterStill(old(Snap()), paused, waited);
      if out.Done? {
        out := GlobalWait(out.releasedAt, lucky);
        LaterStill(old(Snap()), waited, Snap());
        if out.Done? && key != "" {
          ghost var k :| |TimesOf(paused.past, key)| <= k && HasCall(c, waited, key, k, out.releasedAt);
          CallStays(c, waited, Snap(), key, k, out.releasedAt);
          assert TimesOf(old(past), key) <= TimesOf(paused.past, key);
        }
      }
    }

    /** waitConversation. */
    method WaitConversation(key: string, lucky: bool) returns (out: Outcome)
      requires Valid()
      modifies this
      ensures Valid() && Later(old(Snap()), Snap())
      ensures out.Done? ==> clock >= out.releasedAt
      ensures out.Done? ==> exists k :: |TimesOf(old(past), key)| <= k && HasCall(c, Snap(), key, k, out.releasedAt)
      ensures out == NoBurst <==> c.burst == 0
      ensures lucky && out != NoBurst ==> out.Done?
    {
      var ok, until := TakeToken(key);
      if !ok { return NoBurst; }
      ghost var reserved := Snap();
      var slept := Sleep(until, lucky);
      LaterStill(old(Snap()), reserved, Snap());
      if !slept { return Cancelled; }
      CallStays(c, reserved, Snap(), key, |TimesOf(old(past), key)|, until);
      out := Done(until);
    }

    /** The process's own limiter takes as long as it takes. */
    method GlobalWait(until: real, lucky: bool) returns (out: Outcome)
      requires Valid() && clock >= until
      modifies this
      ensures Valid() && Later(old(Snap()), Snap())
      ensures out == Cancelled || out == Done(until)
      ensures lucky ==> out.Done?
    {
      Others();
      var well := true;
      if !lucky { well := *; }
      out := if well then Done(until) else Cancelled;
    }
  }

  /** The bound, for every conversation and at any point of any run of the pacer, whatever was
      dropped from its map. */
  lemma ConversationBound(p: ProcessPacer, key: string, rate: real, a: real, T: real)
    requires p.Valid() && p.c.interval * rate == 1.0 && p.c.burst >= 1 && T >= 0.0
    ensures |Released(p.c, TimesOf(p.past, key), a, T)| as real <= p.c.burst as real + rate * T
  {
    assert Agrees(p.c, p.perKey, key, TimesOf(p.past, key), p.clock);
    WindowBound(p.c, rate, TimesOf(p.past, key), a, T);
  }
}
