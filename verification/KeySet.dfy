/** The limit on unknown signing keys (internal/httpserver/bot_auth.go, rateLimitedKeySet): kids
    that have not verified yet share a number of attempts per window. */
module KeySet {
  datatype Option<T> = None | Some(value: T)

  /** One window: when it was opened, and when each attempt in it was let through, in order. */
  datatype Window = Window(start: int, attempts: seq<int>)

  /** jwtKeyID: a header that does not parse or names no kid has none. */
  function KeyId(header: Option<string>): (kid: Option<string>)
    ensures kid != Some("")
  {
    if header == Some("") then None else header
  }

  // The bound on attempts.

  /** Windows never overlap, none holds more than burst attempts, and each attempt lies in its own. */
  ghost predicate Spaced(ws: seq<Window>, floor: int, burst: nat) {
    && (forall i :: 0 <= i < |ws| ==> |ws[i].attempts| <= burst)
    && (forall i, k :: 0 <= i < |ws| && 0 <= k < |ws[i].attempts| ==>
          ws[i].start <= ws[i].attempts[k] < ws[i].start + floor)
    && forall i, j :: 0 <= i < j < |ws| ==> ws[i].start + floor <= ws[j].start
  }

  function CountIn(times: seq<int>, a: int, b: int): nat {
    if times == [] then 0
    else CountIn(times[..|times| - 1], a, b) + if a <= times[|times| - 1] <= b then 1 else 0
  }

  /** How many attempts were let through from a to b. */
  function Attempts(ws: seq<Window>, a: int, b: int): nat {
    if ws == [] then 0
    else Attempts(ws[..|ws| - 1], a, b) + CountIn(ws[|ws| - 1].attempts, a, b)
  }

  lemma {:induction false} CountBounds(times: seq<int>, a: int, b: int)
    ensures CountIn(times, a, b) <= |times|
    ensures CountIn(times, a, b) == 0 <==> forall k :: 0 <= k < |times| ==> !(a <= times[k] <= b)
  {
    if times != [] {
      var n := |times| - 1;
      CountBounds(times[..n], a, b);
      assert forall k :: 0 <= k < n ==> times[..n][k] == times[k];
    }
  }

  lemma {:induction false} NoneIn(ws: seq<Window>, a: int, b: int)
    requires forall i, k :: 0 <= i < |ws| && 0 <= k < |ws[i].attempts| ==> !(a <= ws[i].attempts[k] <= b)
    ensures Attempts(ws, a, b) == 0
  {
    if ws != [] {
      NoneIn(ws[..|ws| - 1], a, b);
      CountBounds(ws[|ws| - 1].attempts, a, b);
    }
  }

  lemma SpacedPrefix(ws: seq<Window>, n: nat, floor: int, burst: nat)
    requires Spaced(ws, floor, burst) && n <= |ws|
    ensures Spaced(ws[..n], floor, burst)
  {}

  /** An interval no longer than a window meets at most two of them, so at most 2 * burst attempts
      are let through in it. */
  lemma {:induction false} AtMostTwice(ws: seq<Window>, floor: int, burst: nat, a: int, b: int)
    requires Spaced(ws, floor, burst) && floor > 0 && b - a <= floor
    ensures Attempts(ws, a, b) <= 2 * burst
  {
    if ws != [] {
      var n := |ws| - 1;
      var last := ws[n];
      CountBounds(last.attempts, a, b);
      SpacedPrefix(ws, n, floor, burst);
      if CountIn(last.attempts, a, b) == 0 {
        AtMostTwice(ws[..n], floor, burst, a, b);
      } else {
        AtMostOnceBefore(ws, floor, burst, a, b);
      }
    }
  }

  lemma AtMostOnceBefore(ws: seq<Window>, floor: int, burst: nat, a: int, b: int)
    requires Spaced(ws, floor, burst) && floor > 0 && b - a <= floor && ws != []
    requires CountIn(ws[|ws| - 1].attempts, a, b) > 0
    ensures Attempts(ws[..|ws| - 1], a, b) <= burst
  {
    var n := |ws| - 1;
    CountBounds(ws[n].attempts, a, b);
    var k :| 0 <= k < |ws[n].attempts| && a <= ws[n].attempts[k] <= b;
    if n > 0 {
      CountBounds(ws[n - 1].attempts, a, b);
      assert ws[..n][..n - 1] == ws[..n - 1];
      forall i, m | 0 <= i < n - 1 && 0 <= m < |ws[i].attempts|
        ensures ws[i].attempts[m] < a
      {
        TwoApart(ws, floor, burst, i, n);
      }
      NoneIn(ws[..n - 1], a, b);
    }
  }

  /** Between a window and the one after the next there is a whole window. */
  lemma TwoApart(ws: seq<Window>, floor: int, burst: nat, i: nat, n: nat)
    requires Spaced(ws, floor, burst) && floor > 0 && i + 2 <= n < |ws|
    ensures ws[i].start + 2 * floor <= ws[n].start
  {
    assert ws[i].start + floor <= ws[i + 1].start;
    assert ws[i + 1].start + floor <= ws[n].start;
  }

  /** A lookup that was let through to the inner key set, refused for want of attempts, or verified. */
  datatype Outcome = Refused | Failed | Verified

  class RateLimitedKeySet {
    const floor: int
    const burst: nat
    var knownKids: set<string>
    var windowStart: Option<int>
    var windowCount: int
    var clock: int
    ghost var windows: seq<Window>

    ghost predicate Valid()
      reads this
    {
      && floor > 0 && "" !in knownKids
      && Spaced(windows, floor, burst)
      && (windows == [] <==> windowStart.None?)
      && (windows == [] ==> windowCount == 0)
      && (windows != [] ==>
            var current := windows[|windows| - 1];
            && windowStart == Some(current.start) && current.start <= clock && windowCount == |current.attempts|
            && forall k :: 0 <= k < |current.attempts| ==> current.attempts[k] <= clock)
    }

    constructor (floor: int, burst: nat)
      requires floor > 0
      ensures Valid() && this.floor == floor && this.burst == burst && windows == [] && knownKids == {}
    {
      this.floor, this.burst := floor, burst;
      knownKids, windowStart, windowCount, clock := {}, None, 0, 0;
      windows := [];
    }

    method Tick(d: nat)
      requires Valid()
      modifies this`clock
      ensures Valid() && clock == old(clock) + d
    {
      clock := clock + d;
    }

    /** The first locked section: whether a lookup reaches the inner key set. A known kid always does
        and is not counted; an unknown one counts against the window it opens or finds open, and is
        refused only when that has been spent. at is the time it counts at. */
    method Admit(kid: string) returns (through: bool, ghost anew: bool, ghost at: int)
      requires Valid()
      modifies this`windowStart, this`windowCount, this`windows, this`clock
      ensures Valid() && clock >= old(clock)
      ensures through <==> kid in knownKids || (if anew then burst > 0 else old(windowCount) < burst)
      ensures if kid in knownKids then windows == old(windows)
              else windows == Counted(old(windows), anew, at, through) && old(clock) <= at <= clock
      ensures !through ==> windows != [] && |windows[|windows| - 1].attempts| == burst
      ensures knownKids == old(knownKids)
      ensures Total(windows) == Total(old(windows)) + if through && kid !in knownKids then 1 else 0
      ensures anew <==> kid !in knownKids && (old(windowStart).None? || old(clock) - old(windowStart).value >= floor)
    {
      through, anew, at := true, false, clock;
      if kid in knownKids { return; }
      through, anew, at := AdmitUnknown();
      CountedTotal(old(windows), anew, at, through);
    }

    /** An unknown kid counts against the window it opens or finds open. */
    method AdmitUnknown() returns (through: bool, ghost anew: bool, ghost at: int)
      requires Valid()
      modifies this`windowStart, this`windowCount, this`windows, this`clock
      ensures Valid() && old(clock) <= at <= clock && knownKids == old(knownKids)
      ensures through <==> if anew then burst > 0 else old(windowCount) < burst
      ensures windows == Counted(old(windows), anew, at, through) && (anew || old(windows) != [])
      ensures !through ==> windows != [] && |windows[|windows| - 1].attempts| == burst
      ensures anew <==> old(windowStart).None? || old(clock) - old(windowStart).value >= floor
    {
      anew, at := false, clock;
      if windowStart.None? || clock - windowStart.value >= floor {
        Reopen();
        anew, at := true, clock;
      }
      through := windowCount < burst;
      if through { CountOne(at); }
    }

    method Reopen()
      requires Valid() && (windowStart.Some? ==> clock - windowStart.value >= floor)
      modifies this`windowStart, this`windowCount, this`windows, this`clock
      ensures Valid() && clock >= old(clock) && windows == old(windows) + [Window(clock, [])] && windowCount == 0
    {
      var later: int := *;
      if later > clock { clock := later; }
      OpenWindow(windows, floor, burst, clock);
      windows := windows + [Window(clock, [])];
      windowStart, windowCount := Some(clock), 0;
    }

    method CountOne(ghost at: int)
      requires Valid() && windows != [] && windowCount < burst
      requires windows[|windows| - 1].start <= at < windows[|windows| - 1].start + floor && at <= clock
      modifies this`windowCount, this`windows
      ensures Valid() && windows == Attempted(old(windows), at)
    {
      CountAttempt(windows, floor, burst, at);
      windowCount := windowCount + 1;
      windows := Attempted(windows, at);
    }

    /** The second locked section. */
    method Remember(kid: Option<string>)
      requires Valid() && kid != Some("")
      modifies this`knownKids
      ensures Valid() && knownKids == old(knownKids) + if kid.Some? then {kid.value} else {}
    {
      if kid.Some? { knownKids := knownKids + {kid.value}; }
    }

    method Others()
      requires Valid()
      modifies this
      ensures Valid() && old(knownKids) <= knownKids && clock >= old(clock) && Total(windows) >= Total(old(windows))
    {
      var steps: seq<Option<string>> := *;
      for i := 0 to |steps|
        invariant Valid() && old(knownKids) <= knownKids && clock >= old(clock) && Total(windows) >= Total(old(windows))
      {
        var d: nat, admit: bool := *, *;
        if d > 0 { Tick(1); }
        var kid := KeyId(steps[i]);
        if admit {
          var through, anew, at := Admit(if kid.Some? then kid.value else "");
        } else {
          Remember(kid);
        }
      }
    }

    /** Up to the inner key set's answer, with what other lookups do before and meanwhile. */
    method Enter(kid: string) returns (through: bool)
      requires Valid()
      modifies this
      ensures Valid() && old(knownKids) <= knownKids && Total(windows) >= Total(old(windows))
      ensures kid in old(knownKids) ==> through
      ensures !through ==> windows != [] && |windows[|windows| - 1].attempts| == burst
      ensures through && kid !in knownKids ==> Total(windows) > Total(old(windows))
    {
      Others();
      ghost var before := Total(windows);
      ghost var anew, at;
      through, anew, at := Admit(kid);
      assert through && kid !in knownKids ==> Total(windows) == before + 1;
      if through { Others(); }
    }

    /** VerifySignature: header is the token's kid, if it has one; verifies is the inner key set's
        answer. A kid that verified once is never refused again, and never counted; a lookup whose kid
        nobody has verified is counted when it reaches the inner key set. */
    method VerifySignature(header: Option<string>, verifies: bool) returns (out: Outcome)
      requires Valid()
      modifies this
      ensures Valid() && old(knownKids) <= knownKids
      ensures header.Some? && header.value in old(knownKids) ==> out != Refused
      ensures out == Verified ==> verifies && (header.Some? && header.value != "" ==> header.value in knownKids)
      ensures out == Failed ==> !verifies
      ensures out == Refused ==> windows != [] && |windows[|windows| - 1].attempts| == burst
      ensures out != Refused && (header.None? || header.value == "") ==> Total(windows) > Total(old(windows))
      ensures out == Failed && header.Some? && header.value !in knownKids ==> Total(windows) > Total(old(windows))
    {
      var kid := KeyId(header);
      var through := Enter(if kid.Some? then kid.value else "");
      if !through { return Refused; }
      if !verifies { return Failed; }
      Remember(kid);
      out := Verified;
    }
  }

  /** The last window with one more attempt. */
  function Attempted(ws: seq<Window>, at: int): seq<Window>
    requires ws != []
  {
    var n := |ws| - 1;
    ws[n := ws[n].(attempts := ws[n].attempts + [at])]
  }

  /** All attempts ever let through. */
  function Total(ws: seq<Window>): nat {
    if ws == [] then 0 else Total(ws[..|ws| - 1]) + |ws[|ws| - 1].attempts|
  }

  lemma CountedTotal(before: seq<Window>, anew: bool, at: int, through: bool)
    requires anew || before != []
    ensures Total(Counted(before, anew, at, through)) == Total(before) + if through then 1 else 0
  {
    var ws := if anew then before + [Window(at, [])] else before;
    if anew { assert ws[..|before|] == before; }
    if through { assert Attempted(ws, at)[..|ws| - 1] == ws[..|ws| - 1]; }
  }

  /** What one unknown kid makes of the windows: it may open one, and is one more attempt in the last. */
  function Counted(before: seq<Window>, anew: bool, at: int, through: bool): seq<Window> {
    var ws := if anew then before + [Window(at, [])] else before;
    if through && ws != [] then Attempted(ws, at) else ws
  }

  lemma OpenWindow(ws: seq<Window>, floor: int, burst: nat, at: int)
    requires Spaced(ws, floor, burst) && floor > 0 && (ws != [] ==> ws[|ws| - 1].start + floor <= at)
    ensures Spaced(ws + [Window(at, [])], floor, burst)
  {
    var more := ws + [Window(at, [])];
    var n := |ws|;
    forall i, j | 0 <= i < j < |more|
      ensures more[i].start + floor <= more[j].start
    {
      if j == n && i < n - 1 { assert ws[i].start + floor <= ws[n - 1].start; }
    }
  }

  lemma CountAttempt(ws: seq<Window>, floor: int, burst: nat, at: int)
    requires Spaced(ws, floor, burst) && ws != []
    requires var last := ws[|ws| - 1]; |last.attempts| < burst && last.start <= at < last.start + floor
    ensures Spaced(Attempted(ws, at), floor, burst)
  {}

  /** At any point of any run of lookups: no more than burst attempts fell into each window, and no
      more than 2 * burst into any interval no longer than one. */
  lemma AttemptsBounded(k: RateLimitedKeySet, a: int, b: int)
    requires k.Valid() && b - a <= k.floor
    ensures Attempts(k.windows, a, b) <= 2 * k.burst
    ensures forall w :: w in k.windows ==> |w.attempts| <= k.burst
  {
    AtMostTwice(k.windows, k.floor, k.burst, a, b);
  }
}
