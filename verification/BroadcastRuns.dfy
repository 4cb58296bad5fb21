/** What holds of every run of a broadcast (internal/httpserver/broadcast.go). */
module BroadcastRuns {
  import opened Order
  import opened Broadcast
  import opened BroadcastInv

  // While every heartbeat lands within the stale time of its stamp.

  /** The stored cursor never moves back. */
  lemma CursorOnlyGrows(w: World, a: Action)
    requires Reachable(w) && !w.hist.late
    ensures !Before(Step(w, a).row.p.cursor, w.row.p.cursor)
  {
    ReachableInv(w);
    Irreflexive(w.row.p.cursor);
    if !a.Tick? && a.o in w.procs { AdvanceGrows(w, a); }
  }

  lemma AdvanceGrows(w: World, a: Action)
    requires Inv(w) && !w.hist.late && !a.Tick? && a.o in w.procs
    ensures !Before(Step(w, a).row.p.cursor, w.row.p.cursor)
  {
    var pc := w.procs[a.o];
    assert PcInv(w, a.o, pc) && InStep(w, pc);
    Irreflexive(w.row.p.cursor);
    if pc.Stamped? && Before(w.row.p.cursor, pc.p.cursor) { Asymmetric(w.row.p.cursor, pc.p.cursor); }
  }

  /** A claim that succeeds starts from the row's own progress, though it read it before the swap: a
      heartbeat in between makes the swap fail. */
  lemma ClaimCarriesOn(w: World, o: Owner)
    requires Reachable(w) && !w.hist.late && o in w.procs && w.procs[o].Looked?
    ensures var v := Step(w, Claim(o));
            o in v.procs ==> v.procs[o] == Claimed(|w.hist.audiences|, w.row.p) && Owns(v.row, o)
  {
    ReachableInv(w);
    assert InStep(w, w.procs[o]);
  }

  /** Recorded chunks cover disjoint key ranges, in order: nobody is recorded twice. */
  lemma ChunksDisjoint(w: World, i: nat, j: nat)
    requires Reachable(w) && !w.hist.late && i < j < |w.hist.recorded|
    ensures !Before(w.hist.recorded[j].lo, w.hist.recorded[i].hi)
    ensures w.hist.recorded[i].keys !! w.hist.recorded[j].keys
  {
    ReachableInv(w);
    ChainDisjoint(w.hist.recorded, w.row.p.cursor, i, j);
  }

  lemma {:induction false} ChainBehind(chunks: seq<Chunk>, cursor: string, i: nat)
    requires Chain(chunks, cursor) && i < |chunks|
    ensures !Before(cursor, chunks[i].hi)
  {
    var n := |chunks| - 1;
    if i == n {
      Irreflexive(cursor);
    } else {
      ChainBehind(chunks[..n], chunks[n].lo, i);
      if Before(cursor, chunks[i].hi) { Transitive(chunks[n].lo, cursor, chunks[i].hi); }
    }
  }

  lemma {:induction false} ChainDisjoint(chunks: seq<Chunk>, cursor: string, i: nat, j: nat)
    requires Chain(chunks, cursor) && i < j < |chunks|
    ensures !Before(chunks[j].lo, chunks[i].hi) && chunks[i].keys !! chunks[j].keys
  {
    var n := |chunks| - 1;
    if j < n {
      ChainDisjoint(chunks[..n], chunks[n].lo, i, j);
    } else {
      ChainBehind(chunks[..n], chunks[n].lo, i);
      ChunkAt(chunks[..n], chunks[n].lo, i);
      forall k | k in chunks[i].keys
        ensures k !in chunks[j].keys
      {
        if k in chunks[j].keys { BeforeThenNotAfterTwice(chunks[j].lo, k, chunks[i].hi); }
      }
    }
  }

  lemma BeforeThenNotAfterTwice(lo: string, k: string, hi: string)
    requires Before(lo, k) && !Before(hi, k)
    ensures Before(lo, hi)
  {
    BeforeThenNotAfter(lo, k, hi);
  }

  lemma {:induction false} ChunkAt(chunks: seq<Chunk>, cursor: string, i: nat)
    requires Chain(chunks, cursor) && i < |chunks|
    ensures forall k :: k in chunks[i].keys ==> Before(chunks[i].lo, k) && !Before(chunks[i].hi, k)
  {
    if i < |chunks| - 1 { ChunkAt(chunks[..|chunks| - 1], chunks[|chunks| - 1].lo, i); }
  }

  /** Each claim leaves at most one chunk unrecorded, and the sends that reach somebody again
      number at most one chunk per takeover. */
  lemma RepeatsPerTakeover(w: World)
    requires Reachable(w) && !w.hist.late && w.hist.audiences != []
    ensures forall i :: 0 <= i < |w.hist.unrecorded| ==> w.hist.unrecorded[i] <= CHUNK
    ensures w.hist.sends - |w.hist.attempted| <= CHUNK * (|w.hist.audiences| - 1)
  {
    ReachableInv(w);
    var n := |w.hist.unrecorded| - 1;
    FewerKeys(w.hist.latest, w.hist.attempted);
    SumBound(w.hist.unrecorded[..n]);
  }

  lemma {:induction false} SumBound(ns: seq<nat>)
    requires forall i :: 0 <= i < |ns| ==> ns[i] <= CHUNK
    ensures Sum(ns) <= CHUNK * |ns|
  {
    if ns != [] { SumBound(ns[..|ns| - 1]); }
  }

  // However late heartbeats land.

  /** Repeats number at most two chunks per takeover: what a late heartbeat recorded behind the back of
      the replica that took over, and the chunk after it. */
  lemma RepeatsAnyway(w: World)
    requires Reachable(w)
    ensures w.hist.audiences == [] ==> w.hist.sends == 0
    ensures w.hist.audiences != [] ==> w.hist.sends - |w.hist.attempted| <= 2 * CHUNK * (|w.hist.audiences| - 1)
  {
    ReachableInv(w);
    if w.hist.audiences != [] {
      var n := |w.hist.unrecorded| - 1;
      FewerKeys(w.hist.latest, w.hist.attempted);
      SumBound(w.hist.unrecorded[..n]);
      SumBound(w.hist.last[..n]);
    }
  }

  /** A claim succeeds exactly when the broadcast is waiting, or running without a heartbeat for longer than the
      stale time, at the clock its replica read. It leaves the row's progress as it is, and starts from that,
      or from what it was before the last heartbeat. */
  lemma ClaimIsOneBehind(w: World, o: Owner)
    requires Reachable(w) && o in w.procs && w.procs[o].Looked?
    ensures var v := Step(w, Claim(o));
            var now := w.procs[o].now;
            && (o in v.procs <==> w.row.state == Requested || (w.row.state == Running && w.row.heartbeat + w.stale < now))
            && v.row == (if o in v.procs then Row(Running, o, now, w.row.p) else w.row)
            && (o in v.procs ==>
                  v.procs[o] == Claimed(|w.hist.audiences|, w.row.p) || v.procs[o] == Claimed(|w.hist.audiences|, w.hist.before))
  {
    ReachableInv(w);
    assert PcInv(w, o, w.procs[o]);
  }

  /** A broadcast stored as done was attempted to everyone present in every claim's audience. */
  lemma DoneReachedEveryone(w: World, k: string)
    requires Reachable(w) && w.row.state == Done && InAll(w, k)
    ensures k in w.hist.attempted
  {
    ReachableInv(w);
  }

  /** Every audience any claim read was this one. */
  ghost predicate FixedAudience(w: World, audience: seq<string>) {
    forall i :: 0 <= i < |w.hist.audiences| && w.hist.audiences[i].Some? ==> w.hist.audiences[i].value == audience
  }

  /** With an audience that does not change between claims, the counts of a done broadcast add up
      to its total, which is the audience's size, however often it was taken over. */
  lemma DoneCountsAddUp(w: World, audience: seq<string>)
    requires Reachable(w) && w.row.state == Done && FixedAudience(w, audience)
    ensures var counts := w.row.p.counts;
            counts.delivered + counts.unreachable + counts.failed == counts.total == |audience|
  {
    ReachableInv(w);
    DoneCounts(w, audience);
  }

  lemma DoneCounts(w: World, audience: seq<string>)
    requires RowInv(w) && AttemptedKnown(w) && w.row.state == Done && FixedAudience(w, audience)
    ensures w.row.p.counts.Reached() == w.row.p.counts.total == |audience|
  {
    KeysCount(audience);
    forall k
      ensures k in audience <==> k in w.row.p.reached
    {
      if k in audience { assert InAll(w, k); }
      if k in w.row.p.reached { assert Known(w, k); }
    }
    assert w.row.p.reached == Keys(audience);
  }

  // Late heartbeats.

  lemma Extend(w: World, a: Action) returns (v: World)
    requires Reachable(w)
    ensures v == Step(w, a) && Reachable(v)
  {
    var w0: World, acts: seq<Action> :| Fresh(w0) && w == Run(w0, acts);
    assert (acts + [a])[..|acts + [a]| - 1] == acts;
    v := Step(w, a);
    assert v == Run(w0, acts + [a]);
  }

  /** The owner's heartbeat makes every claim asked for before it fail exactly when it lands within the
      stale time of its stamp. */
  lemma HeartbeatBlocks(w: World, o: Owner)
    requires Reachable(w) && o in w.procs && w.procs[o].Stamped? && Owns(w.row, o)
    ensures var v := Step(w, Heartbeat(o));
            (forall now :: now <= w.clock ==> Blocked(v.row, now, w.stale)) <==> w.clock <= w.procs[o].at + w.stale
  {
    ReachableInv(w);
    assert PcInv(w, o, w.procs[o]);
    var v := Step(w, Heartbeat(o));
    if w.clock > w.procs[o].at + w.stale { assert !Blocked(v.row, w.clock, w.stale); }
  }

  /** Whenever the owner's heartbeat is about to land later than that, another replica that asks, looks,
      and claims after it carries on from the cursor before it. */
  lemma LateHeartbeatMisleads(w: World, o: Owner, p: Owner) returns (v: World)
    requires Reachable(w) && !w.hist.late && o in w.procs && w.procs[o].Stamped? && Owns(w.row, o)
    requires w.clock > w.procs[o].at + w.stale && p !in w.procs
    ensures Reachable(v) && v.hist.late
    ensures p in v.procs && v.procs[p] == Claimed(|w.hist.audiences|, w.row.p) && Owns(v.row, p)
    ensures Before(w.row.p.cursor, v.row.p.cursor)
  {
    OwnerAhead(w, o);
    v := LookedBefore(w, p);
    v := Extend(v, Heartbeat(o));
    v := Extend(v, Claim(p));
  }

  lemma OwnerAhead(w: World, o: Owner)
    requires Reachable(w) && !w.hist.late && o in w.procs && w.procs[o].Stamped? && Owns(w.row, o)
    ensures var pc := w.procs[o];
            && w.row.heartbeat <= pc.at && pc.claim < |w.hist.unrecorded| == |w.hist.last| && Before(w.row.p.cursor, pc.p.cursor)
  {
    ReachableInv(w);
    assert PcInv(w, o, w.procs[o]) && InStep(w, w.procs[o]);
  }

  /** Another replica reads a row whose heartbeat is stale. */
  lemma LookedBefore(w: World, p: Owner) returns (v: World)
    requires Reachable(w) && w.row.state == Running && w.row.heartbeat < w.clock - w.stale && p !in w.procs
    ensures Reachable(v) && v == At(w, p, Looked(w.clock, w.row.p))
  {
    v := Extend(w, Ask(p));
    v := Extend(v, Look(p));
  }

  // Such runs, from any broadcast just requested.

  lemma RequestedIsFresh(stale: nat, clock: int)
    ensures Fresh(Init(stale, clock))
  {}

  lemma Begin(w: World)
    requires Fresh(w)
    ensures Reachable(w)
  {
    assert w == Run(w, []);
  }

  /** What one person adds to the counts of a run whose audience is one. */
  function AfterOne(p: Progress, hi: string): Progress {
    Progress(hi, p.counts.(total := 1, delivered := p.counts.delivered + 1), p.reached + {hi})
  }

  lemma OneTallied(counts: Counts)
    ensures Tally(counts, [Delivered]) == counts.(delivered := counts.delivered + 1)
  {
    assert Tally(counts, []) == counts;
    assert [Delivered][..0] == [];
  }

  lemma LookedFresh(w: World, p: Owner) returns (v: World)
    requires Reachable(w) && w.row.state == Requested && p !in w.procs
    ensures Reachable(v) && v == At(w, p, Looked(w.clock, w.row.p))
  {
    v := Extend(w, Ask(p));
    v := Extend(v, Look(p));
  }

  /** A replica claims the broadcast. */
  lemma OneClaims(w: World) returns (v: World)
    requires Fresh(w)
    ensures Reachable(v) && v.stale == w.stale && v.clock == w.clock && v.row == Row(Running, 1, w.clock, w.row.p)
    ensures v.procs == map[1 := Claimed(0, w.row.p)]
    ensures v.hist == w.hist.(audiences := [None], unrecorded := [0], last := [0])
  {
    Begin(w);
    v := LookedFresh(w, 1);
    v := Extend(v, Claim(1));
  }

  /** It reads an audience of one. */
  lemma OneReads(w: World, hi: string) returns (v: World)
    requires Fresh(w) && hi != ""
    ensures Reachable(v) && v.stale == w.stale && v.clock == w.clock && v.row == Row(Running, 1, w.clock, w.row.p)
    ensures v.procs == map[1 := Sending(0, [hi], w.row.p.(counts := w.row.p.counts.(total := 1)), 0)]
    ensures v.hist == w.hist.(audiences := [Some([hi])], unrecorded := [0], last := [0])
  {
    v := OneClaims(w);
    FromTheStart([hi]);
    v := Extend(v, Read(1, [hi]));
  }

  function OneChunk(hi: string): Chunk { Chunk("", hi, {hi}) }

  /** It sends to them, reads the clock, and stalls for longer than the stale time. */
  lemma OneStalls(w: World, hi: string) returns (v: World)
    requires Fresh(w) && hi != ""
    ensures Reachable(v) && v.stale == w.stale && v.clock == w.clock + w.stale + 1 && v.row == Row(Running, 1, w.clock, w.row.p)
    ensures v.procs == map[1 := Stamped(0, [hi], AfterOne(w.row.p, hi), 1, OneChunk(hi), w.clock)]
    ensures v.hist == w.hist.(
              audiences := [Some([hi])], unrecorded := [1], last := [0], latest := {hi}, attempted := {hi}, sends := 1)
  {
    v := OneReads(w, hi);
    OneTallied(v.procs[1].p.counts);
    OneSent(v.procs[1], hi);
    v := Extend(v, Send(1, [Delivered]));
    v := Extend(v, Stamp(1));
    v := Extend(v, Tick(w.stale + 1));
  }

  lemma OneSent(pc: Pc, hi: string)
    requires pc.Sending? && pc.audience == [hi] && pc.next == 0
    ensures Part(pc) == [hi] && Keys(Part(pc)) == {hi} && ChunkEnd(pc.audience, 0) == 1
  {}

  /** Another looks, the stalled heartbeat lands, and the other claims: from the start, though the row
      has a chunk recorded. */
  lemma OtherTakesOver(w: World, hi: string) returns (v: World)
    requires Fresh(w) && hi != ""
    ensures Reachable(v) && v.hist.late && v.row.p.cursor == hi && Owns(v.row, 2)
    ensures 2 in v.procs && v.procs[2] == Claimed(1, w.row.p)
    ensures v.hist.audiences == [Some([hi]), None] && v.hist.unrecorded == [0, 0] && v.hist.last == [1, 0]
    ensures v.hist.recorded == [OneChunk(hi)]
  {
    v := OneStalls(w, hi);
    v := LookedBefore(v, 2);
    v := Extend(v, Heartbeat(1));
    v := Extend(v, Claim(2));
  }

  lemma FromTheStart(audience: seq<string>)
    requires Ordered(audience)
    ensures Start(audience, "") == 0
  {}

  /** A claim from the start sends its first chunk and records it. */
  lemma FirstChunk(w: World, o: Owner, k: nat, audience: seq<string>, fates: seq<Fate>) returns (v: World)
    requires Reachable(w) && o in w.procs && w.procs[o].Claimed? && w.procs[o].claim == k && w.procs[o].p.cursor == ""
    requires Owns(w.row, o) && k < |w.hist.audiences| && k < |w.hist.unrecorded| && k < |w.hist.last|
    requires Ordered(audience) && audience != [] && |fates| == ChunkEnd(audience, 0)
    ensures var end := ChunkEnd(audience, 0);
            && Reachable(v) && v.row.p.cursor == audience[end - 1]
            && v.hist.recorded == w.hist.recorded + [Chunk("", audience[end - 1], Keys(audience[..end]))]
  {
    FromTheStart(audience);
    v := Extend(w, Read(o, audience));
    assert v.procs[o].Sending? && v.procs[o].next == 0 && v.procs[o].audience == audience;
    assert audience[0..ChunkEnd(audience, 0)] == audience[..ChunkEnd(audience, 0)];
    v := Extend(v, Send(o, fates));
    v := SentLands(v, o);
  }

  lemma SentLands(w: World, o: Owner) returns (v: World)
    requires Reachable(w) && o in w.procs && w.procs[o].Sent? && Owns(w.row, o)
    requires w.procs[o].claim < |w.hist.unrecorded| && w.procs[o].claim < |w.hist.last|
    ensures Reachable(v) && v.row.p == w.procs[o].p && v.hist.recorded == w.hist.recorded + [w.procs[o].chunk]
  {
    v := Extend(w, Stamp(o));
    v := Extend(v, Heartbeat(o));
  }

  /** Somebody is recorded, and sent to, twice. */
  lemma RecordedTwice(w: World) returns (v: World)
    requires Fresh(w)
    ensures Reachable(v) && v.hist.recorded == [OneChunk("b"), OneChunk("b")]
  {
    v := OtherTakesOver(w, "b");
    assert ["b"][..1] == ["b"] && Keys(["b"]) == {"b"};
    v := FirstChunk(v, 2, 1, ["b"], [Delivered]);
  }

  /** The stored cursor moves back, when the other finds more than a chunk of people before it. */
  lemma CursorMovesBack(w: World, audience: seq<string>) returns (u: World, v: World)
    requires Fresh(w) && Ordered(audience) && |audience| > CHUNK
    ensures Reachable(u) && Reachable(v) && u.row.p.cursor == audience[CHUNK] && Before(v.row.p.cursor, u.row.p.cursor)
    ensures |v.hist.recorded| == 2 && v.hist.recorded[0].hi == u.row.p.cursor && v.hist.recorded[1].hi == v.row.p.cursor
  {
    u := OtherTakesOver(w, audience[CHUNK]);
    v := FirstChunk(u, 2, 1, audience, seq(CHUNK, i => Delivered));
  }

  function Name(n: nat): string { seq(n + 1, i => 'a') }

  lemma {:induction false} LongerIsLater(m: nat, n: nat)
    requires m < n
    ensures Before(Name(m), Name(n))
  {
    assert Name(n)[1..] == Name(n - 1);
    if m > 0 {
      assert Name(m)[1..] == Name(m - 1);
      LongerIsLater(m - 1, n - 1);
    } else {
      assert Name(0)[1..] == "";
    }
  }

  /** There is such an audience. */
  lemma Crowd(size: nat) returns (audience: seq<string>)
    ensures Ordered(audience) && |audience| == size
  {
    audience := seq(size, i requires 0 <= i < size => Name(i));
    forall i, j | 0 <= i < j < size
      ensures Before(audience[i], audience[j])
    {
      LongerIsLater(i, j);
    }
  }
}
