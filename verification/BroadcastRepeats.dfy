/** What a late heartbeat costs a broadcast (internal/httpserver/broadcast.go): whenever the owner's
    heartbeat is about to land more than the stale time after its stamp, another replica can take over
    and repeat two chunks, one of them recorded a second time. */
module BroadcastRepeats {
  import opened Order
  import opened Broadcast
  import opened BroadcastInv
  import opened BroadcastRuns

  // A chunk is a stretch of its audience.

  /** Where a replica stands in its walk through the audience. */
  ghost predicate Walks(pc: Pc) {
    match pc
    case Sending(_, audience, p, next) => Ordered(audience) && next == Start(audience, p.cursor)
    case Sent(_, audience, p, next, chunk) => p.cursor == chunk.hi && Stretch(audience, next, chunk)
    case Stamped(_, audience, p, next, chunk, _) => p.cursor == chunk.hi && Stretch(audience, next, chunk)
    case _ => true
  }

  /** The chunk is what follows its lower end in the audience, and next comes right after it. */
  ghost predicate Stretch(audience: seq<string>, next: nat, chunk: Chunk) {
    var start := Start(audience, chunk.lo);
    && Ordered(audience) && start < next <= |audience| && next == ChunkEnd(audience, start)
    && chunk.hi == audience[next - 1] && chunk.keys == Keys(audience[start..next])
  }

  ghost predicate AllWalk(w: World) { forall o :: o in w.procs ==> Walks(w.procs[o]) }

  lemma {:induction false} StartAfter(audience: seq<string>, i: nat)
    requires Ordered(audience) && i < |audience|
    ensures Start(audience, audience[i]) == i + 1
  {
    var s := Start(audience, audience[i]);
    if s <= i { NotBoth(audience, s, i); }
    if i + 1 < |audience| { assert Before(audience[i], audience[i + 1]); }
  }

  lemma NotBoth(audience: seq<string>, s: nat, i: nat)
    requires Ordered(audience) && s <= i < |audience|
    ensures !Before(audience[i], audience[s])
  {
    Irreflexive(audience[i]);
    if s < i { Asymmetric(audience[s], audience[i]); }
  }

  lemma {:induction false} ChunkWalks(pc: Pc, fates: seq<Fate>)
    requires pc.Sending? && pc.next < |pc.audience| && Walks(pc)
    ensures Walks(AfterChunk(pc, fates))
  {}

  lemma {:induction false} HeartbeatWalks(w: World, o: Owner, pc: Pc)
    requires pc.Stamped? && Walks(pc)
    ensures o in HeartbeatStep(w, o, pc).procs && HeartbeatStep(w, o, pc).procs[o].Sending? ==>
              Walks(HeartbeatStep(w, o, pc).procs[o])
  {
    StartAfter(pc.audience, pc.next - 1);
  }

  lemma {:induction false} WalkStep(w: World, a: Action)
    requires AllWalk(w)
    ensures AllWalk(Step(w, a))
  {
    if !a.Tick? && !a.Ask? && !a.Stop? && a.o in w.procs {
      var pc := w.procs[a.o];
      assert Walks(pc);
      if pc.Sending? && pc.next < |pc.audience| && a.Send? { ChunkWalks(pc, a.fates); }
      if pc.Stamped? { HeartbeatWalks(w, a.o, pc); }
      WalkAdvance(w, a, pc);
    }
  }

  lemma {:induction false} WalkAdvance(w: World, a: Action, pc: Pc)
    requires !a.Tick? && !a.Ask? && !a.Stop? && AllWalk(w) && a.o in w.procs && w.procs[a.o] == pc
    requires a.Send? && pc.Sending? && pc.next < |pc.audience| ==> Walks(AfterChunk(pc, a.fates))
    requires pc.Stamped? && a.Heartbeat? && a.o in HeartbeatStep(w, a.o, pc).procs ==> Walks(HeartbeatStep(w, a.o, pc).procs[a.o])
    ensures AllWalk(Advance(w, a, pc))
  {
    assert Walks(pc);
  }

  lemma {:induction false} RunWalks(w: World, acts: seq<Action>)
    requires AllWalk(w)
    ensures AllWalk(Run(w, acts))
  {
    if acts != [] {
      RunWalks(w, acts[..|acts| - 1]);
      WalkStep(Run(w, acts[..|acts| - 1]), acts[|acts| - 1]);
    }
  }

  lemma ReachableWalks(w: World)
    requires Reachable(w)
    ensures AllWalk(w)
  {
    var w0: World, acts: seq<Action> :| Fresh(w0) && w == Run(w0, acts);
    RunWalks(w0, acts);
  }

  // The continuation that repeats.

  /** How many sends reached somebody who had been sent to before. */
  function Repeats(w: World): int { w.hist.sends - |w.hist.attempted| }

  /** The size of the chunk that comes next. */
  function Ahead(audience: seq<string>, next: nat): nat { if next < |audience| then ChunkEnd(audience, next) - next else 0 }

  function AheadKeys(audience: seq<string>, next: nat): set<string> {
    if next < |audience| then Keys(audience[next..ChunkEnd(audience, next)]) else {}
  }

  lemma {:induction false} StretchSize(audience: seq<string>, i: nat, j: nat)
    requires Ordered(audience) && i <= j <= |audience|
    ensures |Keys(audience[i..j])| == j - i
  {
    KeysCount(audience[i..j]);
  }

  /** The rest of the world is as it was but for one replica's place and the sends. */
  ghost predicate OnlySent(w: World, v: World, o: Owner, keys: set<string>) {
    && v == w.(procs := v.procs, hist := w.hist.(
          unrecorded := v.hist.unrecorded, latest := v.hist.latest, attempted := w.hist.attempted + keys, sends := w.hist.sends + |keys|))
    && |v.hist.unrecorded| == |w.hist.unrecorded|
    && forall q :: q in w.procs && q != o ==> q in v.procs && v.procs[q] == w.procs[q]
  }

  lemma {:induction false} DoSend(w: World, o: Owner, fates: seq<Fate>) returns (v: World)
    requires Reachable(w) && o in w.procs && w.procs[o].Sending? && w.procs[o].claim < |w.hist.unrecorded|
    requires var pc := w.procs[o]; pc.next < |pc.audience| && |fates| == Ahead(pc.audience, pc.next)
    ensures var pc := w.procs[o];
            Reachable(v) && v == At(w, o, AfterChunk(pc, fates)).(hist := SentTo(w.hist, pc.claim, Keys(Part(pc))))
  {
    v := Extend(w, Send(o, fates));
  }

  /** Where a replica stands once it has sent its next chunk, if there is one. */
  ghost predicate HasSent(w: World, v: World, o: Owner)
    requires o in w.procs && w.procs[o].Sending?
  {
    var pc := w.procs[o];
    var keys := AheadKeys(pc.audience, pc.next);
    && OnlySent(w, v, o, keys) && |keys| == Ahead(pc.audience, pc.next)
    && (pc.next < |pc.audience| ==>
          && o in v.procs && v.procs[o].Sent? && v.procs[o].claim == pc.claim && v.procs[o].audience == pc.audience
          && var end := ChunkEnd(pc.audience, pc.next);
             v.procs[o].next == end && v.procs[o].chunk == Chunk(pc.p.cursor, pc.audience[end - 1], keys))
  }

  lemma {:induction false} SendNext(w: World, o: Owner) returns (v: World)
    requires Reachable(w) && o in w.procs && w.procs[o].Sending? && w.procs[o].claim < |w.hist.unrecorded|
    ensures Reachable(v) && HasSent(w, v, o)
  {
    var pc := w.procs[o];
    if pc.next >= |pc.audience| { return w; }
    var fates := seq(Ahead(pc.audience, pc.next), i => Delivered);
    v := DoSend(w, o, fates);
    ReachableWalks(w);
    assert Walks(pc);
    StretchSize(pc.audience, pc.next, ChunkEnd(pc.audience, pc.next));
    SentIs(w, v, o, fates);
  }

  lemma {:induction false} SentIs(w: World, v: World, o: Owner, fates: seq<Fate>)
    requires o in w.procs && w.procs[o].Sending? && w.procs[o].claim < |w.hist.unrecorded|
    requires var pc := w.procs[o];
             && pc.next < |pc.audience| && |AheadKeys(pc.audience, pc.next)| == Ahead(pc.audience, pc.next)
             && v == At(w, o, AfterChunk(pc, fates)).(hist := SentTo(w.hist, pc.claim, Keys(Part(pc))))
    ensures HasSent(w, v, o)
  {
    assert Keys(Part(w.procs[o])) == AheadKeys(w.procs[o].audience, w.procs[o].next);
  }

  /** It reads the clock and records that chunk. */
  lemma {:induction false} RecordNext(w: World, o: Owner) returns (v: World)
    requires Reachable(w) && o in w.procs && w.procs[o].Sent? && Owns(w.row, o)
    requires w.procs[o].claim < |w.hist.unrecorded| == |w.hist.last|
    ensures var pc := w.procs[o];
            && Reachable(v) && o in v.procs && v.procs[o] == Sending(pc.claim, pc.audience, pc.p, pc.next)
            && v.hist.recorded == w.hist.recorded + [pc.chunk] && v.hist.audiences == w.hist.audiences
            && v.hist.sends == w.hist.sends && v.hist.attempted == w.hist.attempted && |v.hist.unrecorded| == |w.hist.unrecorded|
  {
    v := Extend(w, Stamp(o));
    v := Extend(v, Heartbeat(o));
  }

  lemma {:induction false} DoHeartbeat(w: World, o: Owner) returns (v: World)
    requires Reachable(w) && o in w.procs && w.procs[o].Stamped?
    ensures Reachable(v) && v == HeartbeatStep(w, o, w.procs[o])
  {
    v := Extend(w, Heartbeat(o));
  }

  lemma {:induction false} DoClaim(w: World, p: Owner) returns (v: World)
    requires Reachable(w) && p in w.procs && w.procs[p].Looked?
    ensures Reachable(v) && v == ClaimStep(w, p, w.procs[p].now, w.procs[p].p)
  {
    v := Extend(w, Claim(p));
  }

  /** Another replica looks, the owner's heartbeat lands too late to stop it, and it claims. */
  lemma {:induction false} TakenOver(w: World, o: Owner, p: Owner) returns (v: World)
    requires Reachable(w) && !w.hist.late && o in w.procs && w.procs[o].Stamped? && Owns(w.row, o)
    requires w.clock > w.procs[o].at + w.stale && p !in w.procs
    ensures Reachable(v) && ClaimedFrom(w, v, o, p)
  {
    OwnerAhead(w, o);
    OwnerCounts(w, o);
    v := LookedBefore(w, p);
    v := DoHeartbeat(v, o);
    v := DoClaim(v, p);
  }

  lemma OwnerCounts(w: World, o: Owner)
    requires Reachable(w) && o in w.procs && w.procs[o].Stamped?
    ensures w.procs[o].claim < |w.hist.unrecorded| == |w.hist.last| == |w.hist.audiences|
  {
    ReachableInv(w);
    assert PcInv(w, o, w.procs[o]);
  }

  /** p has claimed from the progress the row had before the heartbeat of o, which goes on. */
  ghost predicate ClaimedFrom(w: World, v: World, o: Owner, p: Owner)
    requires o in w.procs && w.procs[o].Stamped?
  {
    var pc := w.procs[o];
    && o != p && o in v.procs && v.procs[o] == Sending(pc.claim, pc.audience, pc.p, pc.next)
    && p in v.procs && v.procs[p] == Claimed(|w.hist.audiences|, w.row.p)
    && Owns(v.row, p) && |v.hist.audiences| == |w.hist.audiences| + 1
    && v.hist.recorded == w.hist.recorded + [pc.chunk]
    && v.hist.sends == w.hist.sends && v.hist.attempted == w.hist.attempted
    && pc.claim < |w.hist.audiences| && |v.hist.unrecorded| == |v.hist.last| == |v.hist.audiences|
  }

  /** What the owner's late chunk covers, and the row before it. */
  lemma {:induction false} LateChunk(w: World, o: Owner)
    requires Reachable(w) && !w.hist.late && o in w.procs && w.procs[o].Stamped? && Owns(w.row, o)
    ensures var pc := w.procs[o];
            && Stretch(pc.audience, pc.next, pc.chunk) && pc.chunk.lo == w.row.p.cursor && pc.chunk.keys <= w.hist.attempted
            && pc.chunk.keys != {}
  {
    ReachableInv(w);
    ReachableWalks(w);
    var pc := w.procs[o];
    assert PcInv(w, o, pc) && InStep(w, pc) && Walks(pc);
    StretchSize(pc.audience, Start(pc.audience, pc.chunk.lo), pc.next);
  }

  lemma {:induction false} DoRead(w: World, p: Owner, audience: seq<string>) returns (v: World)
    requires Reachable(w) && p in w.procs && w.procs[p].Claimed? && Ordered(audience) && w.procs[p].claim < |w.hist.audiences|
    ensures Reachable(v) && v == ReadStep(w, p, w.procs[p], audience)
  {
    v := Extend(w, Read(p, audience));
  }

  /** It reads the audience the other is walking, and sends and records the very chunk that was recorded last. */
  lemma {:induction false} ChunkAgain(w: World, p: Owner, audience: seq<string>, chunk: Chunk, next: nat) returns (v: World)
    requires Reachable(w) && p in w.procs && w.procs[p].Claimed? && Owns(w.row, p)
    requires w.procs[p].claim < |w.hist.unrecorded| == |w.hist.last| == |w.hist.audiences|
    requires Stretch(audience, next, chunk) && chunk.lo == w.procs[p].p.cursor
    ensures Reachable(v) && p in v.procs && v.procs[p].Sending? && v.procs[p].audience == audience && v.procs[p].next == next
    ensures v.procs[p].claim < |v.hist.unrecorded| && |v.hist.audiences| == |w.hist.audiences|
    ensures v.hist.recorded == w.hist.recorded + [chunk]
    ensures v.hist.sends == w.hist.sends + |chunk.keys| && v.hist.attempted == w.hist.attempted + chunk.keys
  {
    v := DoRead(w, p, audience);
    v := SendNext(v, p);
    v := RecordNext(v, p);
  }

  /** The overtaken replica sends its next chunk; the other sends and records the one before it, and
      then sends the next one too. */
  lemma {:induction false} BothGoOn(w: World, o: Owner, p: Owner, chunk: Chunk) returns (v: World)
    requires Reachable(w) && o in w.procs && p in w.procs && w.procs[o].Sending? && w.procs[p].Claimed? && Owns(w.row, p)
    requires w.procs[o].claim < |w.hist.unrecorded| && w.procs[p].claim < |w.hist.unrecorded| == |w.hist.last| == |w.hist.audiences|
    requires Stretch(w.procs[o].audience, w.procs[o].next, chunk) && chunk.lo == w.procs[p].p.cursor
    ensures var pc := w.procs[o];
            && Reachable(v) && |v.hist.audiences| == |w.hist.audiences|
            && v.hist.recorded == w.hist.recorded + [chunk]
            && v.hist.sends == w.hist.sends + |chunk.keys| + 2 * Ahead(pc.audience, pc.next)
            && v.hist.attempted == w.hist.attempted + chunk.keys + AheadKeys(pc.audience, pc.next)
  {
    var pc := w.procs[o];
    v := SendNext(w, o);
    v := ChunkAgain(v, p, pc.audience, chunk, pc.next);
    v := SendNext(v, p);
  }

  /** Whenever the owner's heartbeat is about to land later than the stale time after its stamp, there
      is a continuation with one takeover more in which its chunk is recorded twice, and everyone in
      it and in the chunk after it is sent to once more than before. */
  lemma {:induction false} LateHeartbeatRepeats(w: World, o: Owner, p: Owner) returns (v: World)
    requires Reachable(w) && !w.hist.late && o in w.procs && w.procs[o].Stamped? && Owns(w.row, o)
    requires w.clock > w.procs[o].at + w.stale && p !in w.procs
    ensures var pc := w.procs[o];
            var ahead := Ahead(pc.audience, pc.next);
            && Reachable(v) && |v.hist.audiences| == |w.hist.audiences| + 1
            && v.hist.recorded == w.hist.recorded + [pc.chunk, pc.chunk] && pc.chunk.keys != {}
            && v.hist.sends == w.hist.sends + |pc.chunk.keys| + 2 * ahead
            && Repeats(v) >= Repeats(w) + |pc.chunk.keys| + ahead
  {
    var pc := w.procs[o];
    LateChunk(w, o);
    v := TakenOver(w, o, p);
    v := BothGoOn(v, o, p, pc.chunk);
    ReachedAgain(w.hist.attempted, pc.chunk.keys, AheadKeys(pc.audience, pc.next));
    AheadSize(pc.audience, pc.next);
  }

  lemma ReachedAgain(a: set<string>, again: set<string>, b: set<string>)
    requires again <= a
    ensures |a + again + b| <= |a| + |b|
  {
    assert a + again + b == a + (b - a);
    assert b == (b - a) + (b * a);
  }

  lemma {:induction false} AheadSize(audience: seq<string>, next: nat)
    requires Ordered(audience)
    ensures |AheadKeys(audience, next)| == Ahead(audience, next)
  {
    if next < |audience| { StretchSize(audience, next, ChunkEnd(audience, next)); }
  }

  /** With a full chunk about to be recorded late, and another to come, that is two full chunks for one
      takeover: twice what a takeover is meant to repeat. */
  lemma {:induction false} LateHeartbeatDoubles(w: World, o: Owner, p: Owner) returns (v: World)
    requires Reachable(w) && !w.hist.late && o in w.procs && w.procs[o].Stamped? && Owns(w.row, o)
    requires w.clock > w.procs[o].at + w.stale && p !in w.procs
    requires |w.procs[o].chunk.keys| == CHUNK && w.procs[o].next + CHUNK <= |w.procs[o].audience|
    ensures Reachable(v) && |v.hist.audiences| == |w.hist.audiences| + 1
    ensures Repeats(v) >= Repeats(w) + 2 * CHUNK
  {
    v := LateHeartbeatRepeats(w, o, p);
  }

  // A run from the request on.

  /** One replica claims a broadcast to the audience and sends its first chunk. */
  lemma {:induction false} FirstSends(w: World, audience: seq<string>) returns (v: World)
    requires Fresh(w) && Ordered(audience) && audience != []
    ensures Reachable(v) && !v.hist.late && v.procs.Keys == {1} && v.procs[1].Sent? && Owns(v.row, 1)
    ensures v.procs[1].audience == audience && v.procs[1].next == ChunkEnd(audience, 0)
    ensures |v.procs[1].chunk.keys| == ChunkEnd(audience, 0)
    ensures |v.hist.audiences| == 1 && v.hist.sends == |v.hist.attempted| == ChunkEnd(audience, 0)
  {
    v := OneClaims(w);
    FromTheStart(audience);
    v := DoRead(v, 1, audience);
    assert v.procs.Keys == {1};
    v := DoSend(v, 1, seq(Ahead(audience, 0), i => Delivered));
    StretchSize(audience, 0, ChunkEnd(audience, 0));
    assert v.hist.attempted == v.procs[1].chunk.keys;
  }

  /** It reads the clock for its heartbeat, and stalls. */
  lemma {:induction false} Stalls(w: World, o: Owner) returns (v: World)
    requires Reachable(w) && o in w.procs && w.procs[o].Sent?
    ensures var pc := w.procs[o];
            && Reachable(v) && v.clock > w.clock + w.stale
            && v == At(w, o, Stamped(pc.claim, pc.audience, pc.p, pc.next, pc.chunk, w.clock)).(clock := v.clock)
  {
    v := Extend(w, Stamp(o));
    v := Extend(v, Tick(w.stale + 1));
  }

  /** From any broadcast just requested to an audience of two chunks: one takeover, and everyone has been
      sent to twice. The bound of two chunks is met. */
  lemma {:induction false} EveryoneTwice(w: World, audience: seq<string>) returns (v: World)
    requires Fresh(w) && Ordered(audience) && |audience| == 2 * CHUNK
    ensures Reachable(v) && |v.hist.audiences| == 2
    ensures v.hist.sends == 4 * CHUNK && |v.hist.attempted| == 2 * CHUNK
  {
    var u := FirstSends(w, audience);
    u := Stalls(u, 1);
    assert Repeats(u) == 0 && ChunkEnd(audience, 0) == CHUNK && Ahead(audience, CHUNK) == CHUNK;
    v := LateHeartbeatRepeats(u, 1, 2);
    RepeatsAnyway(v);
  }

  lemma {:induction false} SomeRequested(stale: nat, clock: int) returns (w: World)
    ensures Fresh(w) && w.stale == stale && w.clock == clock
  {
    w := Init(stale, clock);
  }

  /** There is such a broadcast. */
  lemma {:induction false} FiftyTwice(stale: nat, clock: int) returns (v: World)
    ensures Reachable(v) && |v.hist.audiences| == 2
    ensures v.hist.sends == 4 * CHUNK && |v.hist.attempted| == 2 * CHUNK
  {
    var audience := Crowd(2 * CHUNK);
    var w := SomeRequested(stale, clock);
    v := EveryoneTwice(w, audience);
  }
}
