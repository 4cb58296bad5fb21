/** Every action of every replica keeps the broadcast's invariant (internal/httpserver/broadcast.go). */
module BroadcastInv {
  import opened Order
  import opened Broadcast

  // What a longer history keeps.

  /** More was attempted, and at most more audiences are known. */
  ghost predicate Wider(w: World, v: World) {
    && w.hist.attempted <= v.hist.attempted
    && (forall k :: InAll(v, k) ==> InAll(w, k))
    && (forall k :: Known(w, k) ==> Known(v, k))
  }

  lemma GoodStays(w: World, v: World, p: Progress)
    requires Wider(w, v) && Good(w, p)
    ensures Good(v, p)
  {}

  lemma SameAudiences(w: World, v: World)
    requires v.hist.audiences == w.hist.audiences && w.hist.attempted <= v.hist.attempted
    ensures Wider(w, v) && Wider(v, w.(hist := w.hist.(attempted := v.hist.attempted)))
    ensures forall k :: InAll(v, k) == InAll(w, k)
  {}

  /** Nobody but the replicas that just read the clock is newly about to heartbeat. */
  ghost predicate NoOlderStamps(w: World, v: World) {
    forall q :: q in v.procs && v.procs[q].Stamped? ==> (q in w.procs && w.procs[q] == v.procs[q]) || v.procs[q].at == w.clock
  }

  /** The store's row stays, as does the history but for one claim's own. */
  ghost predicate OwnStep(w: World, v: World, k: nat) {
    && v.row == w.row && v.stale == w.stale && w.clock <= v.clock && v.hist.before == w.hist.before
    && Wider(w, v) && NoOlderStamps(w, v)
    && |v.hist.audiences| == |w.hist.audiences| && |v.hist.unrecorded| == |w.hist.unrecorded| && v.hist.last == w.hist.last
    && (forall i :: 0 <= i < |w.hist.audiences| && i != k ==> v.hist.audiences[i] == w.hist.audiences[i])
    && (forall i :: 0 <= i < |w.hist.unrecorded| && i != k ==> v.hist.unrecorded[i] == w.hist.unrecorded[i])
    && (k + 1 != |w.hist.audiences| ==> v.hist.latest == w.hist.latest)
  }

  lemma OtherKeeps(w: World, v: World, k: nat, q: Owner, pc: Pc)
    requires OwnStep(w, v, k) && PcInv(w, q, pc) && (Active(pc) ==> pc.claim != k)
    ensures PcInv(v, q, pc)
  {
    if !pc.Asked? { GoodStays(w, v, pc.p); }
  }

  /** Everyone else keeps their place over a step of one replica that leaves the row alone. */
  lemma OthersKeep(w: World, v: World, o: Owner, k: nat)
    requires OwnStep(w, v, k) && (forall q :: q in w.procs ==> PcInv(w, q, w.procs[q]))
    requires forall q :: q in v.procs && q != o ==> q in w.procs && v.procs[q] == w.procs[q]
    requires forall q :: q in w.procs && q != o && Active(w.procs[q]) ==> w.procs[q].claim != k
    ensures forall q :: q in v.procs && q != o ==> PcInv(v, q, v.procs[q])
  {
    forall q | q in v.procs && q != o
      ensures PcInv(v, q, v.procs[q])
    {
      OtherKeeps(w, v, k, q, w.procs[q]);
    }
  }

  /** The row's own part of the invariant, over such a step. */
  lemma RowStays(w: World, v: World)
    requires RowInv(w) && v.row == w.row && v.hist.before == w.hist.before && w.clock <= v.clock && Wider(w, v)
    requires v.hist.audiences == w.hist.audiences
    ensures RowInv(v)
  {
    GoodStays(w, v, w.row.p);
    GoodStays(w, v, w.hist.before);
  }

  /** Such a step keeps the invariant if it does so for what it changes. */
  lemma OwnStepKeeps(w: World, v: World, o: Owner, k: nat)
    requires Inv(w) && OwnStep(w, v, k) && v.hist.audiences == w.hist.audiences && SendsInv(v)
    requires forall x :: x in v.hist.attempted ==> x in w.hist.attempted || (k < |w.hist.audiences| && w.hist.audiences[k].Some? && x in w.hist.audiences[k].value)
    requires forall q :: q in v.procs && q != o ==> q in w.procs && v.procs[q] == w.procs[q]
    requires forall q :: q in w.procs && q != o && Active(w.procs[q]) ==> w.procs[q].claim != k
    requires o in v.procs ==> PcInv(v, o, v.procs[o])
    requires o in v.procs && Active(v.procs[o]) ==> o in w.procs && Active(w.procs[o]) && w.procs[o].claim == v.procs[o].claim
    requires !v.hist.late ==> Prompt(v)
    ensures Inv(v)
  {
    OthersKeep(w, v, o, k);
    RowStays(w, v);
  }

  // Steps that only move a replica.

  lemma LeaveKeeps(w: World, o: Owner)
    requires Inv(w)
    ensures Inv(Leave(w, o))
  {
    var v := Leave(w, o);
    SameAudiences(w, v);
    OwnStepKeeps(w, v, o, |w.hist.audiences|);
  }

  /** A replica's own place changes and nothing else does. */
  lemma MoveKeeps(w: World, o: Owner, pc: Pc)
    requires Inv(w) && PcInv(w, o, pc) && (pc.Stamped? ==> pc.at == w.clock) && (!w.hist.late ==> InStep(w, pc))
    requires Active(pc) ==> o in w.procs && Active(w.procs[o]) && w.procs[o].claim == pc.claim
    requires pc.Looked? ==> pc.p == w.row.p
    ensures Inv(At(w, o, pc))
  {
    var v := At(w, o, pc);
    SameAudiences(w, v);
    MovedOwn(w, v, o, pc);
    if !w.hist.late { MovedPrompt(w, o, pc); }
    OwnStepKeeps(w, v, o, |w.hist.audiences|);
  }

  lemma MovedPrompt(w: World, o: Owner, pc: Pc)
    requires Prompt(w) && InStep(w, pc)
    ensures Prompt(At(w, o, pc))
  {
    var v := At(w, o, pc);
    forall q | q in v.procs
      ensures InStep(v, v.procs[q])
    {
      if q != o { assert InStep(w, w.procs[q]); }
    }
  }

  lemma MovedOwn(w: World, v: World, o: Owner, pc: Pc)
    requires PcInv(w, o, pc) && v == At(w, o, pc) && (pc.Stamped? ==> pc.at == w.clock)
    requires pc.Looked? ==> pc.p == w.row.p
    ensures PcInv(v, o, pc)
  {
    SameAudiences(w, v);
    if !pc.Asked? { GoodStays(w, v, pc.p); }
  }

  lemma SumPush(ns: seq<nat>, n: nat)
    ensures Sum(ns + [n]) == Sum(ns) + n
  {
    assert (ns + [n])[..|ns|] == ns;
  }

  lemma {:induction false} SumSet(ns: seq<nat>, i: nat, n: nat)
    requires i < |ns|
    ensures Sum(ns[i := n]) == Sum(ns) - ns[i] + n
  {
    var last := |ns| - 1;
    if i == last {
      assert ns[i := n][..last] == ns[..last];
    } else {
      assert ns[i := n][..last] == ns[..last][i := n];
      SumSet(ns[..last], i, n);
    }
  }

  // ClaimBroadcast.

  lemma LaterClaim(w: World, v: World)
    requires v.hist.audiences == w.hist.audiences + [None] && v.hist.attempted == w.hist.attempted
    ensures Wider(w, v)
  {
    assert forall i :: 0 <= i < |w.hist.audiences| ==> v.hist.audiences[i] == w.hist.audiences[i];
  }

  lemma ClaimRow(w: World, o: Owner, now: int, p: Progress)
    requires RowInv(w) && SendsInv(w) && Claimable(w.row, now, w.stale) && now <= w.clock
    requires Good(w, p) && (p == w.row.p || p == w.hist.before)
    ensures var v := ClaimStep(w, o, now, p); RowInv(v) && SendsInv(v)
  {
    var v := ClaimStep(w, o, now, p);
    LaterClaim(w, v);
    GoodStays(w, v, w.row.p);
    GoodStays(w, v, w.hist.before);
    SumPush(w.hist.unrecorded, 0);
    SumPush(w.hist.last, 0);
  }

  lemma ClaimPcs(w: World, o: Owner, now: int, p: Progress)
    requires Inv(w) && o in w.procs && w.procs[o] == Looked(now, p) && Claimable(w.row, now, w.stale)
    ensures var v := ClaimStep(w, o, now, p);
            Apart(v) && forall q :: q in v.procs ==> PcInv(v, q, v.procs[q])
  {
    assert PcInv(w, o, w.procs[o]);
    var v := ClaimStep(w, o, now, p);
    LaterClaim(w, v);
    forall q | q in v.procs
      ensures PcInv(v, q, v.procs[q])
      ensures q != o && Active(v.procs[q]) ==> v.procs[q].claim < |w.hist.audiences|
    {
      if q == o {
        GoodStays(w, v, p);
      } else {
        assert PcInv(w, q, w.procs[q]);
        ClaimOther(w, v, o, now, q, w.procs[q]);
      }
    }
  }

  lemma ClaimOther(w: World, v: World, o: Owner, now: int, q: Owner, pc: Pc)
    requires PcInv(w, q, pc) && Wider(w, v) && q != o && Claimable(w.row, now, w.stale) && now <= w.clock
    requires SendsInv(w) && (w.row.state == Requested ==> w.hist.audiences == [])
    requires exists p :: v == ClaimStep(w, o, now, p)
    ensures PcInv(v, q, pc)
  {
    if !pc.Asked? { GoodStays(w, v, pc.p); }
  }

  lemma ClaimPrompt(w: World, o: Owner, now: int, p: Progress)
    requires Inv(w) && !w.hist.late && o in w.procs && w.procs[o] == Looked(now, p) && Claimable(w.row, now, w.stale)
    ensures Prompt(ClaimStep(w, o, now, p))
  {
    var v := ClaimStep(w, o, now, p);
    SumPush(w.hist.unrecorded, 0);
    assert InStep(w, w.procs[o]);
    forall q | q in v.procs
      ensures InStep(v, v.procs[q])
    {
      if q != o { assert PcInv(w, q, w.procs[q]) && InStep(w, w.procs[q]); }
    }
  }

  /** A claim that succeeds starts a new one, from the row's progress or from what it said before the
      last heartbeat. */
  lemma ClaimKeeps(w: World, o: Owner, now: int, p: Progress)
    requires Inv(w) && o in w.procs && w.procs[o] == Looked(now, p)
    ensures Inv(ClaimStep(w, o, now, p))
  {
    assert PcInv(w, o, w.procs[o]);
    if Claimable(w.row, now, w.stale) {
      ClaimRow(w, o, now, p);
      ClaimPcs(w, o, now, p);
      LaterClaim(w, ClaimStep(w, o, now, p));
      if !w.hist.late { ClaimPrompt(w, o, now, p); }
    } else {
      LeaveKeeps(w, o);
    }
  }

  // broadcastAudience.

  lemma StartSplits(audience: seq<string>, cursor: string)
    requires Ordered(audience)
    ensures Split(audience, cursor, Start(audience, cursor))
  {
    var i := Start(audience, cursor);
    forall j | i <= j < |audience|
      ensures Before(cursor, audience[j])
    {
      if i < j { Transitive(cursor, audience[i], audience[j]); }
    }
  }

  /** An audience read now only narrows what is in all of them. */
  lemma ReadWider(w: World, v: World, k: nat, audience: seq<string>)
    requires k < |w.hist.audiences| && w.hist.audiences[k].None?
    requires v.hist == w.hist.(audiences := w.hist.audiences[k := Some(audience)])
    ensures Wider(w, v)
  {
    assert forall i :: 0 <= i < |w.hist.audiences| && w.hist.audiences[i].Some? ==> v.hist.audiences[i] == w.hist.audiences[i];
  }

  lemma ReadRow(w: World, v: World, k: nat, audience: seq<string>)
    requires RowInv(w) && v.row == w.row && v.clock == w.clock && k < |w.hist.audiences| && w.hist.audiences[k].None?
    requires w.row.state == Done ==> k + 1 != |w.hist.audiences|
    requires v.hist == w.hist.(audiences := w.hist.audiences[k := Some(audience)])
    ensures RowInv(v)
  {
    ReadWider(w, v, k, audience);
    GoodStays(w, v, w.row.p);
    GoodStays(w, v, w.hist.before);
  }

  lemma ReadOwn(w: World, o: Owner, audience: seq<string>)
    requires Ordered(audience) && o in w.procs && w.procs[o].Claimed? && PcInv(w, o, w.procs[o])
    ensures var v := ReadStep(w, o, w.procs[o], audience); o in v.procs && PcInv(v, o, v.procs[o])
  {
    var pc := w.procs[o];
    var v := ReadStep(w, o, pc, audience);
    StartSplits(audience, pc.p.cursor);
    ReadWider(w, v, pc.claim, audience);
    GoodStays(w, v, pc.p);
  }

  lemma ReadKeeps(w: World, o: Owner, audience: seq<string>)
    requires Inv(w) && o in w.procs && w.procs[o].Claimed?
    ensures Inv(ReadStep(w, o, w.procs[o], audience))
  {
    var pc := w.procs[o];
    assert PcInv(w, o, pc);
    if Ordered(audience) {
      var v := ReadStep(w, o, pc, audience);
      ReadWider(w, v, pc.claim, audience);
      ReadRow(w, v, pc.claim, audience);
      ReadOwn(w, o, audience);
      OthersKeep(w, v, o, pc.claim);
      if !w.hist.late { ReadPrompt(w, v, o); }
    }
  }

  lemma ReadPrompt(w: World, v: World, o: Owner)
    requires Prompt(w) && o in w.procs && w.procs[o].Claimed? && InStep(w, w.procs[o]) && v.row == w.row && v.stale == w.stale
    requires v.hist == w.hist.(audiences := v.hist.audiences) && |v.hist.audiences| == |w.hist.audiences|
    requires exists audience: seq<string>, next: nat, total: nat ::
               v.procs == w.procs[o := Sending(w.procs[o].claim, audience, w.procs[o].p.(counts := w.procs[o].p.counts.(total := total)), next)]
    ensures Prompt(v)
  {
    forall q | q in v.procs
      ensures InStep(v, v.procs[q])
    {
      if q != o { assert InStep(w, w.procs[q]); }
    }
  }

  // A chunk of sends.

  /** Nobody is in an ordered audience twice. */
  lemma {:induction false} KeysCount(audience: seq<string>)
    requires Ordered(audience)
    ensures |Keys(audience)| == |audience|
  {
    if audience == [] {
      assert Keys(audience) == {};
    } else {
      var n := |audience| - 1;
      var init, last := audience[..n], audience[n];
      KeysCount(init);
      forall j | 0 <= j < n
        ensures audience[j] != last
      {
        Asymmetric(audience[j], last);
      }
      assert Keys(audience) == Keys(init) + {last};
      assert last !in Keys(init);
    }
  }

  /** Sending members next to end moves the cursor to the last of them and leaves exactly them in between. */
  lemma ChunkSplits(audience: seq<string>, cursor: string, next: nat, end: nat)
    requires Split(audience, cursor, next) && next < end <= |audience|
    ensures Split(audience, audience[end - 1], end) && Before(cursor, audience[end - 1])
    ensures forall k :: k in audience[next..end] <==> k in audience && Before(cursor, k) && !Before(audience[end - 1], k)
    ensures |Keys(audience[next..end])| == end - next
  {
    var hi := audience[end - 1];
    forall j | 0 <= j < end
      ensures !Before(hi, audience[j])
    {
      if j < end - 1 { Asymmetric(audience[j], hi); } else { Irreflexive(hi); }
    }
    forall k | k in audience && Before(cursor, k) && !Before(hi, k)
      ensures k in audience[next..end]
    {
      var j :| 0 <= j < |audience| && audience[j] == k;
      assert next <= j < end;
      assert audience[next..end][j - next] == k;
    }
    KeysCount(audience[next..end]);
  }

  /** Sends of one claim, which has none that are not recorded. */
  lemma SentHist(w: World, v: World, k: nat, ks: set<string>)
    requires SendsInv(w) && k < |w.hist.unrecorded| && w.hist.unrecorded[k] == 0 && |ks| <= CHUNK
    requires v.row == w.row && v.hist == SentTo(w.hist, k, ks)
    requires k + 1 == |w.hist.audiences| ==> w.hist.latest !! ks
    ensures SendsInv(v)
  {
    SumSet(w.hist.unrecorded, k, |ks|);
    if k + 1 == |w.hist.audiences| { assert |w.hist.latest + ks| == |w.hist.latest| + |ks|; }
  }

  /** What holds of the chunk a claim is about to send. */
  lemma NextChunk(w: World, o: Owner, pc: Pc)
    requires PcInv(w, o, pc) && pc.Sending? && pc.next < |pc.audience|
    ensures var end := ChunkEnd(pc.audience, pc.next);
            var keys := Keys(Part(pc));
            && Split(pc.audience, pc.audience[end - 1], end) && Before(pc.p.cursor, pc.audience[end - 1])
            && (forall k :: k in keys <==> k in pc.audience && Before(pc.p.cursor, k) && !Before(pc.audience[end - 1], k))
            && |keys| == end - pc.next <= CHUNK && pc.p.reached !! keys
  {
    ChunkSplits(pc.audience, pc.p.cursor, pc.next, ChunkEnd(pc.audience, pc.next));
    assert Keys(Part(pc)) == set k | k in Part(pc);
  }

  lemma FewerKeys(a: set<string>, b: set<string>)
    requires a <= b
    ensures |a| <= |b|
  {
    assert b == a + (b - a);
  }

  lemma SentOwn(w: World, v: World, o: Owner, pc: Pc, fates: seq<Fate>)
    requires PcInv(w, o, pc) && pc.Sending? && pc.next < |pc.audience| && |fates| == |Part(pc)|
    requires v == At(w, o, AfterChunk(pc, fates)).(hist := SentTo(w.hist, pc.claim, Keys(Part(pc))))
    ensures PcInv(v, o, v.procs[o])
  {
    NextChunk(w, o, pc);
    var p := v.procs[o].p;
    assert |p.reached| == |pc.p.reached| + |Keys(Part(pc))|;
    SentGood(w, v, pc, p, Keys(Part(pc)));
  }

  lemma SentGood(w: World, v: World, pc: Pc, p: Progress, keys: set<string>)
    requires pc.Sending? && pc.claim < |w.hist.audiences| && Good(w, pc.p) && PlaceInv(w, pc.claim, pc.audience, pc.p, pc.next)
    requires v.hist.audiences == w.hist.audiences && w.hist.attempted + keys <= v.hist.attempted
    requires p.reached == pc.p.reached + keys && p.counts.Reached() == |p.reached| && Before(pc.p.cursor, p.cursor)
    requires forall k :: k in keys <==> k in pc.audience && Before(pc.p.cursor, k) && !Before(p.cursor, k)
    ensures Good(v, p)
  {
    SameAudiences(w, v);
    assert w.hist.audiences[pc.claim] == Some(pc.audience);
    forall k | k in p.reached
      ensures !Before(p.cursor, k)
    {
      if k in pc.p.reached && Before(p.cursor, k) { Transitive(pc.p.cursor, p.cursor, k); }
    }
    forall k | k != "" && !Before(p.cursor, k) && InAll(v, k)
      ensures k in p.reached
    {
      assert InAll(w, k) && k in pc.audience;
    }
  }

  lemma SendKeeps(w: World, o: Owner, fates: seq<Fate>)
    requires Inv(w) && o in w.procs && w.procs[o].Sending?
    ensures Inv(SendStep(w, o, w.procs[o], fates))
  {
    var pc := w.procs[o];
    assert PcInv(w, o, pc);
    var v := SendStep(w, o, pc, fates);
    if v != w { SentKeeps(w, v, o, pc, fates); }
  }

  lemma SentKeeps(w: World, v: World, o: Owner, pc: Pc, fates: seq<Fate>)
    requires Inv(w) && o in w.procs && w.procs[o] == pc && PcInv(w, o, pc)
    requires pc.Sending? && pc.next < |pc.audience| && |fates| == |Part(pc)|
    requires v == At(w, o, AfterChunk(pc, fates)).(hist := SentTo(w.hist, pc.claim, Keys(Part(pc))))
    ensures Inv(v)
  {
    NextChunk(w, o, pc);
    SentIsOwn(w, v, pc.claim, Keys(Part(pc)));
    SentOwn(w, v, o, pc, fates);
    SentHist(w, v, pc.claim, Keys(Part(pc)));
    if !w.hist.late { SentPrompt(w, v, o, pc, fates); }
    OwnStepKeeps(w, v, o, pc.claim);
  }

  lemma SentIsOwn(w: World, v: World, k: nat, keys: set<string>)
    requires k < |w.hist.unrecorded| && v.row == w.row && v.clock == w.clock && v.stale == w.stale && v.hist == SentTo(w.hist, k, keys)
    requires NoOlderStamps(w, v)
    ensures OwnStep(w, v, k)
  {
    SameAudiences(w, v);
  }

  lemma SentPrompt(w: World, v: World, o: Owner, pc: Pc, fates: seq<Fate>)
    requires Prompt(w) && SendsInv(w) && InStep(w, pc) && PcInv(w, o, pc)
    requires pc.Sending? && pc.next < |pc.audience| && |fates| == |Part(pc)|
    requires v == At(w, o, AfterChunk(pc, fates)).(hist := SentTo(w.hist, pc.claim, Keys(Part(pc))))
    ensures Prompt(v)
  {
    NextChunk(w, o, pc);
    PromptCounts(w, v, pc.claim, Keys(Part(pc)));
    forall q | q in v.procs
      ensures InStep(v, v.procs[q])
    {
      if q != o { assert InStep(w, w.procs[q]); }
    }
  }

  lemma PromptCounts(w: World, v: World, k: nat, keys: set<string>)
    requires Prompt(w) && SendsInv(w) && k < |w.hist.unrecorded| && w.hist.unrecorded[k] == 0
    requires v.row == w.row && v.hist == SentTo(w.hist, k, keys)
    requires k + 1 == |w.hist.audiences| ==> w.hist.latest !! keys
    ensures v.hist.sends == |v.row.p.reached| + Sum(v.hist.unrecorded)
    ensures |v.hist.latest| == |v.row.p.reached| + LastOf(v.hist.unrecorded)
  {
    SumSet(w.hist.unrecorded, k, |keys|);
    if k + 1 == |w.hist.audiences| { assert |w.hist.latest + keys| == |w.hist.latest| + |keys|; }
  }

  lemma CutKeeps(w: World, o: Owner, keys: set<string>)
    requires Inv(w) && o in w.procs && w.procs[o].Sending?
    ensures Inv(CutStep(w, o, w.procs[o], keys))
  {
    var pc := w.procs[o];
    assert PcInv(w, o, pc);
    var v := CutStep(w, o, pc, keys);
    if v != w {
      NextChunk(w, o, pc);
      FewerKeys(keys, Keys(Part(pc)));
      SameAudiences(w, v);
      SentHist(w, v, pc.claim, keys);
      if !w.hist.late { CutPrompt(w, v, o, pc.claim, keys); }
      OwnStepKeeps(w, v, o, pc.claim);
    }
  }

  lemma CutPrompt(w: World, v: World, o: Owner, k: nat, keys: set<string>)
    requires Prompt(w) && SendsInv(w) && k < |w.hist.unrecorded| && w.hist.unrecorded[k] == 0
    requires v == Leave(w, o).(hist := SentTo(w.hist, k, keys)) && (k + 1 == |w.hist.audiences| ==> w.hist.latest !! keys)
    ensures Prompt(v)
  {
    PromptCounts(w, v, k, keys);
    forall q | q in v.procs
      ensures InStep(v, v.procs[q])
    {
      assert InStep(w, w.procs[q]);
    }
  }

  // HeartbeatBroadcast.

  /** The owner records its chunk. */
  ghost predicate Lands(w: World, o: Owner) {
    o in w.procs && w.procs[o].Stamped? && PcInv(w, o, w.procs[o]) && Owns(w.row, o)
  }

  lemma HeartbeatRow(w: World, o: Owner)
    requires Lands(w, o) && RowInv(w)
    ensures RowInv(HeartbeatStep(w, o, w.procs[o]))
  {
    var v := HeartbeatStep(w, o, w.procs[o]);
    SameAudiences(w, v);
    GoodStays(w, v, w.row.p);
    GoodStays(w, v, w.procs[o].p);
  }

  lemma HeartbeatSends(w: World, o: Owner)
    requires Lands(w, o) && SendsInv(w)
    ensures SendsInv(HeartbeatStep(w, o, w.procs[o]))
  {
    var k := w.procs[o].claim;
    SumSet(w.hist.unrecorded, k, 0);
    SumSet(w.hist.last, k, w.hist.unrecorded[k]);
  }

  lemma HeartbeatOther(w: World, o: Owner, q: Owner)
    requires Lands(w, o) && q in w.procs && q != o && PcInv(w, q, w.procs[q])
    requires Active(w.procs[q]) ==> w.procs[q].claim != w.procs[o].claim
    ensures var v := HeartbeatStep(w, o, w.procs[o]); PcInv(v, q, w.procs[q])
  {
    var v := HeartbeatStep(w, o, w.procs[o]);
    SameAudiences(w, v);
    if !w.procs[q].Asked? { GoodStays(w, v, w.procs[q].p); }
  }

  lemma HeartbeatOwn(w: World, o: Owner)
    requires Lands(w, o)
    ensures var v := HeartbeatStep(w, o, w.procs[o]); o in v.procs && PcInv(v, o, v.procs[o])
  {
    var v := HeartbeatStep(w, o, w.procs[o]);
    SameAudiences(w, v);
    GoodStays(w, v, w.procs[o].p);
  }

  lemma HeartbeatPrompt(w: World, o: Owner)
    requires Inv(w) && Lands(w, o) && !HeartbeatStep(w, o, w.procs[o]).hist.late
    ensures Prompt(HeartbeatStep(w, o, w.procs[o]))
  {
    var pc := w.procs[o];
    var v := HeartbeatStep(w, o, pc);
    assert InStep(w, pc);
    SumSet(w.hist.unrecorded, pc.claim, 0);
    assert v.hist.recorded[..|w.hist.recorded|] == w.hist.recorded;
    forall q | q in v.procs
      ensures InStep(v, v.procs[q])
    {
      if q != o { assert PcInv(w, q, w.procs[q]) && InStep(w, w.procs[q]); }
    }
  }

  lemma HeartbeatKeeps(w: World, o: Owner)
    requires Inv(w) && o in w.procs && w.procs[o].Stamped?
    ensures Inv(HeartbeatStep(w, o, w.procs[o]))
  {
    assert PcInv(w, o, w.procs[o]);
    if !Owns(w.row, o) { LeaveKeeps(w, o); return; }
    HeartbeatRow(w, o);
    HeartbeatSends(w, o);
    HeartbeatOwn(w, o);
    var v := HeartbeatStep(w, o, w.procs[o]);
    forall q | q in v.procs
      ensures PcInv(v, q, v.procs[q])
    {
      if q != o { HeartbeatOther(w, o, q); }
    }
    if !v.hist.late { HeartbeatPrompt(w, o); }
  }

  // FinishBroadcast.

  lemma FinishRow(w: World, o: Owner)
    requires RowInv(w) && SendsInv(w) && o in w.procs && w.procs[o].Ended? && PcInv(w, o, w.procs[o]) && Owns(w.row, o)
    ensures var v := FinishStep(w, o, w.procs[o]); RowInv(v) && SendsInv(v)
  {
    var pc := w.procs[o];
    var v := FinishStep(w, o, pc);
    SameAudiences(w, v);
    GoodStays(w, v, w.hist.before);
    GoodStays(w, v, pc.p);
    if pc.state == Done {
      forall k | InAll(v, k)
        ensures k in v.row.p.reached
      {
        assert k in v.hist.audiences[pc.claim].value;
      }
    }
  }

  lemma FinishKeeps(w: World, o: Owner)
    requires Inv(w) && o in w.procs && w.procs[o].Ended?
    ensures Inv(FinishStep(w, o, w.procs[o]))
  {
    var pc := w.procs[o];
    assert PcInv(w, o, pc);
    if !Owns(w.row, o) { LeaveKeeps(w, o); return; }
    FinishRow(w, o);
    var v := FinishStep(w, o, pc);
    SameAudiences(w, v);
    forall q | q in v.procs
      ensures PcInv(v, q, v.procs[q])
    {
      assert PcInv(w, q, w.procs[q]);
      if !w.procs[q].Asked? { GoodStays(w, v, w.procs[q].p); }
    }
    if !w.hist.late { FinishPrompt(w, o); }
  }

  lemma FinishPrompt(w: World, o: Owner)
    requires Inv(w) && !w.hist.late && o in w.procs && w.procs[o].Ended? && Owns(w.row, o)
    ensures Prompt(FinishStep(w, o, w.procs[o]))
  {
    var v := FinishStep(w, o, w.procs[o]);
    assert InStep(w, w.procs[o]) && PcInv(w, o, w.procs[o]);
    forall q | q in v.procs
      ensures InStep(v, v.procs[q])
    {
      assert PcInv(w, q, w.procs[q]) && InStep(w, w.procs[q]);
    }
  }

  // Every step.

  lemma AdvanceKeeps(w: World, a: Action)
    requires !a.Tick? && !a.Ask? && !a.Stop?
    requires Inv(w) && a.o in w.procs
    ensures Inv(Advance(w, a, w.procs[a.o]))
  {
    var pc := w.procs[a.o];
    assert PcInv(w, a.o, pc);
    match (a, pc)
    case (Look(o), Asked(now)) =>
      if Claimable(w.row, now, w.stale) { MoveKeeps(w, o, Looked(now, w.row.p)); } else { LeaveKeeps(w, o); }
    case (Claim(o), Looked(now, p)) => ClaimKeeps(w, o, now, p);
    case (Read(o, audience), Claimed(_, _)) => ReadKeeps(w, o, audience);
    case (Undecodable(o), Claimed(k, p)) => MoveOwner(w, o, Ended(k, Broken, p, w.clock));
    case (Send(o, fates), Sending(_, _, _, _)) => SendKeeps(w, o, fates);
    case (Cut(o, keys), Sending(_, _, _, _)) => CutKeeps(w, o, keys);
    case (Exhaust(o), Sending(k, audience, p, next)) =>
      if next >= |audience| { MoveOwner(w, o, Ended(k, Done, p, w.clock)); }
    case (Stamp(o), Sent(k, audience, p, next, chunk)) => MoveOwner(w, o, Stamped(k, audience, p, next, chunk, w.clock));
    case (Heartbeat(o), Stamped(_, _, _, _, _, _)) => HeartbeatKeeps(w, o);
    case (Finish(o), Ended(_, _, _, _)) => FinishKeeps(w, o);
    case _ =>
  }

  /** A claim moves on in place. */
  lemma MoveOwner(w: World, o: Owner, pc: Pc)
    requires Inv(w) && o in w.procs && Active(w.procs[o]) && Active(pc) && PcInv(w, o, pc)
    requires pc.claim == w.procs[o].claim && (pc.Stamped? ==> pc.at == w.clock)
    requires InStep(w, w.procs[o]) ==> InStep(w, pc)
    ensures Inv(At(w, o, pc))
  {
    MoveKeeps(w, o, pc);
  }

  lemma StepKeeps(w: World, a: Action)
    requires Inv(w)
    ensures Inv(Step(w, a))
  {
    match a
    case Tick(d) => TickKeeps(w, d);
    case Ask(o) => if o !in w.procs { MoveKeeps(w, o, Asked(w.clock)); }
    case Stop(o) => LeaveKeeps(w, o);
    case _ => if a.o in w.procs { AdvanceKeeps(w, a); }
  }

  lemma TickKeeps(w: World, d: nat)
    requires Inv(w)
    ensures Inv(Step(w, Tick(d)))
  {
    var v := Step(w, Tick(d));
    SameAudiences(w, v);
    RowStays(w, v);
    forall q | q in v.procs
      ensures PcInv(v, q, v.procs[q]) && (!w.hist.late ==> InStep(v, v.procs[q]))
    {
      assert PcInv(w, q, w.procs[q]);
      if !w.procs[q].Asked? { GoodStays(w, v, w.procs[q].p); }
      if !w.hist.late { assert InStep(w, w.procs[q]); }
    }
  }

  lemma {:induction false} RunKeeps(w: World, acts: seq<Action>)
    requires Inv(w)
    ensures Inv(Run(w, acts))
  {
    if acts != [] {
      RunKeeps(w, acts[..|acts| - 1]);
      StepKeeps(Run(w, acts[..|acts| - 1]), acts[|acts| - 1]);
    }
  }

  lemma FreshInv(w: World)
    requires Fresh(w)
    ensures Inv(w)
  {
    FreshGood(w, w.row.p);
    assert Sum([]) == 0 && Chain([], w.row.p.cursor);
  }

  lemma FreshGood(w: World, p: Progress)
    requires p.cursor == "" && p.reached == {} && p.counts.Reached() == 0
    ensures Good(w, p)
  {}

  lemma ReachableInv(w: World)
    requires Reachable(w)
    ensures Inv(w)
  {
    var w0: World, acts: seq<Action> :| Fresh(w0) && w == Run(w0, acts);
    FreshInv(w0);
    RunKeeps(w0, acts);
  }
}
