/** The broadcast runner (internal/httpserver/broadcast.go): replicas claim a stored run, walk
    an audience sorted by key in chunks, and record cursor and counts after each chunk, so that
    a replica that takes over carries on from there.

    A World is one broadcast's row, every replica's place in it, and what was sent so far. An
    Action is one statement of the store, one chunk of sends, or a replica that stops; a run is
    any sequence of actions. An action its replica is not ready for changes nothing. */
module Broadcast {
  import opened Order

  type Owner = nat

  /** broadcastChunk: how many people are sent to between heartbeats. */
  const CHUNK := 25

  datatype Option<T> = None | Some(value: T)

  datatype Counts = Counts(total: nat, delivered: nat, unreachable: nat, failed: nat) {
    function Reached(): nat { delivered + unreachable + failed }
  }

  /** How one person's deliveries came out, by the worst of them. */
  datatype Fate = Delivered | Unreachable | Undeliverable

  datatype RunState = Requested | Running | Done | Broken

  /** How far a run has come. reached is whom the counts are about; it is not stored, and only there
      to say what the counts mean. */
  datatype Progress = Progress(cursor: string, counts: Counts, reached: set<string>)

  datatype Row = Row(state: RunState, owner: Owner, heartbeat: int, p: Progress)

  /** A chunk: the keys after lo up to hi that were sent to. */
  datatype Chunk = Chunk(lo: string, hi: string, keys: set<string>)

  /** Where a replica stands in its claim, the claim-th of the broadcast. at is the clock it read for
      the statement it is about to make. */
  datatype Pc =
    | Asked(now: int)
    | Looked(now: int, p: Progress)
    | Claimed(claim: nat, p: Progress)
    | Sending(claim: nat, audience: seq<string>, p: Progress, next: nat)
    | Sent(claim: nat, audience: seq<string>, p: Progress, next: nat, chunk: Chunk)
    | Stamped(claim: nat, audience: seq<string>, p: Progress, next: nat, chunk: Chunk, at: int)
    | Ended(claim: nat, state: RunState, p: Progress, at: int)

  /** What happened so far. audiences: what each claim read, if it got that far. unrecorded: how many
      sends of each claim no heartbeat covers. last: how many its last heartbeat covered. latest: whom
      the latest claim's counts, and its sends since, are about. before: what the row said before
      the last heartbeat. late: some heartbeat landed more than the stale time after its stamp. */
  datatype History = History(
    audiences: seq<Option<seq<string>>>, unrecorded: seq<nat>, last: seq<nat>, latest: set<string>, before: Progress,
    recorded: seq<Chunk>, attempted: set<string>, sends: nat, late: bool)

  datatype World = World(stale: nat, clock: int, row: Row, procs: map<Owner, Pc>, hist: History)

  datatype Action =
    | Tick(d: nat)
    | Ask(o: Owner)
    | Look(o: Owner)
    | Claim(o: Owner)
    | Read(o: Owner, audience: seq<string>)
    | Undecodable(o: Owner)
    | Send(o: Owner, fates: seq<Fate>)
    | Cut(o: Owner, keys: set<string>)
    | Exhaust(o: Owner)
    | Stamp(o: Owner)
    | Heartbeat(o: Owner)
    | Finish(o: Owner)
    | Stop(o: Owner)

  const NoCounts := Counts(0, 0, 0, 0)

  const NoProgress := Progress("", NoCounts, {})

  function Init(stale: nat, clock: int): World {
    World(stale, clock, Row(Requested, 0, clock, NoProgress), map[], History([], [], [], {}, NoProgress, [], {}, 0, false))
  }

  /** The condition of NextBroadcast and ClaimBroadcast, for a clock read at now. */
  predicate Claimable(row: Row, now: int, stale: nat) {
    row.state == Requested || (row.state == Running && row.heartbeat < now - stale)
  }

  predicate Owns(row: Row, o: Owner) { row.state == Running && row.owner == o }

  /** Sorted by key, nobody twice, no empty key: what broadcastAudience returns. */
  predicate Ordered(audience: seq<string>) {
    && (forall i, j :: 0 <= i < j < |audience| ==> Before(audience[i], audience[j]))
    && (forall i :: 0 <= i < |audience| ==> audience[i] != "")
  }

  function Keys(audience: seq<string>): set<string> { set k | k in audience }

  /** sort.Search's answer: the first member after the cursor. */
  function Start(audience: seq<string>, cursor: string): (i: nat)
    ensures i <= |audience|
    ensures forall j :: 0 <= j < i ==> !Before(cursor, audience[j])
    ensures i < |audience| ==> Before(cursor, audience[i])
  {
    if audience == [] || Before(cursor, audience[0]) then 0 else 1 + Start(audience[1..], cursor)
  }

  function ChunkEnd(audience: seq<string>, next: nat): nat {
    if next + CHUNK < |audience| then next + CHUNK else |audience|
  }

  /** Each person counts once. */
  function Tally(counts: Counts, fates: seq<Fate>): (c: Counts)
    ensures c.Reached() == counts.Reached() + |fates| && c.total == counts.total
  {
    if fates == [] then counts
    else
      var c := Tally(counts, fates[..|fates| - 1]);
      match fates[|fates| - 1]
      case Delivered => c.(delivered := c.delivered + 1)
      case Unreachable => c.(unreachable := c.unreachable + 1)
      case Undeliverable => c.(failed := c.failed + 1)
  }

  function At(w: World, o: Owner, pc: Pc): World { w.(procs := w.procs[o := pc]) }

  function Leave(w: World, o: Owner): World { w.(procs := w.procs - {o}) }

  /** ClaimBroadcast: a compare-and-swap on the row's state and heartbeat. */
  function ClaimStep(w: World, o: Owner, now: int, p: Progress): World {
    if !Claimable(w.row, now, w.stale) then Leave(w, o)
    else
      At(w, o, Claimed(|w.hist.audiences|, p)).(
        row := w.row.(state := Running, owner := o, heartbeat := now),
        hist := w.hist.(
          audiences := w.hist.audiences + [None], unrecorded := w.hist.unrecorded + [0], last := w.hist.last + [0],
          latest := p.reached))
  }

  function ReadStep(w: World, o: Owner, pc: Pc, audience: seq<string>): World
    requires pc.Claimed?
  {
    if !Ordered(audience) || pc.claim >= |w.hist.audiences| then w
    else
      var p := pc.p.(counts := pc.p.counts.(total := |audience|));
      At(w, o, Sending(pc.claim, audience, p, Start(audience, p.cursor))).(
        hist := w.hist.(audiences := w.hist.audiences[pc.claim := Some(audience)]))
  }

  /** The members the next chunk goes to. */
  function Part(pc: Pc): seq<string>
    requires pc.Sending? && pc.next < |pc.audience|
  {
    pc.audience[pc.next..ChunkEnd(pc.audience, pc.next)]
  }

  /** Sends to some keys, and to none of them twice. */
  function SentTo(h: History, claim: nat, keys: set<string>): History
    requires claim < |h.unrecorded|
  {
    h.(unrecorded := h.unrecorded[claim := |keys|], attempted := h.attempted + keys, sends := h.sends + |keys|,
       latest := if claim == |h.audiences| - 1 then h.latest + keys else h.latest)
  }

  /** Where a replica stands once its chunk is out. */
  function AfterChunk(pc: Pc, fates: seq<Fate>): Pc
    requires pc.Sending? && pc.next < |pc.audience|
  {
    var end := ChunkEnd(pc.audience, pc.next);
    var hi, keys := pc.audience[end - 1], Keys(Part(pc));
    Sent(pc.claim, pc.audience, Progress(hi, Tally(pc.p.counts, fates), pc.p.reached + keys), end, Chunk(pc.p.cursor, hi, keys))
  }

  /** One chunk of sends: all of it goes out before the heartbeat. */
  function SendStep(w: World, o: Owner, pc: Pc, fates: seq<Fate>): World
    requires pc.Sending?
  {
    if pc.next >= |pc.audience| || |fates| != ChunkEnd(pc.audience, pc.next) - pc.next || pc.claim >= |w.hist.unrecorded| then w
    else At(w, o, AfterChunk(pc, fates)).(hist := SentTo(w.hist, pc.claim, Keys(Part(pc))))
  }

  /** The replica dies within a chunk: some of it went out. */
  function CutStep(w: World, o: Owner, pc: Pc, keys: set<string>): World
    requires pc.Sending?
  {
    if pc.next >= |pc.audience| || pc.claim >= |w.hist.unrecorded| || !(keys <= Keys(Part(pc))) then w
    else Leave(w, o).(hist := SentTo(w.hist, pc.claim, keys))
  }

  /** HeartbeatBroadcast, with the clock as it was read before: refused to anyone but the owner. */
  function HeartbeatStep(w: World, o: Owner, pc: Pc): World
    requires pc.Stamped?
  {
    if !Owns(w.row, o) || pc.claim >= |w.hist.unrecorded| || pc.claim >= |w.hist.last| then Leave(w, o)
    else
      At(w, o, Sending(pc.claim, pc.audience, pc.p, pc.next)).(
        row := w.row.(heartbeat := pc.at, p := pc.p),
        hist := w.hist.(
          unrecorded := w.hist.unrecorded[pc.claim := 0],
          last := w.hist.last[pc.claim := w.hist.unrecorded[pc.claim]],
          recorded := w.hist.recorded + [pc.chunk],
          before := w.row.p,
          late := w.hist.late || w.clock > pc.at + w.stale))
  }

  /** FinishBroadcast: the owner's last word; anyone else's is ignored. */
  function FinishStep(w: World, o: Owner, pc: Pc): World
    requires pc.Ended?
  {
    if !Owns(w.row, o) then Leave(w, o)
    else Leave(w, o).(row := w.row.(state := pc.state, heartbeat := pc.at, p := pc.p))
  }

  function Step(w: World, a: Action): World {
    match a
    case Tick(d) => w.(clock := w.clock + d)
    case Ask(o) => if o in w.procs then w else At(w, o, Asked(w.clock))
    case Stop(o) => Leave(w, o)
    case _ => if a.o in w.procs then Advance(w, a, w.procs[a.o]) else w
  }

  function Advance(w: World, a: Action, pc: Pc): World
    requires !a.Tick? && !a.Ask? && !a.Stop?
  {
    match (a, pc)
    case (Look(o), Asked(now)) =>
      if Claimable(w.row, now, w.stale) then At(w, o, Looked(now, w.row.p)) else Leave(w, o)
    case (Claim(o), Looked(now, p)) => ClaimStep(w, o, now, p)
    case (Read(o, audience), Claimed(_, _)) => ReadStep(w, o, pc, audience)
    case (Undecodable(o), Claimed(k, p)) => At(w, o, Ended(k, Broken, p, w.clock))
    case (Send(o, fates), Sending(_, _, _, _)) => SendStep(w, o, pc, fates)
    case (Cut(o, keys), Sending(_, _, _, _)) => CutStep(w, o, pc, keys)
    case (Exhaust(o), Sending(k, audience, p, next)) =>
      if next >= |audience| then At(w, o, Ended(k, Done, p, w.clock)) else w
    case (Stamp(o), Sent(k, audience, p, next, chunk)) => At(w, o, Stamped(k, audience, p, next, chunk, w.clock))
    case (Heartbeat(o), Stamped(_, _, _, _, _, _)) => HeartbeatStep(w, o, pc)
    case (Finish(o), Ended(_, _, _, _)) => FinishStep(w, o, pc)
    case _ => w
  }

  function Run(w: World, acts: seq<Action>): World {
    if acts == [] then w else Step(Run(w, acts[..|acts| - 1]), acts[|acts| - 1])
  }

  // The invariant.

  predicate Active(pc: Pc) { pc.Claimed? || pc.Sending? || pc.Sent? || pc.Stamped? || pc.Ended? }

  predicate Latest(w: World, claim: nat) { claim == |w.hist.audiences| - 1 }

  function Sum(ns: seq<nat>): nat {
    if ns == [] then 0 else Sum(ns[..|ns| - 1]) + ns[|ns| - 1]
  }

  /** The key is in every audience any claim read. */
  ghost predicate InAll(w: World, k: string) {
    forall i :: 0 <= i < |w.hist.audiences| && w.hist.audiences[i].Some? ==> k in w.hist.audiences[i].value
  }

  /** The recorded chunks follow one another from the start to the cursor. */
  ghost predicate Chain(chunks: seq<Chunk>, cursor: string) {
    if chunks == [] then cursor == ""
    else
      var c := chunks[|chunks| - 1];
      && c.hi == cursor && Before(c.lo, c.hi)
      && (forall k :: k in c.keys ==> Before(c.lo, k) && !Before(c.hi, k))
      && Chain(chunks[..|chunks| - 1], c.lo)
  }

  ghost predicate Known(w: World, k: string) {
    exists i :: 0 <= i < |w.hist.audiences| && w.hist.audiences[i].Some? && k in w.hist.audiences[i].value
  }

  /** Nobody is sent to whom no audience names. */
  ghost predicate AttemptedKnown(w: World) { forall k :: k in w.hist.attempted ==> Known(w, k) }

  /** The counts are about those reached, who were all attempted and are behind the cursor; and
      everyone behind it who was in every audience is among them. */
  ghost predicate Good(w: World, p: Progress) {
    && p.counts.Reached() == |p.reached| && p.reached <= w.hist.attempted
    && (forall k :: k in p.reached ==> !Before(p.cursor, k))
    && (forall k :: k != "" && !Before(p.cursor, k) && InAll(w, k) ==> k in p.reached)
  }

  ghost predicate RowInv(w: World) {
    && w.row.heartbeat <= w.clock && Good(w, w.row.p) && Good(w, w.hist.before)
    && (w.row.state == Requested ==> w.hist.audiences == [])
    && (w.row.state == Done ==> DoneInv(w))
  }

  ghost predicate DoneInv(w: World) {
    var n := |w.hist.audiences|;
    && n > 0 && w.hist.audiences[n - 1].Some? && Ordered(w.hist.audiences[n - 1].value)
    && w.row.p.counts.total == |w.hist.audiences[n - 1].value|
    && (forall k :: InAll(w, k) ==> k in w.row.p.reached)
  }

  predicate Finished(row: Row) { row.state == Done || row.state == Broken }

  function LastOf(ns: seq<nat>): nat { if ns == [] then 0 else ns[|ns| - 1] }

  /** What no heartbeat covers, and what each claim's last heartbeat did. */
  function Slack(h: History): nat { Sum(h.unrecorded) + Sum(h.last) }

  /** However late a heartbeat lands, sends beyond those the row, the row before it, or the latest
      claim speak of are among the last two chunks of the claims. */
  ghost predicate SendsInv(w: World) {
    var h := w.hist;
    && |h.audiences| == |h.unrecorded| == |h.last|
    && (forall i :: 0 <= i < |h.unrecorded| ==> h.unrecorded[i] <= CHUNK && h.last[i] <= CHUNK)
    && h.latest <= h.attempted
    && (h.audiences == [] ==> h.sends == 0)
    && h.sends + LastOf(h.unrecorded) + LastOf(h.last) <= Slack(h) + |h.latest|
    && (!Finished(w.row) ==>
          && h.sends + LastOf(h.last) <= Slack(h) + |w.row.p.reached|
          && h.sends <= Slack(h) + |h.before.reached|)
  }

  /** No claim read at now can succeed any more. */
  predicate Blocked(row: Row, now: int, stale: nat) {
    Finished(row) || (row.state == Running && row.heartbeat >= now - stale)
  }

  /** The members before next are behind the cursor, the others ahead of it. */
  ghost predicate Split(audience: seq<string>, cursor: string, next: nat) {
    && Ordered(audience) && next <= |audience|
    && (forall j :: 0 <= j < next ==> !Before(cursor, audience[j]))
    && (forall j :: next <= j < |audience| ==> Before(cursor, audience[j]))
  }

  /** What a replica read when it looked is out of date by at most one heartbeat, if its claim can
      still succeed: any other would be stamped after it asked. */
  ghost predicate LookInv(w: World, now: int, p: Progress) {
    || Blocked(w.row, now, w.stale) || p == w.row.p
    || (p == w.hist.before && forall o :: o in w.procs && Owns(w.row, o) && w.procs[o].Stamped? ==> w.procs[o].at >= now)
  }

  ghost predicate ClaimInv(w: World, o: Owner, pc: Pc)
    requires Active(pc)
  {
    && pc.claim < |w.hist.audiences| == |w.hist.unrecorded| == |w.hist.last|
    && (Latest(w, pc.claim) <==> Owns(w.row, o))
    && (Latest(w, pc.claim) ==> w.hist.latest == pc.p.reached)
  }

  /** Where a claim stands in its audience. */
  ghost predicate PlaceInv(w: World, k: nat, audience: seq<string>, p: Progress, next: nat)
    requires k < |w.hist.audiences|
  {
    w.hist.audiences[k] == Some(audience) && Split(audience, p.cursor, next) && p.counts.total == |audience|
  }

  ghost predicate PcInv(w: World, o: Owner, pc: Pc) {
    && (Active(pc) ==> ClaimInv(w, o, pc))
    && (!pc.Asked? ==> Good(w, pc.p))
    && match pc
       case Asked(now) => now <= w.clock
       case Looked(now, p) => now <= w.clock && LookInv(w, now, p)
       case Claimed(k, p) => w.hist.audiences[k].None? && w.hist.unrecorded[k] == 0
       case Sending(k, audience, p, next) => PlaceInv(w, k, audience, p, next) && w.hist.unrecorded[k] == 0
       case Sent(k, audience, p, next, chunk) => PlaceInv(w, k, audience, p, next) && w.hist.unrecorded[k] == |chunk.keys|
       case Stamped(k, audience, p, next, chunk, at) =>
         && PlaceInv(w, k, audience, p, next) && w.hist.unrecorded[k] == |chunk.keys|
         && at <= w.clock && (Latest(w, k) ==> w.row.heartbeat <= at)
       case Ended(k, state, p, at) =>
         && (state == Done || state == Broken) && at <= w.clock
         && (state == Done ==>
               w.hist.audiences[k].Some? && PlaceInv(w, k, w.hist.audiences[k].value, p, |w.hist.audiences[k].value|))
  }

  // While no heartbeat has been late.

  /** The owner's progress is the row's, but for the chunk it has sent since. */
  ghost predicate InStep(w: World, pc: Pc) {
    match pc
    case Looked(now, p) => Blocked(w.row, now, w.stale) || p == w.row.p
    case Claimed(k, p) => Latest(w, k) ==> p.cursor == w.row.p.cursor && p.reached == w.row.p.reached
    case Sending(k, _, p, _) => Latest(w, k) ==> p.cursor == w.row.p.cursor && p.reached == w.row.p.reached
    case Sent(k, _, p, _, chunk) => Latest(w, k) ==> OneAhead(w.row.p, p, chunk)
    case Stamped(k, _, p, _, chunk, _) => Latest(w, k) ==> OneAhead(w.row.p, p, chunk)
    case Ended(k, _, p, _) => Latest(w, k) ==> p.cursor == w.row.p.cursor && p.reached == w.row.p.reached
    case _ => true
  }

  ghost predicate OneAhead(behind: Progress, p: Progress, chunk: Chunk) {
    && chunk.lo == behind.cursor && chunk.hi == p.cursor && Before(chunk.lo, chunk.hi)
    && (forall k :: k in chunk.keys ==> Before(chunk.lo, k) && !Before(chunk.hi, k))
    && p.reached == behind.reached + chunk.keys && behind.reached !! chunk.keys
  }

  ghost predicate Prompt(w: World) {
    && Chain(w.hist.recorded, w.row.p.cursor)
    && w.hist.sends == |w.row.p.reached| + Sum(w.hist.unrecorded)
    && (w.hist.audiences != [] ==> |w.hist.latest| == |w.row.p.reached| + LastOf(w.hist.unrecorded))
    && forall o :: o in w.procs ==> InStep(w, w.procs[o])
  }

  /** Every claim is held by one replica. */
  ghost predicate Apart(w: World) {
    forall o, p :: o in w.procs && p in w.procs && o != p && Active(w.procs[o]) && Active(w.procs[p]) ==>
      w.procs[o].claim != w.procs[p].claim
  }

  ghost predicate Inv(w: World) {
    && RowInv(w) && SendsInv(w) && AttemptedKnown(w) && Apart(w)
    && (forall o :: o in w.procs ==> PcInv(w, o, w.procs[o]))
    && (!w.hist.late ==> Prompt(w))
  }

  /** A broadcast just requested: nobody has been reached, and nobody works on it. */
  predicate Fresh(w: World) {
    && w.row.state == Requested && w.row.heartbeat <= w.clock && w.procs == map[]
    && w.row.p.cursor == "" && w.row.p.reached == {} && w.row.p.counts.Reached() == 0
    && w.hist == History([], [], [], {}, w.row.p, [], {}, 0, false)
  }

  /** w is met by some run from a broadcast just requested. */
  ghost predicate Reachable(w: World) {
    exists w0: World, acts: seq<Action> :: Fresh(w0) && w == Run(w0, acts)
  }
}
