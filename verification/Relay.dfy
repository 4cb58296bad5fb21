/** The audit relay (internal/audit/relay.go): every replica reads the trail after a shared
    cursor, hands the events to the sink one by one, and moves the cursor by compare-and-swap
    after each. The sink drops an event it has seen before.

    A World is the trail, the cursor, the sink's stream and every relay's place. An Action is one
    store statement, one write to the sink, one commit of a change's record, one pruning, or a
    relay that stops; a run is any sequence of actions. */
module Relay {
  import opened Order

  type Relayer = nat

  /** relayBatch. */
  const BATCH := 100

  datatype Option<T> = None | Some(value: T)

  /** An event's time and id, which is also a cursor just behind it. */
  datatype Mark = Mark(at: int, id: string)

  /** AuditCursor.IsZero: the cursor AdvanceAuditCursor takes as "create". */
  const Zero := Mark(0, "")

  /** The order the trail is read in: by time, then id. */
  predicate Earlier(e: Mark, f: Mark) { e.at < f.at || (e.at == f.at && Before(e.id, f.id)) }

  predicate UpTo(e: Mark, f: Mark) { e == f || Earlier(e, f) }

  /** Where a relay stands: its own cursor, and the rest of the page it listed. */
  datatype Pc =
    | Fresh
    | Placing(to: Mark)
    | Reading(cursor: Mark)
    | Listed(cursor: Mark, page: seq<Mark>, full: bool)
    | Wrote(cursor: Mark, page: seq<Mark>, full: bool)

  /** committed: every event that ever reached the trail. start: the first cursor. lossy: an event
      after the start was pruned before the sink had it. */
  datatype World = World(
    settle: nat, clock: int, trail: set<Mark>, cursor: Option<Mark>, stream: seq<Mark>, procs: map<Relayer, Pc>,
    committed: set<Mark>, start: Option<Mark>, lossy: bool)

  datatype Action =
    | Tick(d: nat)
    | Commit(e: Mark)
    | Prune(before: Mark)
    | Load(r: Relayer)
    | Newest(r: Relayer, m: Mark)
    | Place(r: Relayer)
    | List(r: Relayer, until: int, page: seq<Mark>)
    | Write(r: Relayer)
    | Advance(r: Relayer)
    | Stop(r: Relayer)

  function Init(settle: nat, clock: int): World {
    World(settle, clock, {}, None, [], map[], {}, None, false)
  }

  function At(w: World, r: Relayer, pc: Pc): World { w.(procs := w.procs[r := pc]) }

  function Leave(w: World, r: Relayer): World { w.(procs := w.procs - {r}) }

  predicate Ascending(page: seq<Mark>) {
    forall i, j :: 0 <= i < j < |page| ==> Earlier(page[i], page[j])
  }

  /** ListAuditEventsAfter: the first BATCH events after the cursor and stamped before until, in order. */
  predicate IsPage(trail: set<Mark>, cursor: Mark, until: int, page: seq<Mark>) {
    && |page| <= BATCH && Ascending(page)
    && (forall e :: e in page ==> e in trail && Earlier(cursor, e) && e.at < until)
    && (forall e :: e in trail && Earlier(cursor, e) && e.at < until ==>
          e in page || (|page| == BATCH && Earlier(page[BATCH - 1], e)))
  }

  /** A record may commit while its stamp is younger than the settle window, under an id of its own. */
  predicate MayCommit(w: World, e: Mark) {
    && e.id != "" && w.clock - w.settle < e.at <= w.clock
    && forall f :: f in w.committed ==> f.id != e.id
  }

  /** The newest event in the trail, or now for an empty one. */
  predicate IsNewest(w: World, m: Mark) {
    if w.trail == {} then m == Mark(w.clock, "")
    else m in w.trail && forall e :: e in w.trail ==> UpTo(e, m)
  }

  /** After start, and not with the sink yet. */
  predicate Owed(w: World, e: Mark) {
    w.start.Some? && Earlier(w.start.value, e) && e !in w.stream
  }

  function PruneStep(w: World, before: Mark): World {
    var v := w.(trail := set e | e in w.trail && !Earlier(e, before));
    v.(lossy := w.lossy || exists e :: e in w.trail && e !in v.trail && Owed(w, e))
  }

  /** AdvanceAuditCursor from the zero cursor: creates it unless another relay has. */
  function PlaceStep(w: World, r: Relayer, to: Mark): World {
    if w.cursor.Some? then Leave(w, r)
    else
      var v := Leave(w, r).(cursor := Some(to), start := Some(to));
      v.(lossy := w.lossy || exists e :: e in w.committed && e !in w.trail && Owed(v, e))
  }

  /** AdvanceAuditCursor: compare-and-swap; a relay that loses stops for this step. */
  function AdvanceStep(w: World, r: Relayer, cursor: Mark, page: seq<Mark>, full: bool): World
    requires page != []
  {
    if w.cursor != Some(cursor) then Leave(w, r)
    else
      var v := w.(cursor := Some(page[0]));
      if |page| > 1 then At(v, r, Listed(page[0], page[1..], full))
      else if full then At(v, r, Reading(page[0]))
      else Leave(v, r)
  }

  function Step(w: World, a: Action): World {
    match a
    case Tick(d) => w.(clock := w.clock + d)
    case Commit(e) => if MayCommit(w, e) then w.(trail := w.trail + {e}, committed := w.committed + {e}) else w
    case Prune(before) => PruneStep(w, before)
    case Load(r) =>
      if r in w.procs then w
      else At(w, r, if w.cursor.Some? then Reading(w.cursor.value) else Fresh)
    case Stop(r) => Leave(w, r)
    case _ => if a.r in w.procs then Move(w, a, w.procs[a.r]) else w
  }

  function Move(w: World, a: Action, pc: Pc): World
    requires a.Newest? || a.Place? || a.List? || a.Write? || a.Advance?
  {
    match (a, pc)
    case (Newest(r, m), Fresh) => if IsNewest(w, m) then At(w, r, Placing(m)) else w
    case (Place(r), Placing(to)) => PlaceStep(w, r, to)
    case (List(r, until, page), Reading(cursor)) =>
      if until > w.clock - w.settle || !IsPage(w.trail, cursor, until, page) then w
      else if page == [] then Leave(w, r)
      else At(w, r, Listed(cursor, page, |page| == BATCH))
    case (Write(r), Listed(cursor, page, full)) =>
      if page == [] then w
      else At(w, r, Wrote(cursor, page, full)).(stream := w.stream + [page[0]])
    case (Advance(r), Wrote(cursor, page, full)) => if page == [] then w else AdvanceStep(w, r, cursor, page, full)
    case _ => w
  }

  function Run(w: World, acts: seq<Action>): World {
    if acts == [] then w else Step(Run(w, acts[..|acts| - 1]), acts[|acts| - 1])
  }

  // The order of marks.

  lemma EarlierTransitive(a: Mark, b: Mark, c: Mark)
    requires Earlier(a, b) && Earlier(b, c)
    ensures Earlier(a, c)
  {
    if a.at == b.at && b.at == c.at { Transitive(a.id, b.id, c.id); }
  }

  lemma EarlierTotal(a: Mark, b: Mark)
    ensures Earlier(a, b) || a == b || Earlier(b, a)
    ensures !(Earlier(a, b) && UpTo(b, a))
  {
    Total(a.id, b.id);
    Irreflexive(a.id);
    if Before(a.id, b.id) { Asymmetric(a.id, b.id); }
  }

  // The invariant.

  /** A page still to be delivered from the relay's cursor on: in order, and nothing of the trail between is missing from it. */
  ghost predicate PageInv(w: World, cursor: Mark, page: seq<Mark>) {
    && page != [] && Ascending(page) && Earlier(cursor, page[0])
    && (forall e :: e in page ==> e in w.committed && e.at < w.clock - w.settle)
    && (forall e :: e in w.trail && Earlier(cursor, e) && UpTo(e, page[|page| - 1]) ==> e in page)
  }

  ghost predicate PcInv(w: World, pc: Pc) {
    && (pc.Placing? ==> pc.to != Zero)
    && (pc.Reading? || pc.Listed? || pc.Wrote? ==>
          w.cursor.Some? && w.start.Some? && UpTo(w.start.value, pc.cursor) && UpTo(pc.cursor, w.cursor.value))
    && (pc.Listed? || pc.Wrote? ==> PageInv(w, pc.cursor, pc.page))
    && (pc.Wrote? ==> pc.page[0] in w.stream)
  }

  /** Every event after the start that left the trail is with the sink. */
  ghost predicate NothingLost(w: World) {
    forall e :: e in w.committed && e !in w.trail ==> !Owed(w, e)
  }

  /** Whatever the sink has, it has everything before. */
  ghost predicate DownwardClosed(w: World) {
    forall e, f :: e in w.committed && f in w.stream && w.start.Some? && Earlier(w.start.value, e) && Earlier(e, f) ==> e in w.stream
  }

  ghost predicate Inv(w: World) {
    && w.clock > 0 && w.trail <= w.committed
    && (forall e :: e in w.committed ==> e.id != "")
    && (w.start.Some? <==> w.cursor.Some?)
    && (w.start.Some? ==> UpTo(w.start.value, w.cursor.value) && w.cursor.value != Zero)
    && (w.start.Some? ==> w.cursor == w.start || w.cursor.value.at < w.clock - w.settle)
    && (forall e :: e in w.stream ==>
          e in w.committed && w.start.Some? && Earlier(w.start.value, e) && e.at < w.clock - w.settle)
    && (forall e :: e in w.trail && w.start.Some? && Earlier(w.start.value, e) && UpTo(e, w.cursor.value) ==> e in w.stream)
    && (forall r :: r in w.procs ==> PcInv(w, w.procs[r]))
    && (!w.lossy ==> NothingLost(w) && DownwardClosed(w) && Ascending(Dedup(w.stream)))
  }

  /** What is left of a stream when repeats are dropped. */
  function Dedup(stream: seq<Mark>): seq<Mark> {
    if stream == [] then []
    else
      var n := |stream| - 1;
      if stream[n] in stream[..n] then Dedup(stream[..n]) else Dedup(stream[..n]) + [stream[n]]
  }

  lemma {:induction false} DedupKeeps(stream: seq<Mark>, e: Mark)
    ensures e in Dedup(stream) <==> e in stream
  {
    if stream != [] {
      var n := |stream| - 1;
      DedupKeeps(stream[..n], e);
      assert stream == stream[..n] + [stream[n]];
    }
  }

  lemma LeaveKeeps(w: World, r: Relayer)
    requires Inv(w)
    ensures Inv(Leave(w, r))
  {}

  lemma FirstIsIn(stream: seq<Mark>)
    ensures stream != [] ==> exists e :: e in stream
  {
    if stream != [] { assert stream[0] in stream; }
  }

  lemma PlaceKeeps(w: World, r: Relayer, to: Mark)
    requires Inv(w) && r in w.procs && w.procs[r] == Placing(to)
    ensures Inv(PlaceStep(w, r, to))
  {
    LeaveKeeps(w, r);
    assert PcInv(w, w.procs[r]);
    if w.cursor.None? {
      var v := PlaceStep(w, r, to);
      FirstIsIn(w.stream);
      forall e | e in v.trail && Earlier(to, e)
        ensures !UpTo(e, to)
      {
        EarlierTotal(to, e);
      }
    }
  }

  lemma PruneKeeps(w: World, before: Mark)
    requires Inv(w)
    ensures Inv(PruneStep(w, before))
  {
    var v := PruneStep(w, before);
    if !v.lossy {
      forall e | e in v.committed && e !in v.trail
        ensures !Owed(v, e)
      {
        assert Owed(v, e) == Owed(w, e);
      }
    }
  }

  lemma CommitKeeps(w: World, e: Mark)
    requires Inv(w) && MayCommit(w, e)
    ensures Inv(Step(w, Commit(e)))
  {
    var v := Step(w, Commit(e));
    if w.start.Some? && Earlier(w.start.value, e) {
      if w.cursor == w.start { EarlierTotal(w.start.value, e); }
      assert !UpTo(e, w.cursor.value);
    }
    if !w.lossy {
      forall f | f in v.committed && f !in v.trail
        ensures !Owed(v, f)
      {
        assert Owed(v, f) == Owed(w, f);
      }
    }
  }

  lemma ListKeeps(w: World, r: Relayer, until: int, page: seq<Mark>)
    requires Inv(w) && r in w.procs && w.procs[r].Reading? && page != []
    requires until <= w.clock - w.settle && IsPage(w.trail, w.procs[r].cursor, until, page)
    ensures Inv(Step(w, List(r, until, page)))
  {
    var cursor := w.procs[r].cursor;
    var last := page[|page| - 1];
    assert PcInv(w, w.procs[r]);
    forall e | e in w.trail && Earlier(cursor, e) && UpTo(e, last)
      ensures e in page
    {
      assert last in page;
      EarlierTotal(last, e);
    }
    assert page[0] in page;
    assert PageInv(w, cursor, page);
    SetPcKeeps(w, r, Listed(cursor, page, |page| == BATCH));
  }

  lemma NotBeforeFirst(page: seq<Mark>, e: Mark)
    requires page != [] && Ascending(page) && Earlier(e, page[0])
    ensures e !in page
  {
    forall i | 0 <= i < |page|
      ensures page[i] != e
    {
      EarlierTotal(e, page[0]);
    }
  }

  /** The next event of a page comes right after everything the sink was owed before it. */
  lemma NextInLine(w: World, cursor: Mark, page: seq<Mark>, e: Mark)
    requires Inv(w) && w.cursor.Some? && UpTo(w.start.value, cursor) && UpTo(cursor, w.cursor.value) && PageInv(w, cursor, page)
    requires e in w.trail && Earlier(w.start.value, e) && Earlier(e, page[0])
    ensures e in w.stream
  {
    EarlierTotal(cursor, e);
    if Earlier(cursor, e) {
      if |page| > 1 { EarlierTransitive(e, page[0], page[|page| - 1]); }
      NotBeforeFirst(page, e);
    } else if Earlier(e, cursor) && cursor != w.cursor.value {
      EarlierTransitive(e, cursor, w.cursor.value);
    }
  }

  lemma WriteKeeps(w: World, r: Relayer)
    requires Inv(w) && r in w.procs && w.procs[r].Listed?
    ensures Inv(Step(w, Write(r)))
  {
    var pc := w.procs[r];
    assert PcInv(w, pc);
    var v := Step(w, Write(r));
    assert pc.page[0] in pc.page;
    assert Earlier(w.start.value, pc.page[0]) by {
      if w.start.value != pc.cursor { EarlierTransitive(w.start.value, pc.cursor, pc.page[0]); }
    }
    WritePcs(w, r);
    if !w.lossy { WriteInOrder(w, pc); }
  }

  lemma WritePcs(w: World, r: Relayer)
    requires (forall q :: q in w.procs ==> PcInv(w, w.procs[q])) && r in w.procs && w.procs[r].Listed?
    ensures var v := Step(w, Write(r)); forall q :: q in v.procs ==> PcInv(v, v.procs[q])
  {
    var pc := w.procs[r];
    assert PcInv(w, pc);
    var v := At(w, r, Wrote(pc.cursor, pc.page, pc.full)).(stream := w.stream + [pc.page[0]]);
    forall q | q in v.procs
      ensures PcInv(v, v.procs[q])
    {
      assert PcInv(w, w.procs[q]);
    }
  }

  /** With nothing lost, a write appends the next event of the trail or repeats an old one. */
  lemma WriteInOrder(w: World, pc: Pc)
    requires Inv(w) && !w.lossy && pc.Listed? && PcInv(w, pc) && Earlier(w.start.value, pc.page[0])
    ensures var e := pc.page[0];
            var v := w.(stream := w.stream + [e]);
            NothingLost(v) && DownwardClosed(v) && Ascending(Dedup(v.stream))
  {
    var e := pc.page[0];
    var v := w.(stream := w.stream + [e]);
    forall f | f in w.committed && Earlier(w.start.value, f) && Earlier(f, e)
      ensures f in w.stream
    {
      if f in w.trail { NextInLine(w, pc.cursor, pc.page, f); } else { assert !Owed(w, f); }
    }
    forall f | f in v.committed && f !in v.trail
      ensures !Owed(v, f)
    {
      assert !Owed(w, f);
    }
    assert v.stream[..|w.stream|] == w.stream;
    if e !in w.stream {
      var d := Dedup(w.stream);
      forall i | 0 <= i < |d|
        ensures Earlier(d[i], e)
      {
        DedupKeeps(w.stream, d[i]);
        assert e in pc.page;
        EarlierTotal(d[i], e);
      }
    }
  }

  lemma AdvanceKeeps(w: World, r: Relayer)
    requires Inv(w) && r in w.procs && w.procs[r].Wrote?
    ensures Inv(Step(w, Advance(r)))
  {
    var pc := w.procs[r];
    assert PcInv(w, pc);
    if w.cursor != Some(pc.cursor) { LeaveKeeps(w, r); return; }
    AdvanceAccepted(w, r);
    var v := AdvanceStep(w, r, pc.cursor, pc.page, pc.full);
    AdvancePcs(w, v, r, pc.cursor, pc.page, pc.full);
    if !w.lossy { SameOwed(w, v); }
  }

  lemma SameOwed(w: World, v: World)
    requires NothingLost(w) && v.committed == w.committed && v.trail == w.trail && v.start == w.start && v.stream == w.stream
    ensures NothingLost(v)
  {
    forall f | f in v.committed && f !in v.trail
      ensures !Owed(v, f)
    {
      assert !Owed(w, f);
    }
  }

  /** The cursor moves to an event the sink has, as it has everything before. */
  lemma AdvanceAccepted(w: World, r: Relayer)
    requires Inv(w) && r in w.procs && w.procs[r].Wrote? && w.cursor == Some(w.procs[r].cursor)
    ensures var e := w.procs[r].page[0];
            && Earlier(w.start.value, e) && Earlier(w.cursor.value, e) && e != Zero && e.at < w.clock - w.settle
            && forall f :: f in w.trail && Earlier(w.start.value, f) && UpTo(f, e) ==> f in w.stream
  {
    var pc := w.procs[r];
    assert PcInv(w, pc);
    var e := pc.page[0];
    assert e in pc.page;
    if w.start.value != pc.cursor { EarlierTransitive(w.start.value, pc.cursor, e); }
    forall f | f in w.trail && Earlier(w.start.value, f) && UpTo(f, e)
      ensures f in w.stream
    {
      if f != e { NextInLine(w, pc.cursor, pc.page, f); }
    }
  }

  /** A cursor that moves on leaves every other relay's place as it was. */
  lemma PcSurvives(w: World, v: World, e: Mark, pc: Pc)
    requires PcInv(w, pc) && w.cursor.Some? && Earlier(w.cursor.value, e)
    requires v.cursor == Some(e) && v.start == w.start && v.stream == w.stream
    requires v.trail == w.trail && v.committed == w.committed && v.clock == w.clock && v.settle == w.settle
    ensures PcInv(v, pc)
  {
    if (pc.Reading? || pc.Listed? || pc.Wrote?) && pc.cursor != w.cursor.value {
      EarlierTransitive(pc.cursor, w.cursor.value, e);
    }
  }

  lemma AdvanceOwnPc(w: World, v: World, r: Relayer, cursor: Mark, page: seq<Mark>, full: bool)
    requires w.cursor == Some(cursor) && w.start.Some? && PageInv(w, cursor, page) && Earlier(w.start.value, page[0])
    requires v == AdvanceStep(w, r, cursor, page, full)
    ensures r in v.procs ==> PcInv(v, v.procs[r])
  {
    if |page| > 1 {
      RestOfPage(w, cursor, page);
      RestInv(w, w.(cursor := Some(page[0])), page, full);
    }
  }

  lemma RestInv(w: World, v: World, page: seq<Mark>, full: bool)
    requires |page| > 1 && PageInv(w, page[0], page[1..]) && w.start.Some? && Earlier(w.start.value, page[0])
    requires v == w.(cursor := Some(page[0]))
    ensures PcInv(v, Listed(page[0], page[1..], full))
  {}

  lemma OtherPcs(w: World, v: World, r: Relayer, e: Mark)
    requires forall q :: q in w.procs ==> PcInv(w, w.procs[q])
    requires w.cursor.Some? && Earlier(w.cursor.value, e)
    requires v.cursor == Some(e) && v.start == w.start && v.stream == w.stream
    requires v.trail == w.trail && v.committed == w.committed && v.clock == w.clock && v.settle == w.settle
    requires forall q :: q in v.procs && q != r ==> q in w.procs && v.procs[q] == w.procs[q]
    ensures forall q :: q in v.procs && q != r ==> PcInv(v, v.procs[q])
  {
    forall q | q in v.procs && q != r
      ensures PcInv(v, v.procs[q])
    {
      PcSurvives(w, v, e, w.procs[q]);
    }
  }

  lemma AdvancePcs(w: World, v: World, r: Relayer, cursor: Mark, page: seq<Mark>, full: bool)
    requires forall q :: q in w.procs ==> PcInv(w, w.procs[q])
    requires w.cursor == Some(cursor) && w.start.Some? && PageInv(w, cursor, page) && Earlier(w.start.value, page[0])
    requires v == AdvanceStep(w, r, cursor, page, full)
    ensures forall q :: q in v.procs ==> PcInv(v, v.procs[q])
  {
    AdvanceOwnPc(w, v, r, cursor, page, full);
    OtherPcs(w, v, r, page[0]);
  }

  lemma RestOfPage(w: World, cursor: Mark, page: seq<Mark>)
    requires PageInv(w, cursor, page) && |page| > 1
    ensures PageInv(w, page[0], page[1..])
  {
    forall e | e in w.trail && Earlier(page[0], e) && UpTo(e, page[|page| - 1])
      ensures e in page[1..]
    {
      EarlierTransitive(cursor, page[0], e);
      EarlierTotal(page[0], e);
      assert e in page && e != page[0];
    }
  }

  lemma StepKeeps(w: World, a: Action)
    requires Inv(w)
    ensures Inv(Step(w, a))
  {
    match a
    case Tick(d) =>
      var v := Step(w, a);
      if !w.lossy { forall e | e in v.committed && e !in v.trail ensures !Owed(v, e) { assert !Owed(w, e); } }
    case Commit(e) => if MayCommit(w, e) { CommitKeeps(w, e); }
    case Prune(before) => PruneKeeps(w, before);
    case Load(r) => LoadKeeps(w, r);
    case Stop(r) => LeaveKeeps(w, r);
    case _ => if a.r in w.procs { MoveKeeps(w, a); }
  }

  lemma SetPcKeeps(w: World, r: Relayer, pc: Pc)
    requires Inv(w) && PcInv(w, pc)
    ensures Inv(At(w, r, pc))
  {
    var v := At(w, r, pc);
    if !w.lossy { forall e | e in v.committed && e !in v.trail ensures !Owed(v, e) { assert !Owed(w, e); } }
  }

  lemma LoadKeeps(w: World, r: Relayer)
    requires Inv(w)
    ensures Inv(Step(w, Load(r)))
  {
    if r !in w.procs { SetPcKeeps(w, r, if w.cursor.Some? then Reading(w.cursor.value) else Fresh); }
  }

  lemma MoveKeeps(w: World, a: Action)
    requires a.Newest? || a.Place? || a.List? || a.Write? || a.Advance?
    requires Inv(w) && a.r in w.procs
    ensures Inv(Move(w, a, w.procs[a.r]))
  {
    match (a, w.procs[a.r])
    case (Newest(r, m), Fresh) => if IsNewest(w, m) { SetPcKeeps(w, r, Placing(m)); }
    case (Place(r), Placing(to)) => PlaceKeeps(w, r, to);
    case (List(r, until, page), Reading(cursor)) =>
      if until <= w.clock - w.settle && IsPage(w.trail, cursor, until, page) {
        if page == [] { LeaveKeeps(w, r); } else { ListKeeps(w, r, until, page); }
      }
    case (Write(r), Listed(cursor, page, full)) => WriteKeeps(w, r);
    case (Advance(r), Wrote(cursor, page, full)) => AdvanceKeeps(w, r);
    case _ =>
  }

  lemma {:induction false} RunKeeps(w: World, acts: seq<Action>)
    requires Inv(w)
    ensures Inv(Run(w, acts))
  {
    if acts != [] {
      RunKeeps(w, acts[..|acts| - 1]);
      StepKeeps(Run(w, acts[..|acts| - 1]), acts[|acts| - 1]);
    }
  }

  // What holds of every run.

  ghost predicate Reachable(w: World) {
    exists settle: nat, clock: int, acts: seq<Action> :: clock > 0 && w == Run(Init(settle, clock), acts)
  }

  lemma ReachableInv(w: World)
    requires Reachable(w)
    ensures Inv(w)
  {
    var settle: nat, clock: int, acts: seq<Action> :| clock > 0 && w == Run(Init(settle, clock), acts);
    assert Inv(Init(settle, clock));
    RunKeeps(Init(settle, clock), acts);
  }

  /** However relays race and die: every event still in the trail, after the first cursor and up to
      the stored one, has been accepted by the sink. */
  lemma AcceptedUpToCursor(w: World, e: Mark)
    requires Reachable(w) && e in w.trail && w.start.Some? && w.cursor.Some?
    requires Earlier(w.start.value, e) && UpTo(e, w.cursor.value)
    ensures e in w.stream
  {
    ReachableInv(w);
  }

  /** As long as nothing the sink was owed has been pruned, what the sink keeps is the trail itself
      from the first cursor on: in order, and without a gap up to its last event. */
  lemma StreamIsTrail(w: World)
    requires Reachable(w) && !w.lossy
    ensures Ascending(Dedup(w.stream))
    ensures forall e :: e in Dedup(w.stream) <==>
              e in w.committed && w.start.Some? && Earlier(w.start.value, e) && exists f :: f in w.stream && UpTo(e, f)
  {
    ReachableInv(w);
    forall e
      ensures e in Dedup(w.stream) <==> e in w.stream
    {
      DedupKeeps(w.stream, e);
    }
  }

  /** The stored cursor only moves forward. */
  lemma CursorOnlyAdvances(w: World, a: Action)
    requires Reachable(w) && w.cursor.Some?
    ensures Step(w, a).cursor.Some? && UpTo(w.cursor.value, Step(w, a).cursor.value)
  {
    ReachableInv(w);
    if (a.Advance? || a.Place?) && a.r in w.procs { assert PcInv(w, w.procs[a.r]); }
  }

  lemma Extend(w: World, a: Action) returns (v: World)
    requires Reachable(w)
    ensures v == Step(w, a) && Reachable(v)
  {
    var settle: nat, clock: int, acts: seq<Action> :| clock > 0 && w == Run(Init(settle, clock), acts);
    assert (acts + [a])[..|acts + [a]| - 1] == acts;
    v := Step(w, a);
    assert v == Run(Init(settle, clock), acts + [a]);
  }
}
