/** One relay's side of Relay.Step (internal/audit/relay.go): the nested loops over pages and
    events, with its own cursor. The relay changes the shared world only through its own actions,
    with any number of other actions in between. */
module RelayRunner {
  import opened Relay

  predicate By(a: Action, r: Relayer) {
    match a
    case Tick(_) => false
    case Commit(_) => false
    case Prune(_) => false
    case _ => a.r == r
  }

  /** What no other relay, commit or pruning can do to a relay r: move it, or shrink the stream. */
  ghost predicate Around(u: World, v: World, r: Relayer) {
    && (r in u.procs <==> r in v.procs)
    && (r in u.procs ==> v.procs[r] == u.procs[r])
    && Later(u, v)
  }

  ghost predicate Later(u: World, v: World) {
    && u.stream <= v.stream && (u.start.Some? ==> v.start == u.start)
    && u.clock <= v.clock && u.settle == v.settle && u.committed <= v.committed
  }

  lemma OthersGoAround(w: World, a: Action, r: Relayer)
    requires Reachable(w) && !By(a, r)
    ensures Around(w, Step(w, a), r)
  {
    StepIsLater(w, a);
  }

  lemma StartIsFirstCursor(w: World)
    requires Reachable(w)
    ensures w.start.Some? <==> w.cursor.Some?
  {
    ReachableInv(w);
  }

  lemma StepIsLater(w: World, a: Action)
    requires Reachable(w)
    ensures Later(w, Step(w, a))
  {
    StartIsFirstCursor(w);
  }

  lemma ReachableStep(w: World, a: Action)
    requires Reachable(w)
    ensures Reachable(Step(w, a))
  {
    var v := Extend(w, a);
  }

  /** The trail, the stored cursor and the sink, with everyone working on them. */
  class Shared {
    var w: World

    ghost predicate Valid()
      reads this
    {
      Reachable(w)
    }

    constructor (settle: nat, clock: int)
      requires clock > 0
      ensures Valid() && w == Init(settle, clock)
    {
      w := Init(settle, clock);
      new;
      assert w == Run(Init(settle, clock), []);
    }

    method Do(a: Action)
      requires Valid()
      modifies this
      ensures Valid() && w == Step(old(w), a) && Later(old(w), w)
    {
      ReachableStep(w, a);
      StepIsLater(w, a);
      w := Step(w, a);
    }

    /** Any number of steps that are not this relay's. */
    method Others(me: Relayer)
      requires Valid()
      modifies this
      ensures Valid() && Around(old(w), w, me)
    {
      var acts: seq<Action> := *;
      for i := 0 to |acts|
        invariant Valid() && Around(old(w), w, me)
      {
        if !By(acts[i], me) {
          OthersGoAround(w, acts[i], me);
          Do(acts[i]);
        }
      }
    }
  }

  /** newest: where the trail is now. */
  method FindNewest(trail: set<Mark>, clock: int) returns (m: Mark)
    ensures if trail == {} then m == Mark(clock, "") else m in trail && forall e :: e in trail ==> e == m || Earlier(e, m)
    ensures forall w: World :: w.trail == trail && w.clock == clock ==> IsNewest(w, m)
  {
    if trail == {} { return Mark(clock, ""); }
    m :| m in trail;
    var rest := trail - {m};
    while rest != {}
      invariant rest <= trail && m in trail
      invariant forall e :: e in trail && e !in rest ==> UpTo(e, m)
      decreases |rest|
    {
      var e :| e in rest;
      if Earlier(m, e) {
        EverythingBefore(trail - rest, m, e);
        m := e;
      } else {
        EarlierTotal(m, e);
      }
      rest := rest - {e};
    }
  }

  lemma EverythingBefore(passed: set<Mark>, m: Mark, e: Mark)
    requires Earlier(m, e) && forall f :: f in passed ==> UpTo(f, m)
    ensures forall f :: f in passed ==> UpTo(f, e)
  {
    forall f | f in passed
      ensures UpTo(f, e)
    {
      if f != m { EarlierTransitive(f, m, e); }
    }
  }

  method FindOldest(due: set<Mark>) returns (m: Mark)
    requires due != {}
    ensures m in due && forall e :: e in due ==> UpTo(m, e)
  {
    m :| m in due;
    var rest := due - {m};
    while rest != {}
      invariant rest <= due && m in due
      invariant forall e :: e in due && e !in rest ==> UpTo(m, e)
      decreases |rest|
    {
      var e :| e in rest;
      EarlierTotal(m, e);
      if Earlier(e, m) {
        forall f | f in due && f !in rest
          ensures UpTo(e, f)
        {
          if f != m { EarlierTransitive(e, m, f); }
        }
        m := e;
      }
      rest := rest - {e};
    }
  }

  /** The page ListAuditEventsAfter answers with. */
  method ListPage(trail: set<Mark>, cursor: Mark, until: int) returns (page: seq<Mark>)
    ensures IsPage(trail, cursor, until, page)
    ensures |page| <= 100 && (forall i, j :: 0 <= i < j < |page| ==> Earlier(page[i], page[j]))
    ensures forall e :: e in page ==> e in trail && Earlier(cursor, e) && e.at < until
    ensures forall e :: e in trail && Earlier(cursor, e) && e.at < until && e !in page ==> |page| == 100 && Earlier(page[99], e)
  {
    page := [];
    var due := set e | e in trail && Earlier(cursor, e) && e.at < until;
    while due != {} && |page| < BATCH
      invariant |page| <= BATCH && Ascending(page)
      invariant forall e :: e in trail && Earlier(cursor, e) && e.at < until <==> e in page || e in due
      invariant forall e, f :: e in page && f in due ==> Earlier(e, f)
      decreases |due|
    {
      var m := FindOldest(due);
      assert forall e :: e in page ==> Earlier(e, m);
      page := page + [m];
      due := due - {m};
    }
    if due != {} { assert page[BATCH - 1] in page; }
  }

  /** How a call of Step ends. */
  datatype Outcome = Placed | CaughtUp | Raced | Refused | OutOfPages

  /** Every event this call saw in the trail as due is with the sink. */
  ghost predicate AllAccepted(seen: World, until: int, w: World) {
    seen.start.Some? && forall e :: e in seen.trail && Earlier(seen.start.value, e) && e.at < until ==> e in w.stream
  }

  /** What a call of Step wrote, in order, and how many of these it reported as delivered. */
  ghost predicate Wrote(mine: seq<Mark>, after: Mark, delivered: nat, w: World, lucky: bool) {
    && Ascending(mine) && (forall e :: e in mine ==> Earlier(after, e) && e in w.stream)
    && |mine| - 1 <= delivered <= |mine| && (lucky ==> delivered == |mine|)
  }

  lemma AscendingAppend(mine: seq<Mark>, e: Mark)
    requires Ascending(mine) && (mine != [] ==> Earlier(mine[|mine| - 1], e))
    ensures Ascending(mine + [e])
  {
    forall i | 0 <= i < |mine|
      ensures Earlier(mine[i], e)
    {
      if i < |mine| - 1 { EarlierTransitive(mine[i], mine[|mine| - 1], e); }
    }
  }

  /** The relay's own cursor is the last event it wrote. */
  ghost predicate Behind(mine: seq<Mark>, after: Mark, cursor: Mark) {
    if mine == [] then cursor == after else cursor == mine[|mine| - 1]
  }

  lemma WroteOneMore(mine: seq<Mark>, after: Mark, delivered: nat, cursor: Mark, e: Mark, u: World, v: World)
    requires Wrote(mine, after, delivered, u, true) && Behind(mine, after, cursor) && Earlier(cursor, e)
    requires u.stream <= v.stream && e in v.stream
    ensures Wrote(mine + [e], after, delivered + 1, v, true)
    ensures Wrote(mine + [e], after, delivered, v, false)
    ensures Behind(mine + [e], after, e)
  {
    AscendingAppend(mine, e);
    if mine != [] {
      assert cursor in mine;
      EarlierTransitive(after, cursor, e);
    }
    assert forall f :: f in u.stream ==> f in v.stream;
  }

  /** The shared cursor is not where this call would have moved it on from. */
  ghost predicate Overtaken(mine: seq<Mark>, after: Mark, w: World) {
    mine != [] && w.cursor != Some(if |mine| == 1 then after else mine[|mine| - 2])
  }

  lemma PlaceOf(w: World, r: Relayer)
    requires Reachable(w) && r in w.procs && w.procs[r].Listed?
    ensures w.procs[r].page != [] && Earlier(w.procs[r].cursor, w.procs[r].page[0])
  {
    ReachableInv(w);
    assert PcInv(w, w.procs[r]);
  }

  /** One turn of the inner loop: write the next event, then move the shared cursor. The relay carries on
      only when it was the one to move it. */
  method DeliverOne(s: Shared, r: Relayer, lucky: bool) returns (wrote: bool, counted: bool, moved: bool)
    requires s.Valid() && r in s.w.procs && s.w.procs[r].Listed?
    modifies s
    ensures s.Valid() && Later(old(s.w), s.w)
    ensures old(s.w.procs[r]).page != [] && Earlier(old(s.w.procs[r]).cursor, old(s.w.procs[r]).page[0])
    ensures moved ==> counted
    ensures counted ==> wrote
    ensures lucky ==> wrote && counted
    ensures wrote ==> old(s.w.procs[r]).page[0] in s.w.stream
    ensures !moved ==> r !in s.w.procs
    ensures counted && !moved ==> s.w.cursor != Some(old(s.w.procs[r]).cursor)
    ensures moved ==> var pc := old(s.w.procs[r]);
                      if |pc.page| > 1 then r in s.w.procs && s.w.procs[r] == Listed(pc.page[0], pc.page[1..], pc.full)
                      else if pc.full then r in s.w.procs && s.w.procs[r] == Reading(pc.page[0])
                      else r !in s.w.procs
  {
    PlaceOf(s.w, r);
    var pc := s.w.procs[r];
    wrote, counted := true, true;
    if !lucky { wrote := *; counted := *; }
    if !wrote { s.Do(Stop(r)); return false, false, false; }
    s.Do(Write(r));
    ghost var u := s.w;
    assert pc.page[0] == u.stream[|u.stream| - 1];
    s.Others(r);
    assert u.stream <= s.w.stream;
    ghost var v := s.w;
    if !counted { s.Do(Stop(r)); return true, false, false; }
    moved := s.w.cursor == Some(pc.cursor);
    AdvanceOutcome(s.w, r);
    s.Do(Advance(r));
    assert v.stream <= s.w.stream;
  }

  lemma AdvanceOutcome(w: World, r: Relayer)
    requires r in w.procs && w.procs[r].Wrote? && w.procs[r].page != []
    ensures var v, pc := Step(w, Advance(r)), w.procs[r];
            if w.cursor != Some(pc.cursor) then r !in v.procs
            else if |pc.page| > 1 then r in v.procs && v.procs[r] == Listed(pc.page[0], pc.page[1..], pc.full)
            else if pc.full then r in v.procs && v.procs[r] == Reading(pc.page[0])
            else r !in v.procs
  {}

  /** The inner loop: the events of one page, until the sink refuses one or another relay got
      further. */
  method DeliverPage(s: Shared, r: Relayer, lucky: bool, ghost after: Mark, ghost before: seq<Mark>, count: nat)
      returns (out: Outcome, delivered: nat, ghost mine: seq<Mark>)
    requires s.Valid() && r in s.w.procs && s.w.procs[r].Listed? && s.w.procs[r].page != []
    requires Wrote(before, after, count, s.w, true) && Behind(before, after, s.w.procs[r].cursor)
    modifies s
    ensures s.Valid() && Later(old(s.w), s.w)
    ensures out in {CaughtUp, Raced, Refused} && (lucky ==> out != Refused)
    ensures Wrote(mine, after, delivered, s.w, out != Refused)
    ensures out == CaughtUp ==> forall e :: e in old(s.w.procs[r]).page ==> e in s.w.stream
    ensures out == CaughtUp ==> delivered == count + |old(s.w.procs[r]).page|
    ensures out == Raced ==> Overtaken(mine, after, s.w)
    ensures out != CaughtUp ==> r !in s.w.procs
    ensures out == CaughtUp ==> var pc := old(s.w.procs[r]);
              if pc.full then
                && r in s.w.procs && s.w.procs[r] == Reading(pc.page[|pc.page| - 1])
                && Behind(mine, after, pc.page[|pc.page| - 1])
              else r !in s.w.procs
  {
    var pc := s.w.procs[r];
    var page, full := pc.page, pc.full;
    mine, delivered := before, count;
    for i := 0 to |page|
      invariant delivered == count + i
      invariant s.Valid() && Later(old(s.w), s.w) && Wrote(mine, after, delivered, s.w, true)
      invariant Behind(mine, after, if i == 0 then pc.cursor else page[i - 1])
      invariant InPage(s.w, r, page, full, i, pc.cursor)
    {
      out, delivered, mine := DeliverNext(s, r, lucky, after, mine, delivered, page, full, i, pc.cursor);
      if out != CaughtUp { return; }
    }
    out := CaughtUp;
  }

  /** One event of the page; CaughtUp says that the relay carries on behind it. */
  method DeliverNext(s: Shared, r: Relayer, lucky: bool, ghost after: Mark, ghost before: seq<Mark>, count: nat,
      ghost page: seq<Mark>, ghost full: bool, ghost i: nat, ghost first: Mark)
      returns (out: Outcome, delivered: nat, ghost mine: seq<Mark>)
    requires s.Valid() && i < |page| && InPage(s.w, r, page, full, i, first)
    requires Wrote(before, after, count, s.w, true) && Behind(before, after, if i == 0 then first else page[i - 1])
    modifies s
    ensures s.Valid() && Later(old(s.w), s.w)
    ensures out in {CaughtUp, Raced, Refused} && (lucky ==> out != Refused)
    ensures Wrote(mine, after, delivered, s.w, out != Refused)
    ensures out == Raced ==> Overtaken(mine, after, s.w)
    ensures out != CaughtUp ==> r !in s.w.procs
    ensures out == CaughtUp ==> delivered == count + 1 && Behind(mine, after, page[i]) && InPage(s.w, r, page, full, i + 1, first)
  {
    ghost var h := s.w;
    s.Others(r);
    ghost var u := s.w;
    StillWrote(before, after, count, h, u);
    delivered, mine := count, before;
    var wrote, counted, moved := DeliverOne(s, r, lucky);
    if !wrote { StillWrote(before, after, count, u, s.w); return Refused, delivered, mine; }
    WroteOneMore(before, after, count, if i == 0 then first else page[i - 1], page[i], u, s.w);
    mine := before + [page[i]];
    if !counted { return Refused, delivered, mine; }
    delivered := count + 1;
    if !moved { return Raced, delivered, mine; }
    OneFurther(h, s.w, r, page, full, i, first);
    out := CaughtUp;
  }

  /** Where a relay is after the first i events of a page, which are with the sink. */
  ghost predicate InPage(w: World, r: Relayer, page: seq<Mark>, full: bool, i: nat, cursor: Mark)
    requires i <= |page|
  {
    && (forall e :: e in page[..i] ==> e in w.stream)
    && (i < |page| ==> r in w.procs && w.procs[r] == Listed(if i == 0 then cursor else page[i - 1], page[i..], full))
    && (i == |page| > 0 ==> if full then r in w.procs && w.procs[r] == Reading(page[i - 1]) else r !in w.procs)
  }

  lemma OneFurther(u: World, v: World, r: Relayer, page: seq<Mark>, full: bool, i: nat, cursor: Mark)
    requires i < |page| && InPage(u, r, page, full, i, cursor) && u.stream <= v.stream && page[i] in v.stream
    requires if i + 1 < |page| then r in v.procs && v.procs[r] == Listed(page[i], page[i..][1..], full)
             else if full then r in v.procs && v.procs[r] == Reading(page[i])
             else r !in v.procs
    ensures InPage(v, r, page, full, i + 1, cursor)
  {
    assert page[..i + 1] == page[..i] + [page[i]];
    assert page[i..][1..] == page[i + 1..];
    assert forall e :: e in u.stream ==> e in v.stream;
  }

  /** Step: load the cursor, or start where the trail is now; then page by page until nothing more
      is due. A cancelled context or a store error ends it as a refusal does, and pages bounds how
      long it keeps finding full pages. */
  method RelayStep(s: Shared, r: Relayer, pages: nat, lucky: bool)
      returns (out: Outcome, delivered: nat, ghost mine: seq<Mark>, ghost seen: World, ghost until: int)
    requires s.Valid() && r !in s.w.procs
    modifies s
    ensures s.Valid() && r !in s.w.procs && Later(old(s.w), s.w)
    ensures lucky ==> out != Refused
    ensures old(s.w.cursor).Some? ==> Wrote(mine, old(s.w.cursor.value), delivered, s.w, out != Refused)
    ensures old(s.w.cursor).None? ==> mine == [] && delivered == 0 && out in {Placed, Refused}
    ensures out == Placed ==> s.w.start.Some? && old(s.w.cursor).None?
    ensures out == Raced ==> old(s.w.cursor).Some? && Overtaken(mine, old(s.w.cursor.value), s.w)
    ensures out == OutOfPages ==> delivered == pages * BATCH
    ensures out == CaughtUp ==> old(s.w.clock) - s.w.settle <= until && Later(old(s.w), seen) && AllAccepted(seen, until, s.w)
  {
    delivered, mine, seen, until := 0, [], s.w, s.w.clock - s.w.settle;
    s.Do(Load(r));
    if s.w.procs[r].Fresh? {
      ghost var met, placing;
      out, met, placing := PlaceCursor(s, r, lucky);
      return;
    }
    ReachableInv(s.w);
    ghost var after := s.w.procs[r].cursor;
    for i := 0 to pages
      invariant s.Valid() && Later(old(s.w), s.w)
      invariant r in s.w.procs && s.w.procs[r].Reading? && Behind(mine, after, s.w.procs[r].cursor)
      invariant Wrote(mine, after, delivered, s.w, true) && delivered == i * BATCH
    {
      out, delivered, mine, seen, until := OnePage(s, r, lucky, after, mine, delivered);
      if out != CaughtUp || r !in s.w.procs { return; }
    }
    s.Do(Stop(r));
    out := OutOfPages;
  }

  /** The cursor is now the newest event of the trail met, or its clock if there was none, unless another relay had
      placed one; then that stays. */
  ghost predicate StartsAt(met: World, placing: World, w: World) {
    if placing.cursor.Some? then w.cursor == placing.cursor && w.start == placing.start
    else
      && w.cursor.Some? && w.start == w.cursor
      && if met.trail == {} then w.cursor.value == Mark(met.clock, "")
         else w.cursor.value in met.trail && forall e :: e in met.trail ==> e == w.cursor.value || Earlier(e, w.cursor.value)
  }

  /** A relay starts where the trail is now, unless another has created the cursor meanwhile. */
  method PlaceCursor(s: Shared, r: Relayer, lucky: bool) returns (out: Outcome, ghost met: World, ghost placing: World)
    requires s.Valid() && r in s.w.procs && s.w.procs[r].Fresh?
    modifies s
    ensures s.Valid() && r !in s.w.procs && Later(old(s.w), s.w)
    ensures out in {Placed, Refused} && (lucky ==> out == Placed)
    ensures out == Placed ==> s.w.start.Some?
    ensures out == Placed ==> StartsAt(met, placing, s.w)
  {
    met, placing := s.w, s.w;
    var well := true;
    if !lucky { well := *; }
    if !well { s.Do(Stop(r)); return Refused, met, placing; }
    s.Others(r);
    met := s.w;
    var m := FindNewest(s.w.trail, s.w.clock);
    s.Do(Newest(r, m));
    s.Others(r);
    placing := s.w;
    if !lucky { well := *; }
    if !well { s.Do(Stop(r)); return Refused, met, placing; }
    ReachableInv(s.w);
    s.Do(Place(r));
    out := Placed;
  }

  /** The events listed as due are, with those behind the relay's cursor, all there are. */
  lemma NothingElseDue(seen: World, r: Relayer, until: int, page: seq<Mark>, w: World)
    requires Reachable(seen) && r in seen.procs && seen.procs[r].Reading?
    requires IsPage(seen.trail, seen.procs[r].cursor, until, page) && |page| < BATCH
    requires seen.stream <= w.stream && forall e :: e in page ==> e in w.stream
    ensures AllAccepted(seen, until, w)
  {
    ReachableInv(seen);
    var cursor := seen.procs[r].cursor;
    assert PcInv(seen, seen.procs[r]);
    forall e | e in seen.trail && Earlier(seen.start.value, e) && e.at < until
      ensures e in w.stream
    {
      EarlierTotal(cursor, e);
      if !Earlier(cursor, e) {
        if cursor != seen.cursor.value && e != cursor { EarlierTransitive(e, cursor, seen.cursor.value); }
        AcceptedUpToCursor(seen, e);
      }
    }
  }

  /** One turn of the outer loop. */
  method OnePage(s: Shared, r: Relayer, lucky: bool, ghost after: Mark, ghost before: seq<Mark>, count: nat)
      returns (out: Outcome, delivered: nat, ghost mine: seq<Mark>, ghost seen: World, ghost until: int)
    requires s.Valid() && r in s.w.procs && s.w.procs[r].Reading?
    requires Wrote(before, after, count, s.w, true) && Behind(before, after, s.w.procs[r].cursor)
    modifies s
    ensures s.Valid() && Later(old(s.w), s.w)
    ensures out in {CaughtUp, Raced, Refused} && (lucky ==> out != Refused)
    ensures Wrote(mine, after, delivered, s.w, out != Refused)
    ensures out == Raced ==> Overtaken(mine, after, s.w)
    ensures out == CaughtUp && r in s.w.procs ==> delivered == count + BATCH
    ensures old(s.w.clock) - s.w.settle <= until && Later(old(s.w), seen)
    ensures out != CaughtUp ==> r !in s.w.procs
    ensures out == CaughtUp ==>
              if r in s.w.procs then s.w.procs[r].Reading? && Behind(mine, after, s.w.procs[r].cursor)
              else AllAccepted(seen, until, s.w)
  {
    delivered, mine := count, before;
    var upto := s.w.clock - s.w.settle;
    s.Others(r);
    seen, until := s.w, upto;
    StillWrote(mine, after, delivered, old(s.w), seen);
    var well := true;
    if !lucky { well := *; }
    if !well { s.Do(Stop(r)); return Refused, delivered, mine, seen, until; }
    var page := ListPage(s.w.trail, s.w.procs[r].cursor, upto);
    s.Do(List(r, upto, page));
    if page == [] {
      NothingElseDue(seen, r, until, page, s.w);
      return CaughtUp, delivered, mine, seen, until;
    }
    out, delivered, mine := DeliverPage(s, r, lucky, after, mine, delivered);
    if |page| < BATCH && out == CaughtUp { NothingElseDue(seen, r, until, page, s.w); }
  }

  lemma StillWrote(mine: seq<Mark>, after: Mark, delivered: nat, u: World, v: World)
    requires Wrote(mine, after, delivered, u, true) && u.stream <= v.stream
    ensures Wrote(mine, after, delivered, v, true)
  {
    assert forall e :: e in u.stream ==> e in v.stream;
  }
}
