/** Retention beside the relay: PruneAuditEvents (internal/store/audit.go) drops old events without
    asking how far the relay is. What a prune may cost the sink is stated by what retention could
    read before it prunes, the trail and the stored cursor. */
module RelayRetention {
  import opened Order
  import opened Relay

  /** Nothing the prune would drop lies beyond the stored cursor. */
  ghost predicate Behind(w: World, before: Mark) {
    forall e :: e in w.trail && Earlier(e, before) ==> w.cursor.Some? && UpTo(e, w.cursor.value)
  }

  lemma PruneBehindCursor(w: World, before: Mark)
    requires Reachable(w) && !w.lossy && Behind(w, before)
    ensures !Step(w, Prune(before)).lossy
  {
    ReachableInv(w);
  }

  // Runs in which every prune stays behind the cursor.

  ghost predicate PrunesBehind(w: World, acts: seq<Action>) {
    forall i :: 0 <= i < |acts| && acts[i].Prune? ==> Behind(Run(w, acts[..i]), acts[i].before)
  }

  /** Until a cursor is placed such a run prunes nothing at all. */
  ghost predicate Unpruned(w: World) {
    !w.lossy && (w.cursor.None? ==> w.committed == w.trail)
  }

  lemma UnprunedStep(w: World, a: Action)
    requires Inv(w) && Unpruned(w) && (a.Prune? ==> Behind(w, a.before))
    ensures Unpruned(Step(w, a))
  {
    if a.Prune? && w.cursor.None? { assert Step(w, a).trail == w.trail; }
  }

  lemma {:induction false} UnprunedRun(w: World, acts: seq<Action>)
    requires Inv(w) && Unpruned(w) && PrunesBehind(w, acts)
    ensures Unpruned(Run(w, acts))
  {
    if acts != [] {
      var most := acts[..|acts| - 1];
      forall i | 0 <= i < |most| && most[i].Prune?
        ensures Behind(Run(w, most[..i]), most[i].before)
      {
        assert most[..i] == acts[..i];
      }
      UnprunedRun(w, most);
      RunKeeps(w, most);
      UnprunedStep(Run(w, most), acts[|acts| - 1]);
    }
  }

  /** If every prune of a run stays behind the cursor, nothing the sink is owed is ever lost, and
      the sink keeps the trail from the first cursor on, in order and without a gap. */
  lemma RetentionBehindCursor(settle: nat, clock: int, acts: seq<Action>)
    requires clock > 0 && PrunesBehind(Init(settle, clock), acts)
    ensures var w := Run(Init(settle, clock), acts);
            && !w.lossy && Ascending(Dedup(w.stream))
            && forall e :: e in Dedup(w.stream) <==>
                 e in w.committed && w.start.Some? && Earlier(w.start.value, e) && exists f :: f in w.stream && UpTo(e, f)
  {
    UnprunedRun(Init(settle, clock), acts);
    StreamIsTrail(Run(Init(settle, clock), acts));
  }

  // A prune beyond the cursor.

  /** This relay can still write the event: it is the next of its page, or it is in its page and
      the stored cursor is still the relay's own. */
  ghost predicate HandsOver(w: World, pc: Pc, e: Mark) {
    && (pc.Listed? || pc.Wrote?) && e in pc.page
    && ((pc.Listed? && pc.page[0] == e) || w.cursor == Some(pc.cursor))
  }

  ghost predicate Held(w: World, e: Mark) {
    exists r :: r in w.procs && HandsOver(w, w.procs[r], e)
  }

  /** Pruned, not with the sink, and no relay can hand it over. */
  ghost predicate Gone(w: World, e: Mark) {
    e in w.committed && e !in w.trail && e !in w.stream && !Held(w, e)
  }

  lemma GoneStep(w: World, a: Action, e: Mark)
    requires Inv(w) && Gone(w, e)
    ensures Gone(Step(w, a), e)
  {
    var v := Step(w, a);
    if a.Advance? && a.r in w.procs && w.procs[a.r].Wrote? && w.procs[a.r].page != [] { GoneAdvance(w, a.r, e); }
    else {
      forall r | r in v.procs
        ensures !HandsOver(v, v.procs[r], e)
      {
        if r in w.procs { assert !HandsOver(w, w.procs[r], e) && PcInv(w, w.procs[r]); }
      }
    }
  }

  lemma GoneAdvance(w: World, r: Relayer, e: Mark)
    requires Inv(w) && Gone(w, e) && r in w.procs && w.procs[r].Wrote? && w.procs[r].page != []
    ensures Gone(Step(w, Advance(r)), e)
  {
    var v, pc := Step(w, Advance(r)), w.procs[r];
    assert !HandsOver(w, pc, e) && PcInv(w, pc);
    if w.cursor != Some(pc.cursor) {
      assert v == Leave(w, r);
      assert forall q :: q in v.procs ==> HandsOver(v, v.procs[q], e) == HandsOver(w, w.procs[q], e);
    } else {
      assert e !in pc.page && v.cursor == Some(pc.page[0]);
      forall q | q in v.procs && q != r
        ensures !HandsOver(v, v.procs[q], e)
      {
        assert v.procs[q] == w.procs[q] && !HandsOver(w, w.procs[q], e) && PcInv(w, w.procs[q]);
        OvertakenCannot(w, v, w.procs[q], e);
      }
    }
  }

  /** The cursor only advances, so a relay it has overtaken never wins a swap again. */
  lemma OvertakenCannot(w: World, v: World, pc: Pc, e: Mark)
    requires PcInv(w, pc) && !HandsOver(w, pc, e)
    requires w.cursor.Some? && v.cursor.Some? && Earlier(w.cursor.value, v.cursor.value)
    ensures !HandsOver(v, pc, e)
  {
    EarlierTotal(w.cursor.value, v.cursor.value);
  }

  lemma {:induction false} GoneForGood(w: World, acts: seq<Action>, e: Mark)
    requires Inv(w) && Gone(w, e)
    ensures Gone(Run(w, acts), e)
  {
    if acts != [] {
      GoneForGood(w, acts[..|acts| - 1], e);
      RunKeeps(w, acts[..|acts| - 1]);
      GoneStep(Run(w, acts[..|acts| - 1]), acts[|acts| - 1], e);
    }
  }

  lemma {:induction false} RunAfter(w: World, a: Action, acts: seq<Action>)
    ensures Run(w, [a] + acts) == Run(Step(w, a), acts)
  {
    if acts == [] {
      assert [a] + acts == [a] && Run(w, [a][..0]) == w;
    } else {
      var n := |acts| - 1;
      RunAfter(w, a, acts[..n]);
      assert ([a] + acts)[..n + 1] == [a] + acts[..n];
    }
  }

  /** A relay that can hand the event over does so when it alone goes on. */
  lemma {:induction false} HandOver(w: World, r: Relayer, e: Mark) returns (acts: seq<Action>)
    requires Inv(w) && r in w.procs && HandsOver(w, w.procs[r], e)
    ensures e in Run(w, acts).stream
    decreases |w.procs[r].page|, w.procs[r].Listed?
  {
    var pc := w.procs[r];
    assert PcInv(w, pc);
    if pc.Wrote? && pc.page[0] == e { return []; }
    var a := if pc.Listed? then Write(r) else Advance(r);
    var v := Step(w, a);
    StepKeeps(w, a);
    if pc.Listed? && pc.page[0] == e { acts := []; } else { acts := HandOver(v, r, e); }
    RunAfter(w, a, acts);
    acts := [a] + acts;
  }

  /** An event pruned before the sink had it reaches the sink in some continuation exactly when a
      relay still has it and can write it; otherwise it is lost whatever happens next. */
  lemma ArrivesIfHeld(w: World, e: Mark)
    requires Reachable(w) && e in w.committed && e !in w.trail && e !in w.stream
    ensures (exists acts :: e in Run(w, acts).stream) <==> Held(w, e)
  {
    ReachableInv(w);
    if Held(w, e) {
      var r :| r in w.procs && HandsOver(w, w.procs[r], e);
      var acts := HandOver(w, r, e);
    } else {
      forall acts
        ensures e !in Run(w, acts).stream
      {
        GoneForGood(w, acts, e);
      }
    }
  }

  /** Every relay dies. */
  lemma {:induction false} AllStop(w: World) returns (acts: seq<Action>)
    ensures Run(w, acts) == w.(procs := map[])
    decreases |w.procs|
  {
    if w.procs == map[] { return []; }
    var r :| r in w.procs;
    assert w.procs.Keys == (w.procs - {r}).Keys + {r};
    var rest := AllStop(Leave(w, r));
    RunAfter(w, Stop(r), rest);
    acts := [Stop(r)] + rest;
  }

  /** A prune of an event the sink is owed always has a continuation that loses the event for good,
      and one that still delivers it exactly when a relay holds it. Such an event lies beyond the cursor. */
  lemma PruneBeyondCursor(w: World, before: Mark, e: Mark)
    requires Reachable(w) && e in w.trail && Earlier(e, before) && Owed(w, e)
    ensures w.cursor.Some? && Earlier(w.cursor.value, e)
    ensures var v := Step(w, Prune(before));
            && v.lossy
            && (exists acts :: forall more :: e !in Run(Run(v, acts), more).stream)
            && ((exists acts :: e in Run(v, acts).stream) <==> Held(w, e))
  {
    ReachableInv(w);
    EarlierTotal(w.cursor.value, e);
    var v := Step(w, Prune(before));
    assert Reachable(v) by { var u := Extend(w, Prune(before)); }
    ReachableInv(v);
    ArrivesIfHeld(v, e);
    assert forall r :: r in w.procs ==> HandsOver(w, w.procs[r], e) == HandsOver(v, v.procs[r], e);
    var acts := AllStop(v);
    forall more
      ensures e !in Run(Run(v, acts), more).stream
    {
      RunKeeps(v, acts);
      GoneForGood(Run(v, acts), more, e);
    }
  }

  // What retention can read does not tell it that an event beyond the cursor is safe.

  /** The same run in which no relay ever writes e: one that did has died instead. */
  ghost predicate WithoutWrite(w: World, v: World, e: Mark) {
    && v == w.(stream := v.stream, procs := v.procs)
    && (forall f :: f in v.stream <==> f in w.stream && f != e)
    && (forall r :: r in v.procs <==> r in w.procs && !HasWritten(w.procs[r], e))
    && (forall r :: r in v.procs ==> v.procs[r] == w.procs[r])
  }

  predicate HasWritten(pc: Pc, e: Mark) { pc.Wrote? && pc.page != [] && pc.page[0] == e }

  function Instead(w: World, a: Action, e: Mark): Action {
    if a.Write? && a.r in w.procs && w.procs[a.r].Listed? && w.procs[a.r].page != [] && w.procs[a.r].page[0] == e then Stop(a.r)
    else if (a.Load? || a.Advance?) && a.r in w.procs && HasWritten(w.procs[a.r], e) then Tick(0)
    else a
  }

  /** e is still in the trail if it ever was, and beyond the cursor. */
  ghost predicate Kept(w: World, e: Mark) {
    (e in w.committed ==> e in w.trail) && (w.cursor.Some? ==> Earlier(w.cursor.value, e))
  }

  lemma KeptBefore(w: World, a: Action, e: Mark)
    requires Reachable(w) && Kept(Step(w, a), e)
    ensures Kept(w, e)
  {
    if w.cursor.Some? {
      CursorOnlyAdvances(w, a);
      if Step(w, a).cursor != w.cursor { EarlierTransitive(w.cursor.value, Step(w, a).cursor.value, e); }
    }
  }

  lemma SetBoth(w: World, v: World, r: Relayer, pc: Pc, e: Mark)
    requires WithoutWrite(w, v, e) && !HasWritten(pc, e)
    ensures WithoutWrite(At(w, r, pc), At(v, r, pc), e)
  {}

  lemma LeaveBoth(w: World, v: World, r: Relayer, e: Mark)
    requires WithoutWrite(w, v, e)
    ensures WithoutWrite(Leave(w, r), Leave(v, r), e)
  {}

  lemma LeaveWritten(w: World, v: World, r: Relayer, e: Mark)
    requires WithoutWrite(w, v, e) && (r in w.procs ==> HasWritten(w.procs[r], e))
    ensures WithoutWrite(Leave(w, r), v, e)
  {}

  lemma WithoutWriteStep(w: World, v: World, a: Action, e: Mark)
    requires WithoutWrite(w, v, e) && w.trail <= w.committed && Kept(Step(w, a), e)
    ensures WithoutWrite(Step(w, a), Step(v, Instead(w, a, e)), e)
  {
    match a
    case Tick(_) =>
    case Commit(_) =>
    case Prune(before) => WithoutWritePrune(w, v, before, e);
    case Load(r) => WithoutWriteLoad(w, v, r, e);
    case Stop(r) => LeaveBoth(w, v, r, e);
    case _ => if a.r in w.procs { WithoutWriteMove(w, v, a, e); }
  }

  lemma WithoutWriteLoad(w: World, v: World, r: Relayer, e: Mark)
    requires WithoutWrite(w, v, e)
    ensures WithoutWrite(Step(w, Load(r)), Step(v, Instead(w, Load(r), e)), e)
  {
    if r !in w.procs { SetBoth(w, v, r, if w.cursor.Some? then Reading(w.cursor.value) else Fresh, e); }
  }

  lemma WithoutWriteMove(w: World, v: World, a: Action, e: Mark)
    requires a.Newest? || a.Place? || a.List? || a.Write? || a.Advance?
    requires WithoutWrite(w, v, e) && a.r in w.procs && Kept(Step(w, a), e)
    ensures WithoutWrite(Step(w, a), Step(v, Instead(w, a, e)), e)
  {
    match (a, w.procs[a.r])
    case (Newest(r, m), Fresh) => if IsNewest(w, m) { SetBoth(w, v, r, Placing(m), e); }
    case (Place(r), Placing(to)) => WithoutWritePlace(w, v, r, e);
    case (List(r, until, page), Reading(cursor)) =>
      LeaveBoth(w, v, r, e);
      SetBoth(w, v, r, Listed(cursor, page, |page| == BATCH), e);
    case (Write(r), Listed(cursor, page, full)) => WithoutWriteWrite(w, v, r, e);
    case (Advance(r), Wrote(cursor, page, full)) => if page != [] { WithoutWriteAdvance(w, v, r, e); }
    case _ =>
  }

  lemma WithoutWritePrune(w: World, v: World, before: Mark, e: Mark)
    requires WithoutWrite(w, v, e) && w.trail <= w.committed && Kept(Step(w, Prune(before)), e)
    ensures WithoutWrite(Step(w, Prune(before)), Step(v, Prune(before)), e)
  {
    assert forall f :: f != e ==> Owed(v, f) == Owed(w, f);
  }

  lemma WithoutWritePlace(w: World, v: World, r: Relayer, e: Mark)
    requires WithoutWrite(w, v, e) && r in w.procs && w.procs[r].Placing? && Kept(Step(w, Place(r)), e)
    ensures WithoutWrite(Step(w, Place(r)), Step(v, Place(r)), e)
  {
    LeaveBoth(w, v, r, e);
    if w.cursor.None? {
      var to := w.procs[r].to;
      var w' := Leave(w, r).(cursor := Some(to), start := Some(to));
      var v' := Leave(v, r).(cursor := Some(to), start := Some(to));
      forall f | f in w.committed && f !in w.trail
        ensures Owed(v', f) == Owed(w', f)
      {}
      assert v'.lossy == w'.lossy && PlaceStep(v, r, to).lossy == PlaceStep(w, r, to).lossy;
    }
  }

  lemma WithoutWriteWrite(w: World, v: World, r: Relayer, e: Mark)
    requires WithoutWrite(w, v, e) && r in w.procs && w.procs[r].Listed?
    ensures WithoutWrite(Step(w, Write(r)), Step(v, Instead(w, Write(r), e)), e)
  {
    var pc := w.procs[r];
    if pc.page == [] { return; }
    var wrote := Wrote(pc.cursor, pc.page, pc.full);
    if pc.page[0] == e {
      LeaveBoth(w, v, r, e);
      assert Step(w, Write(r)) == At(w, r, wrote).(stream := w.stream + [e]);
    } else {
      SetBoth(w, v, r, wrote, e);
    }
  }

  lemma WithoutWriteAdvance(w: World, v: World, r: Relayer, e: Mark)
    requires WithoutWrite(w, v, e) && Kept(Step(w, Advance(r)), e)
    requires r in w.procs && w.procs[r].Wrote? && w.procs[r].page != []
    ensures WithoutWrite(Step(w, Advance(r)), Step(v, Instead(w, Advance(r), e)), e)
  {
    var pc := w.procs[r];
    if HasWritten(pc, e) {
      EarlierTotal(e, e);
      LeaveWritten(w, v, r, e);
    } else if w.cursor != Some(pc.cursor) {
      LeaveBoth(w, v, r, e);
    } else {
      var w', v' := w.(cursor := Some(pc.page[0])), v.(cursor := Some(pc.page[0]));
      LeaveBoth(w', v', r, e);
      SetBoth(w', v', r, Reading(pc.page[0]), e);
      SetBoth(w', v', r, Listed(pc.page[0], pc.page[1..], pc.full), e);
    }
  }

  lemma {:induction false} WithoutWriteRun(settle: nat, clock: int, acts: seq<Action>, e: Mark) returns (bare: seq<Action>)
    requires clock > 0 && Kept(Run(Init(settle, clock), acts), e)
    ensures WithoutWrite(Run(Init(settle, clock), acts), Run(Init(settle, clock), bare), e)
  {
    var init := Init(settle, clock);
    if acts == [] { return []; }
    var n := |acts| - 1;
    var w := Run(init, acts[..n]);
    ReachableInv(w);
    KeptBefore(w, acts[n], e);
    var most := WithoutWriteRun(settle, clock, acts[..n], e);
    WithoutWriteStep(w, Run(init, most), acts[n], e);
    var b := Instead(w, acts[n], e);
    bare := most + [b];
    assert bare[..|bare| - 1] == most;
  }

  /** Two worlds retention cannot tell apart. */
  ghost predicate LooksSame(w: World, v: World) {
    v.trail == w.trail && v.cursor == w.cursor && v.clock == w.clock
  }

  /** Staying behind the cursor is exactly what makes a prune safe as far as retention can see: it is
      safe in every reachable world with this trail, cursor and clock if and only if it does. */
  lemma BehindIsExact(w: World, before: Mark)
    requires Reachable(w) && !w.lossy && w.cursor.Some?
    ensures Behind(w, before) <==>
            forall v :: Reachable(v) && !v.lossy && LooksSame(w, v) ==> !Step(v, Prune(before)).lossy
  {
    if Behind(w, before) {
      forall v | Reachable(v) && !v.lossy && LooksSame(w, v)
        ensures !Step(v, Prune(before)).lossy
      {
        PruneBehindCursor(v, before);
      }
    } else {
      ReachableInv(w);
      var e :| e in w.trail && Earlier(e, before) && !UpTo(e, w.cursor.value);
      EarlierTotal(e, w.cursor.value);
      var settle: nat, clock: int, acts: seq<Action> :| clock > 0 && w == Run(Init(settle, clock), acts);
      var bare := WithoutWriteRun(settle, clock, acts, e);
      var v := Run(Init(settle, clock), bare);
      assert Reachable(v) && LooksSame(w, v);
      if w.start != w.cursor { EarlierTransitive(w.start.value, w.cursor.value, e); }
      assert Owed(v, e);
    }
  }

  // A run in which retention outruns the relay.

  lemma DoLoad(w: World, r: Relayer) returns (v: World)
    requires Reachable(w) && r !in w.procs && w.cursor.Some?
    ensures Reachable(v) && v == At(w, r, Reading(w.cursor.value))
  {
    v := Extend(w, Load(r));
  }

  lemma DoList(w: World, r: Relayer, until: int, page: seq<Mark>) returns (v: World)
    requires Reachable(w) && r in w.procs && w.procs[r].Reading? && page != []
    requires until <= w.clock - w.settle && IsPage(w.trail, w.procs[r].cursor, until, page)
    ensures Reachable(v) && v == At(w, r, Listed(w.procs[r].cursor, page, |page| == BATCH))
  {
    v := Extend(w, List(r, until, page));
  }

  lemma DoWrite(w: World, r: Relayer) returns (v: World)
    requires Reachable(w) && r in w.procs && w.procs[r].Listed? && w.procs[r].page != []
    ensures var pc := w.procs[r];
            Reachable(v) && v == At(w, r, Wrote(pc.cursor, pc.page, pc.full)).(stream := w.stream + [pc.page[0]])
  {
    v := Extend(w, Write(r));
  }

  lemma DoAdvance(w: World, r: Relayer) returns (v: World)
    requires Reachable(w) && r in w.procs && w.procs[r].Wrote? && w.procs[r].page != []
    ensures var pc := w.procs[r]; Reachable(v) && v == AdvanceStep(w, r, pc.cursor, pc.page, pc.full)
  {
    v := Extend(w, Advance(r));
  }

  const FirstEvent := Mark(101, "a")
  const SecondEvent := Mark(102, "b")

  /** The first relay creates the cursor at now, the trail being empty. */
  lemma CursorPlaced() returns (w: World)
    ensures Reachable(w)
    ensures w == World(10, 100, {}, Some(Mark(100, "")), [], map[], {}, Some(Mark(100, "")), false)
  {
    w := Init(10, 100);
    assert w == Run(Init(10, 100), []);
    w := Extend(w, Load(1));
    w := Extend(w, Newest(1, Mark(100, "")));
    assert w == World(10, 100, {}, None, [], map[1 := Placing(Mark(100, ""))], {}, None, false);
    w := Extend(w, Place(1));
  }

  lemma DoCommit(w: World, d: nat, e: Mark) returns (v: World)
    requires Reachable(w) && MayCommit(w.(clock := w.clock + d), e)
    ensures Reachable(v) && v == w.(clock := w.clock + d, trail := w.trail + {e}, committed := w.committed + {e})
  {
    v := Extend(w, Tick(d));
    v := Extend(v, Commit(e));
  }

  /** Two events commit after it and settle. */
  lemma TwoSettled() returns (w: World)
    ensures Reachable(w)
    ensures w == World(10, 122, {FirstEvent, SecondEvent}, Some(Mark(100, "")), [], map[], {FirstEvent, SecondEvent},
                       Some(Mark(100, "")), false)
  {
    w := CursorPlaced();
    w := DoCommit(w, 1, FirstEvent);
    w := DoCommit(w, 1, SecondEvent);
    w := Extend(w, Tick(20));
  }

  lemma ListBoth(w: World)
    requires w.trail == {FirstEvent, SecondEvent}
    ensures IsPage(w.trail, Mark(100, ""), 112, [FirstEvent, SecondEvent])
  {}

  const Both := [FirstEvent, SecondEvent]

  /** One relay has listed both events, and then retention prunes the first. */
  lemma PrunedWhileListed() returns (w: World)
    ensures Reachable(w) && w.lossy && w.stream == [] && w.settle == 10 && w.clock == 122
    ensures w.procs == map[1 := Listed(Mark(100, ""), Both, false)]
    ensures w.start == w.cursor == Some(Mark(100, "")) && w.trail == {SecondEvent} && w.committed == {FirstEvent, SecondEvent}
  {
    w := TwoSettled();
    w := DoLoad(w, 1);
    ListBoth(w);
    w := DoList(w, 1, 112, Both);
    assert Owed(w, FirstEvent);
    Irreflexive("b");
    w := Extend(w, Prune(SecondEvent));
  }

  /** When retention prunes an event the sink is still owed, the stream can miss it for good, and can
      even receive it late: here the cursor has passed the first event and the sink has only the
      second, and then another relay, which had listed both before, hands over the first. */
  lemma PrunedEventArrivesLate() returns (gap: World, late: World)
    ensures Reachable(gap) && gap.lossy && gap.stream == [SecondEvent] && gap.cursor == Some(SecondEvent)
    ensures FirstEvent in gap.committed && gap.start == Some(Mark(100, ""))
    ensures Earlier(Mark(100, ""), FirstEvent) && Earlier(FirstEvent, SecondEvent)
    ensures Reachable(late) && late.stream == [SecondEvent, FirstEvent]
  {
    var w := PrunedWhileListed();
    w := DoLoad(w, 2);
    w := DoList(w, 2, 112, [SecondEvent]);
    w := DoWrite(w, 2);
    gap := DoAdvance(w, 2);
    late := DoWrite(gap, 1);
  }
}
