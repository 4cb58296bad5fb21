/** One replica's side of a broadcast: broadcastStep, executeBroadcast, deliverBroadcast and
    deliverToAudience (internal/httpserver/broadcast.go). The replica changes the shared world
    only through its own actions, with any number of other replicas' actions in between. */
module Runner {
  import opened Broadcast
  import opened BroadcastInv
  import Order

  predicate By(a: Action, o: Owner) { !a.Tick? && a.o == o }

  ghost predicate SameFor(u: World, v: World, o: Owner) {
    && (o in u.procs <==> o in v.procs)
    && (o in u.procs ==> v.procs[o] == u.procs[o])
  }

  lemma OthersKeepPc(w: World, a: Action, o: Owner)
    requires !By(a, o)
    ensures SameFor(w, Step(w, a), o)
  {}

  lemma ReachableStep(w: World, a: Action)
    requires Reachable(w)
    ensures Reachable(Step(w, a))
  {
    var w0: World, acts: seq<Action> :| Fresh(w0) && w == Run(w0, acts);
    var more := acts + [a];
    assert more[..|more| - 1] == acts;
    assert Step(w, a) == Run(w0, more);
  }

  /** How one delivery to one person ends. */
  datatype Answer = Arrived | BlockedBot | Failed

  /** A person counts by their worst outcome. */
  function WorstOf(answers: seq<Answer>): Fate {
    if Failed in answers then Undeliverable
    else if BlockedBot in answers then Unreachable
    else Delivered
  }

  /** The loop over the addressed deliveries of one person. */
  method DeliverTo(answers: seq<Answer>) returns (fate: Fate)
    ensures fate == WorstOf(answers)
    ensures fate == Undeliverable <==> Failed in answers
    ensures fate == Unreachable <==> BlockedBot in answers && Failed !in answers
    ensures fate == Delivered <==> BlockedBot !in answers && Failed !in answers
  {
    var failed, blocked := false, false;
    for i := 0 to |answers|
      invariant failed <==> Failed in answers[..i]
      invariant blocked <==> BlockedBot in answers[..i]
    {
      assert answers[..i + 1] == answers[..i] + [answers[i]];
      match answers[i] {
        case Arrived =>
        case BlockedBot => blocked := true;
        case Failed => failed := true;
      }
    }
    assert answers[..|answers|] == answers;
    fate := if failed then Undeliverable else if blocked then Unreachable else Delivered;
  }

  function FatesOf(answers: seq<seq<Answer>>): seq<Fate> {
    seq(|answers|, i requires 0 <= i < |answers| => WorstOf(answers[i]))
  }

  function Plus(counts: Counts, bag: multiset<Fate>): Counts {
    Counts(counts.total, counts.delivered + bag[Delivered], counts.unreachable + bag[Unreachable],
           counts.failed + bag[Undeliverable])
  }

  /** Tallying is counting: the order of the fates does not matter. */
  lemma {:induction false} TallyCounts(counts: Counts, fates: seq<Fate>)
    ensures Tally(counts, fates) == Plus(counts, multiset(fates))
  {
    if fates != [] {
      var n := |fates| - 1;
      TallyCounts(counts, fates[..n]);
      assert fates == fates[..n] + [fates[n]];
    }
  }

  lemma WithoutOne(answers: seq<seq<Answer>>, i: nat)
    requires i < |answers|
    ensures multiset(FatesOf(answers)) == multiset(FatesOf(answers[..i] + answers[i + 1..])) + multiset{WorstOf(answers[i])}
  {
    var all := FatesOf(answers);
    assert FatesOf(answers[..i] + answers[i + 1..]) == all[..i] + all[i + 1..];
    assert all == all[..i] + [all[i]] + all[i + 1..];
  }

  /** The switch under the lock at the end of one person's goroutine. */
  function Count(counts: Counts, fate: Fate): Counts {
    match fate
    case Delivered => counts.(delivered := counts.delivered + 1)
    case Unreachable => counts.(unreachable := counts.unreachable + 1)
    case Undeliverable => counts.(failed := counts.failed + 1)
  }

  lemma CountOne(counts: Counts, bag: multiset<Fate>, fate: Fate)
    ensures Count(Plus(counts, bag), fate) == Plus(counts, bag + multiset{fate})
  {}

  /** Who of the audience had a delivery fail; who had none fail but some find the bot blocked; and the rest. */
  function SomeFailed(answers: seq<seq<Answer>>): set<nat> { set i: nat | i < |answers| && Failed in answers[i] }

  function SomeBlocked(answers: seq<seq<Answer>>): set<nat> {
    set i: nat | i < |answers| && Failed !in answers[i] && BlockedBot in answers[i]
  }

  function AllArrived(answers: seq<seq<Answer>>): set<nat> {
    set i: nat | i < |answers| && forall a :: a in answers[i] ==> a == Arrived
  }

  lemma MoreAnswers(answers: seq<seq<Answer>>, n: nat)
    requires n + 1 == |answers|
    ensures |SomeFailed(answers)| == |SomeFailed(answers[..n])| + if Failed in answers[n] then 1 else 0
    ensures |SomeBlocked(answers)| == |SomeBlocked(answers[..n])| + if Failed !in answers[n] && BlockedBot in answers[n] then 1 else 0
  {
    assert SomeFailed(answers) == SomeFailed(answers[..n]) + if Failed in answers[n] then {n} else {};
    assert SomeBlocked(answers) == SomeBlocked(answers[..n]) + if Failed !in answers[n] && BlockedBot in answers[n] then {n} else {};
  }

  lemma MoreArrived(answers: seq<seq<Answer>>, n: nat)
    requires n + 1 == |answers|
    ensures |AllArrived(answers)| == |AllArrived(answers[..n])| + if Failed !in answers[n] && BlockedBot !in answers[n] then 1 else 0
  {
    assert AllArrived(answers) == AllArrived(answers[..n]) + if Failed !in answers[n] && BlockedBot !in answers[n] then {n} else {};
  }

  lemma MoreFates(answers: seq<seq<Answer>>, n: nat)
    requires n + 1 == |answers|
    ensures multiset(FatesOf(answers)) == multiset(FatesOf(answers[..n])) + multiset{WorstOf(answers[n])}
  {
    assert FatesOf(answers) == FatesOf(answers[..n]) + [WorstOf(answers[n])];
  }

  lemma {:induction false} FatesCount(answers: seq<seq<Answer>>)
    ensures multiset(FatesOf(answers))[Undeliverable] == |SomeFailed(answers)|
    ensures multiset(FatesOf(answers))[Unreachable] == |SomeBlocked(answers)|
    ensures multiset(FatesOf(answers))[Delivered] == |AllArrived(answers)|
  {
    if answers == [] {
      assert FatesOf(answers) == [] && SomeFailed(answers) == SomeBlocked(answers) == AllArrived(answers) == {};
    } else {
      var n := |answers| - 1;
      FatesCount(answers[..n]);
      MoreFates(answers, n);
      MoreAnswers(answers, n);
      MoreArrived(answers, n);
    }
  }

  /** Everyone has been counted once: as failed, unreachable or delivered. */
  ghost predicate Counted(before: Counts, after: Counts, answers: seq<seq<Answer>>) {
    && after.total == before.total && after.delivered == before.delivered + |AllArrived(answers)|
    && after.unreachable == before.unreachable + |SomeBlocked(answers)| && after.failed == before.failed + |SomeFailed(answers)|
  }

  function AnswersOf(part: seq<string>, answers: map<string, seq<Answer>>): seq<seq<Answer>> {
    seq(|part|, i requires 0 <= i < |part| => if part[i] in answers then answers[part[i]] else [])
  }

  /** Counting one part after the other is counting them together. */
  lemma {:induction false} CountedMore(a: Counts, b: Counts, c: Counts, one: seq<seq<Answer>>, more: seq<seq<Answer>>)
    requires Counted(a, b, one) && Counted(b, c, more)
    ensures Counted(a, c, one + more)
  {
    FatesCount(one);
    FatesCount(more);
    FatesCount(one + more);
    assert FatesOf(one + more) == FatesOf(one) + FatesOf(more);
  }

  lemma {:induction false} CountedPart(a: Counts, b: Counts, c: Counts, audience: seq<string>, from: nat, mid: nat, to: nat,
      answers: map<string, seq<Answer>>)
    requires from <= mid <= to <= |audience|
    requires Counted(a, b, AnswersOf(audience[from..mid], answers)) && Counted(b, c, AnswersOf(audience[mid..to], answers))
    ensures Counted(a, c, AnswersOf(audience[from..to], answers))
  {
    CountedMore(a, b, c, AnswersOf(audience[from..mid], answers), AnswersOf(audience[mid..to], answers));
    assert audience[from..to] == audience[from..mid] + audience[mid..to];
    assert AnswersOf(audience[from..to], answers) == AnswersOf(audience[from..mid], answers) + AnswersOf(audience[mid..to], answers);
  }

  lemma {:induction false} NoneCounted(a: Counts)
    ensures Counted(a, a, [])
  {
    FatesCount([]);
    assert FatesOf([]) == [];
  }

  /** deliverToAudience: everyone in the chunk, in whatever order their goroutines take the lock. Each
      counts once: as failed, unreachable or delivered. */
  method DeliverToAudience(answers: seq<seq<Answer>>, counts: Counts) returns (after: Counts)
    ensures Counted(counts, after, answers)
    ensures after == Tally(counts, FatesOf(answers))
  {
    after := counts;
    var todo := answers;
    ghost var counted: multiset<Fate> := multiset{};
    assert after == Plus(counts, counted);
    while todo != []
      invariant counted + multiset(FatesOf(todo)) == multiset(FatesOf(answers))
      invariant after == Plus(counts, counted)
      decreases |todo|
    {
      var i: nat :| i < |todo|;
      var fate := DeliverTo(todo[i]);
      CountOne(counts, counted, fate);
      WithoutOne(todo, i);
      after := Count(after, fate);
      counted := counted + multiset{fate};
      todo := todo[..i] + todo[i + 1..];
    }
    AllCounted(answers, counts, counted);
    TallyCounts(counts, FatesOf(answers));
    FatesCount(answers);
  }

  lemma AllCounted(answers: seq<seq<Answer>>, counts: Counts, counted: multiset<Fate>)
    requires counted + multiset(FatesOf([])) == multiset(FatesOf(answers))
    ensures Plus(counts, counted) == Tally(counts, FatesOf(answers))
  {
    assert FatesOf([]) == [];
    TallyCounts(counts, FatesOf(answers));
  }

  /** What a replica comes to with the broadcast it looked for. */
  datatype Outcome = NothingToDo | TakenOver | Paused | Cancelled | Completed | Undecoded

  /** One broadcast's row in the shared store, with everyone working on it. */
  class Shared {
    var w: World

    ghost predicate Valid()
      reads this
    {
      Reachable(w)
    }

    constructor (w0: World)
      requires Fresh(w0)
      ensures Valid() && w == w0
    {
      w := w0;
      new;
      assert w == Run(w, []);
    }

    method Do(a: Action)
      requires Valid()
      modifies this
      ensures Valid() && w == Step(old(w), a)
    {
      ReachableStep(w, a);
      w := Step(w, a);
    }

    /** Any number of steps of every other replica. */
    method Others(me: Owner)
      requires Valid()
      modifies this
      ensures Valid() && SameFor(old(w), w, me)
    {
      var acts: seq<Action> := *;
      for i := 0 to |acts|
        invariant Valid() && SameFor(old(w), w, me)
      {
        if !By(acts[i], me) {
          OthersKeepPc(w, acts[i], me);
          Do(acts[i]);
        }
      }
    }
  }

  /** A heartbeat is refused exactly when another replica owns the run, and then changes nothing. */
  lemma OnlyOwnersHeartbeat(w: World, o: Owner)
    requires Reachable(w) && o in w.procs && w.procs[o].Stamped?
    ensures var v := Step(w, Heartbeat(o));
            && (o in v.procs <==> Owns(w.row, o)) && (o !in v.procs ==> v.row == w.row)
            && (o in v.procs ==> v.procs[o].Sending? && v.procs[o].p == w.procs[o].p && v.procs[o].audience == w.procs[o].audience && v.procs[o].next == w.procs[o].next)
  {
    ReachableInv(w);
    assert PcInv(w, o, w.procs[o]);
  }

  /** The clock is read before the statement it is for. */
  method ReadClock(s: Shared, o: Owner)
    requires s.Valid() && o in s.w.procs && s.w.procs[o].Sent?
    modifies s
    ensures s.Valid() && o in s.w.procs && s.w.procs[o].Stamped?
    ensures s.w.procs[o].audience == old(s.w.procs[o].audience) && s.w.procs[o].next == old(s.w.procs[o].next)
    ensures s.w.procs[o].p == old(s.w.procs[o]).p
  {
    s.Do(Stamp(o));
  }

  /** The chunk loop of deliverBroadcast. A cancelled context stops it between chunks, a store
      error or a lost claim at the heartbeat. */
  method SendChunks(s: Shared, o: Owner, answers: map<string, seq<Answer>>, lucky: bool)
      returns (out: Outcome, ghost last: World)
    requires s.Valid() && o in s.w.procs && s.w.procs[o].Sending?
    modifies s
    ensures s.Valid()
    ensures out in {Completed, Cancelled, TakenOver, Paused} && (lucky ==> out in {Completed, TakenOver})
    ensures out == TakenOver ==> !Owns(last.row, o) && s.w.row == last.row
    ensures out == Completed ==>
              && o in s.w.procs && s.w.procs[o].Sending?
              && s.w.procs[o].audience == old(s.w.procs[o].audience)
              && s.w.procs[o].next >= |s.w.procs[o].audience|
    ensures out == Completed ==> var pc := old(s.w.procs[o]);
              pc.next <= |pc.audience| && Counted(pc.p.counts, s.w.procs[o].p.counts, AnswersOf(pc.audience[pc.next..], answers))
    ensures out == TakenOver || out == Paused || out == Cancelled ==> o !in s.w.procs
  {
    last := s.w;
    out := Completed;
    ghost var pc := s.w.procs[o];
    NothingSent(s.w, o, answers);
    while s.w.procs[o].next < |s.w.procs[o].audience|
      invariant s.Valid() && o in s.w.procs && s.w.procs[o].Sending? && out == Completed
      invariant s.w.procs[o].audience == pc.audience && pc.next <= s.w.procs[o].next <= |pc.audience|
      invariant Counted(pc.p.counts, s.w.procs[o].p.counts, AnswersOf(pc.audience[pc.next..s.w.procs[o].next], answers))
      decreases |s.w.procs[o].audience| - s.w.procs[o].next
    {
      ghost var u := s.w.procs[o];
      out, last := SendNextChunk(s, o, answers, lucky);
      if out != Completed { return; }
      CountedPart(pc.p.counts, u.p.counts, s.w.procs[o].p.counts, pc.audience, pc.next, u.next, s.w.procs[o].next, answers);
    }
    assert pc.audience[pc.next..|pc.audience|] == pc.audience[pc.next..];
  }

  /** One turn of it; Completed says that the replica carries on. */
  method SendNextChunk(s: Shared, o: Owner, answers: map<string, seq<Answer>>, lucky: bool)
      returns (out: Outcome, ghost last: World)
    requires s.Valid() && o in s.w.procs && s.w.procs[o].Sending? && s.w.procs[o].next < |s.w.procs[o].audience|
    modifies s
    ensures s.Valid()
    ensures out in {Completed, Cancelled, TakenOver, Paused} && (lucky ==> out in {Completed, TakenOver})
    ensures out == TakenOver ==> !Owns(last.row, o) && s.w.row == last.row
    ensures if out == Completed then
              var pc := old(s.w.procs[o]);
              && o in s.w.procs && s.w.procs[o].Sending? && s.w.procs[o].audience == pc.audience
              && pc.next < s.w.procs[o].next <= |pc.audience|
              && Counted(pc.p.counts, s.w.procs[o].p.counts, AnswersOf(pc.audience[pc.next..s.w.procs[o].next], answers))
            else o !in s.w.procs
  {
    last := s.w;
    var cancelled := false;
    if !lucky { cancelled := *; }
    if cancelled { s.Do(Stop(o)); return Cancelled, last; }
    SendOneChunk(s, o, answers);
    s.Others(o);
    ReadClock(s, o);
    s.Others(o);
    last := s.w;
    var recorded := true;
    if !lucky { recorded := *; }
    if !recorded { s.Do(Stop(o)); return Paused, last; }
    OnlyOwnersHeartbeat(s.w, o);
    s.Do(Heartbeat(o));
    out := if o in s.w.procs then Completed else TakenOver;
  }

  lemma NothingSent(w: World, o: Owner, answers: map<string, seq<Answer>>)
    requires Reachable(w) && o in w.procs && w.procs[o].Sending?
    ensures var pc := w.procs[o];
            pc.next <= |pc.audience| && Counted(pc.p.counts, pc.p.counts, AnswersOf(pc.audience[pc.next..pc.next], answers))
  {
    ReachableInv(w);
    assert PcInv(w, o, w.procs[o]);
    var pc := w.procs[o];
    NoneCounted(pc.p.counts);
    assert AnswersOf(pc.audience[pc.next..pc.next], answers) == [];
  }

  /** One turn of that loop up to the heartbeat: the next chunk is sent and counted. */
  method SendOneChunk(s: Shared, o: Owner, answers: map<string, seq<Answer>>)
    requires s.Valid() && o in s.w.procs && s.w.procs[o].Sending? && s.w.procs[o].next < |s.w.procs[o].audience|
    modifies s
    ensures s.Valid() && o in s.w.procs && s.w.procs[o].Sent?
    ensures s.w.procs[o].audience == old(s.w.procs[o].audience)
    ensures s.w.procs[o].next == ChunkEnd(old(s.w.procs[o].audience), old(s.w.procs[o].next))
    ensures var pc := old(s.w.procs[o]);
            && pc.next < s.w.procs[o].next <= |pc.audience|
            && Counted(pc.p.counts, s.w.procs[o].p.counts, AnswersOf(pc.audience[pc.next..s.w.procs[o].next], answers))
  {
    var pc := s.w.procs[o];
    var end := ChunkEnd(pc.audience, pc.next);
    var part := pc.audience[pc.next..end];
    var list := AnswersOf(part, answers);
    var after := DeliverToAudience(list, pc.p.counts);
    ReachableInv(s.w);
    assert PcInv(s.w, o, pc);
    s.Do(Send(o, FatesOf(list)));
    assert s.w.procs[o].p.counts == after;
  }

  /** How the stored run looks after the replica's last word, which only the owner's counts. What it
      says of progress is what the last heartbeat said, unless one was late. */
  ghost predicate Concluded(before: World, after: World, o: Owner, state: RunState) {
    if Owns(before.row, o) then
      && after.row.state == state && after.row.owner == o
      && (!before.hist.late ==>
            after.row.p.cursor == before.row.p.cursor && after.row.p.counts.Reached() == before.row.p.counts.Reached())
    else after.row == before.row
  }

  /** FinishBroadcast. */
  method Conclude(s: Shared, o: Owner) returns (ghost last: World)
    requires s.Valid() && o in s.w.procs && s.w.procs[o].Ended?
    modifies s
    ensures s.Valid() && o !in s.w.procs
    ensures Concluded(last, s.w, o, old(s.w.procs[o]).state)
    ensures Owns(last.row, o) ==> s.w.row.p == old(s.w.procs[o]).p
  {
    s.Others(o);
    last := s.w;
    EndedHoldsProgress(s.w, o);
    s.Do(Finish(o));
  }

  /** A replica about to finish as the owner holds the row's cursor and counts, unless a heartbeat was late. */
  lemma EndedHoldsProgress(w: World, o: Owner)
    requires Reachable(w) && o in w.procs && w.procs[o].Ended?
    ensures Owns(w.row, o) && !w.hist.late ==>
              w.procs[o].p.cursor == w.row.p.cursor && w.procs[o].p.counts.Reached() == w.row.p.counts.Reached()
  {
    ReachableInv(w);
    assert PcInv(w, o, w.procs[o]);
    if !w.hist.late { assert InStep(w, w.procs[o]); }
  }

  /** The first n members are not after the cursor, and the others are. */
  ghost predicate Behind(audience: seq<string>, cursor: string, n: nat) {
    n <= |audience| && forall j :: 0 <= j < |audience| ==> (Order.Before(cursor, audience[j]) <==> n <= j)
  }

  /** The read of the audience: its size is the run's total from here on. */
  method ReadAudience(s: Shared, o: Owner, audience: seq<string>)
    requires s.Valid() && o in s.w.procs && s.w.procs[o].Claimed? && Ordered(audience)
    modifies s
    ensures s.Valid() && o in s.w.procs && s.w.procs[o].Sending? && s.w.procs[o].audience == audience
    ensures var p := old(s.w.procs[o]).p;
            && Behind(audience, p.cursor, s.w.procs[o].next)
            && s.w.procs[o].p.counts == p.counts.(total := |audience|)
  {
    ReachableInv(s.w);
    assert PcInv(s.w, o, s.w.procs[o]);
    s.Do(Read(o, audience));
    ReachableInv(s.w);
    assert PcInv(s.w, o, s.w.procs[o]);
  }

  /** executeBroadcast and deliverBroadcast: read the audience, send it chunk by chunk, and store
      how it ended. A replica keeps no place in the broadcast afterwards. */
  method Execute(s: Shared, o: Owner, audience: seq<string>, decodes: bool, answers: map<string, seq<Answer>>,
      lucky: bool)
      returns (out: Outcome, ghost last: World, ghost from: nat)
    requires s.Valid() && o in s.w.procs && s.w.procs[o].Claimed? && Ordered(audience)
    modifies s
    ensures s.Valid() && o !in s.w.procs
    ensures out == Completed ==> Concluded(last, s.w, o, Done)
    ensures out == Completed ==> Behind(audience, old(s.w.procs[o]).p.cursor, from)
    ensures out == Completed && Owns(last.row, o) ==>
              Counted(old(s.w.procs[o]).p.counts.(total := |audience|), s.w.row.p.counts, AnswersOf(audience[from..], answers))
    ensures out == Undecoded <==> !decodes
    ensures out != NothingToDo && (lucky ==> out in {Completed, TakenOver, Undecoded})
    ensures out == TakenOver ==> !Owns(last.row, o) && s.w.row == last.row
    ensures out == Undecoded ==> Concluded(last, s.w, o, Broken)
  {
    from := 0;
    if !decodes {
      s.Do(Undecodable(o));
      last := Conclude(s, o);
      return Undecoded, last, from;
    }
    last := s.w;
    var read := true;
    if !lucky { read := *; }
    if !read { s.Do(Stop(o)); return Paused, last, from; }
    ReadAudience(s, o, audience);
    from := s.w.procs[o].next;
    s.Others(o);
    out, last := SendChunks(s, o, answers, lucky);
    if out == Completed {
      s.Do(Exhaust(o));
      last := Conclude(s, o);
    }
  }

  /** broadcastStep: look for the broadcast, claim it and carry it out. */
  method BroadcastStep(s: Shared, o: Owner, audience: seq<string>, decodes: bool, answers: map<string, seq<Answer>>,
      lucky: bool)
      returns (out: Outcome, ghost last: World)
    requires s.Valid() && o !in s.w.procs && Ordered(audience)
    modifies s
    ensures s.Valid() && o !in s.w.procs
    ensures out == Completed ==> Concluded(last, s.w, o, Done)
    ensures out == Completed && Owns(last.row, o) ==> s.w.row.p.counts.total == |audience|
    ensures out == Undecoded ==> !decodes && Concluded(last, s.w, o, Broken)
    ensures lucky ==> out in {NothingToDo, Completed, TakenOver, Undecoded}
    ensures out == TakenOver ==> !Owns(last.row, o) && s.w.row == last.row
    ensures out == NothingToDo ==> !Claimable(last.row, old(s.w.clock), last.stale) && s.w.row == last.row
  {
    s.Do(Ask(o));
    s.Others(o);
    last := s.w;
    s.Do(Look(o));
    if o !in s.w.procs { return NothingToDo, last; }
    s.Others(o);
    last := s.w;
    s.Do(Claim(o));
    if o !in s.w.procs { return NothingToDo, last; }
    s.Others(o);
    ghost var from;
    out, last, from := Execute(s, o, audience, decodes, answers, lucky);
  }
}
