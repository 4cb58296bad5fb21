/** The audit recorder's queues (internal/audit/audit.go): an event is offered to every sink's
    bounded queue, a goroutine per sink drains it, and Close closes the queues, waits for the
    goroutines and closes the sinks. Before it offers an event, a call writes it to the primary sink
    itself, if there is one and the event is not there already.

    A World is the queues with everything that has ever passed through them, the calls of deliver,
    and the call of Close. An Action is one step of any of them; a run is any sequence of actions. */
module Recorder {
  /** One call of deliver, and the event it offers. */
  type Event = nat

  datatype Option<T> = None | Some(value: T)

  /** chan holds what is queued and not yet taken. queued, dropped and handed are everything ever
      queued, counted as dropped, and handed to the sink. busy: the goroutine is in the sink's Write.
      written: how many of the sink's Writes have returned. closedAfter: how many events the sink had
      been handed when it was closed. */
  datatype Queue = Queue(
    chan: seq<Event>, closed: bool, busy: bool, ended: bool,
    queued: seq<Event>, dropped: set<Event>, handed: seq<Event>, written: nat, closedAfter: Option<nat>)

  /** A call of deliver: before and in the primary's Write; before the lock; sending to queue i under
      the read lock; and after it. */
  datatype Pc = Pending | Writing | Before | Sending(i: nat) | Accepted | Refused

  /** The call of Close: holding the write lock while closing queue i; waiting for the goroutines;
      closing sink i; over. */
  datatype Closer = Open | Shutting(i: nat) | Draining | ClosingSinks(i: nat, drained: bool) | Closed(drained: bool)

  /** primary: there is a primary sink. wrote: the events it has been written, in the order its
      Writes returned. */
  datatype World = World(
    capacity: nat, queues: seq<Queue>, closer: Closer, calls: map<Event, Pc>, panicked: bool, primary: bool, wrote: seq<Event>)

  datatype Action =
    | Offer(e: Event, primary: bool)
    | BeginWrite(e: Event)
    | EndWrite(e: Event)
    | ReadLock(e: Event)
    | Send(e: Event)
    | Take(j: nat)
    | Written(j: nat)
    | End(j: nat)
    | WriteLock
    | CloseQueue
    | AllDrained
    | TimeOut
    | CloseSink

  const EmptyQueue := Queue([], false, false, false, [], {}, [], 0, None)

  function Init(capacity: nat, sinks: nat, primary: bool): World {
    World(capacity, seq(sinks, i => EmptyQueue), Open, map[], false, primary, [])
  }

  function Stopped(w: World): bool { !w.closer.Open? }

  function At(w: World, e: Event, pc: Pc): World { w.(calls := w.calls[e := pc]) }

  function Set(w: World, j: nat, q: Queue): World
    requires j < |w.queues|
  {
    w.(queues := w.queues[j := q])
  }

  /** select: on a full queue the event is dropped. */
  function Select(q: Queue, e: Event, capacity: nat): Queue {
    if |q.chan| < capacity then q.(chan := q.chan + [e], queued := q.queued + [e])
    else q.(dropped := q.dropped + {e})
  }

  /** A send on a closed channel panics. */
  function SendOne(w: World, e: Event, j: nat): World
    requires j < |w.queues|
  {
    if w.queues[j].closed then w.(panicked := true)
    else Set(w, j, Select(w.queues[j], e, w.capacity))
  }

  /** A step of the call of deliver for e. */
  function CallStep(w: World, a: Action): World
    requires OfCall(a)
  {
    match a
    case Offer(e, primary) => if e in w.calls then w else At(w, e, if primary && w.primary then Pending else Before)
    case BeginWrite(e) => if e in w.calls && w.calls[e].Pending? then At(w, e, Writing) else w
    case EndWrite(e) => if e in w.calls && w.calls[e].Writing? then At(w, e, Before).(wrote := w.wrote + [e]) else w
    case ReadLock(e) =>
      if e !in w.calls || !w.calls[e].Before? || w.closer.Shutting? then w
      else At(w, e, if Stopped(w) then Refused else if w.queues == [] then Accepted else Sending(0))
    case Send(e) =>
      if e !in w.calls || !w.calls[e].Sending? || w.calls[e].i >= |w.queues| then w
      else
        var i := w.calls[e].i;
        At(SendOne(w, e, i), e, if i + 1 < |w.queues| then Sending(i + 1) else Accepted)
  }

  /** A step of the goroutine that drains the queue. */
  function DrainStep(q: Queue, a: Action): Queue
    requires OfDrainer(a)
  {
    match a
    case Take(_) =>
      if q.busy || q.chan == [] then q
      else q.(chan := q.chan[1..], handed := q.handed + [q.chan[0]], busy := true)
    case Written(_) => if q.busy then q.(busy := false, written := q.written + 1) else q
    case End(_) => if q.busy || !q.closed || q.chan != [] then q else q.(ended := true)
  }

  /** A step of the call of Close. */
  function CloserStep(w: World, a: Action): World
    requires !OfCall(a) && !OfDrainer(a)
  {
    match a
    case WriteLock =>
      if Stopped(w) || exists e :: e in w.calls && w.calls[e].Sending? then w else w.(closer := Shutting(0))
    case CloseQueue =>
      if !w.closer.Shutting? then w
      else if w.closer.i < |w.queues| then
        Set(w, w.closer.i, w.queues[w.closer.i].(closed := true)).(closer := Shutting(w.closer.i + 1))
      else w.(closer := Draining)
    case AllDrained =>
      if w.closer.Draining? && forall j :: 0 <= j < |w.queues| ==> w.queues[j].ended
      then w.(closer := ClosingSinks(0, true)) else w
    case TimeOut => if w.closer.Draining? then w.(closer := ClosingSinks(0, false)) else w
    case CloseSink =>
      if !w.closer.ClosingSinks? then w
      else if w.closer.i < |w.queues| then
        var q := w.queues[w.closer.i];
        Set(w, w.closer.i, q.(closedAfter := Some(|q.handed|))).(closer := w.closer.(i := w.closer.i + 1))
      else w.(closer := Closed(w.closer.drained))
  }

  predicate OfCall(a: Action) { a.Offer? || a.BeginWrite? || a.EndWrite? || a.ReadLock? || a.Send? }

  predicate OfDrainer(a: Action) { a.Take? || a.Written? || a.End? }

  function Step(w: World, a: Action): World {
    if OfCall(a) then CallStep(w, a)
    else if OfDrainer(a) then if a.j < |w.queues| then Set(w, a.j, DrainStep(w.queues[a.j], a)) else w
    else CloserStep(w, a)
  }

  function Run(w: World, acts: seq<Action>): World {
    if acts == [] then w else Step(Run(w, acts[..|acts| - 1]), acts[|acts| - 1])
  }

  // The invariant.

  predicate Has(q: Queue, e: Event) { e in q.queued || e in q.dropped }

  predicate Once(s: seq<Event>) { forall i, j :: 0 <= i < j < |s| ==> s[i] != s[j] }

  /** What holds of a queue by itself. */
  predicate QueueInv(q: Queue, capacity: nat) {
    && q.handed + q.chan == q.queued && |q.chan| <= capacity
    && Once(q.queued) && (forall e :: e in q.queued ==> e !in q.dropped)
    && (q.ended ==> q.closed && q.chan == [] && !q.busy)
  }

  /** How far Close has come with queue j. */
  predicate CloseInv(closer: Closer, j: nat, q: Queue) {
    match closer
    case Open => !q.closed && q.closedAfter.None?
    case Shutting(i) => (q.closed <==> j < i) && q.closedAfter.None?
    case Draining => q.closed && q.closedAfter.None?
    case ClosingSinks(i, drained) =>
      q.closed && (q.closedAfter.Some? <==> j < i) && (drained ==> q.ended && (j < i ==> q.closedAfter == Some(|q.handed|)))
    case Closed(drained) => q.closed && q.closedAfter.Some? && (drained ==> q.ended && q.closedAfter == Some(|q.handed|))
  }

  /** Whether queue j has been offered the event of a call. */
  predicate Reached(pc: Pc, j: nat) { pc.Accepted? || (pc.Sending? && j < pc.i) }

  ghost predicate QueuesInv(w: World) {
    forall j :: 0 <= j < |w.queues| ==> QueueInv(w.queues[j], w.capacity) && CloseInv(w.closer, j, w.queues[j])
  }

  ghost predicate CallsInv(w: World) {
    && (forall e :: e in w.calls && w.calls[e].Sending? ==> w.closer.Open? && w.calls[e].i < |w.queues|)
    && (forall e, j :: 0 <= j < |w.queues| ==> (Has(w.queues[j], e) <==> e in w.calls && Reached(w.calls[e], j)))
    && (forall e :: e in w.calls && w.calls[e].Refused? ==> Stopped(w))
  }

  ghost predicate Inv(w: World) {
    QueuesInv(w) && CallsInv(w) && !w.panicked && (w.closer.Shutting? || w.closer.ClosingSinks? ==> w.closer.i <= |w.queues|)
  }

  /** The select keeps a queue's invariant, and it then has the event, once. */
  lemma SelectKeeps(q: Queue, e: Event, capacity: nat)
    requires QueueInv(q, capacity) && !q.closed && !Has(q, e)
    ensures var r := Select(q, e, capacity);
            && QueueInv(r, capacity) && r.closed == q.closed && r.closedAfter == q.closedAfter
            && forall f :: Has(r, f) <==> Has(q, f) || f == e
  {}

  lemma SendKeeps(w: World, e: Event)
    requires Inv(w) && e in w.calls && w.calls[e].Sending?
    ensures Inv(CallStep(w, Send(e)))
  {
    var i := w.calls[e].i;
    var q := w.queues[i];
    assert QueueInv(q, w.capacity) && CloseInv(w.closer, i, q);
    assert Has(q, e) <==> Reached(w.calls[e], i);
    SelectKeeps(q, e, w.capacity);
    SendCalls(w, e, Select(q, e, w.capacity));
  }

  lemma SendCalls(w: World, e: Event, r: Queue)
    requires Inv(w) && e in w.calls && w.calls[e].Sending?
    requires QueueInv(r, w.capacity) && CloseInv(w.closer, w.calls[e].i, r)
    requires forall f :: Has(r, f) <==> Has(w.queues[w.calls[e].i], f) || f == e
    ensures var i := w.calls[e].i;
            Inv(At(Set(w, i, r), e, if i + 1 < |w.queues| then Sending(i + 1) else Accepted))
  {}

  /** A step of a sink's goroutine moves nothing but its own queue, and offers that queue nothing. */
  lemma DrainKeeps(w: World, j: nat, q: Queue)
    requires Inv(w) && j < |w.queues| && QueueInv(q, w.capacity) && CloseInv(w.closer, j, q)
    requires q.queued == w.queues[j].queued && q.dropped == w.queues[j].dropped
    ensures Inv(Set(w, j, q))
  {
    var v := Set(w, j, q);
    assert forall e :: Has(q, e) <==> Has(w.queues[j], e);
  }

  lemma DrainQueue(q: Queue, a: Action, capacity: nat, closer: Closer, j: nat)
    requires OfDrainer(a) && QueueInv(q, capacity) && CloseInv(closer, j, q)
    ensures var r := DrainStep(q, a);
            QueueInv(r, capacity) && CloseInv(closer, j, r) && r.queued == q.queued && r.dropped == q.dropped
  {}

  lemma StepKeeps(w: World, a: Action)
    requires Inv(w)
    ensures Inv(Step(w, a))
  {
    if OfCall(a) {
      CallKeeps(w, a);
    } else if OfDrainer(a) {
      if a.j < |w.queues| {
        var q := w.queues[a.j];
        assert QueueInv(q, w.capacity) && CloseInv(w.closer, a.j, q);
        DrainQueue(q, a, w.capacity, w.closer, a.j);
        DrainKeeps(w, a.j, DrainStep(q, a));
      }
    } else {
      CloserKeeps(w, a);
    }
  }

  lemma CallKeeps(w: World, a: Action)
    requires Inv(w) && OfCall(a)
    ensures Inv(CallStep(w, a))
  {
    if a.Send? && a.e in w.calls && w.calls[a.e].Sending? { SendKeeps(w, a.e); }
    else { assert CallStep(w, a).queues == w.queues; }
  }

  lemma CloserKeeps(w: World, a: Action)
    requires Inv(w) && !OfCall(a) && !OfDrainer(a)
    ensures Inv(CloserStep(w, a))
  {
    var v := CloserStep(w, a);
    CloserQueues(w, a);
    assert forall e, j :: 0 <= j < |v.queues| ==> Has(v.queues[j], e) == Has(w.queues[j], e);
  }

  lemma CloserQueues(w: World, a: Action)
    requires !OfCall(a) && !OfDrainer(a)
    requires QueuesInv(w) && (w.closer.Shutting? || w.closer.ClosingSinks? ==> w.closer.i <= |w.queues|)
    ensures QueuesInv(CloserStep(w, a))
    ensures |CloserStep(w, a).queues| == |w.queues|
    ensures forall j :: 0 <= j < |w.queues| ==>
              CloserStep(w, a).queues[j].queued == w.queues[j].queued && CloserStep(w, a).queues[j].dropped == w.queues[j].dropped
  {
    forall j | 0 <= j < |w.queues|
      ensures QueueInv(CloserStep(w, a).queues[j], w.capacity) && CloseInv(CloserStep(w, a).closer, j, CloserStep(w, a).queues[j])
    {
      CloserQueue(w, a, j);
    }
  }

  lemma CloserQueue(w: World, a: Action, j: nat)
    requires !OfCall(a) && !OfDrainer(a) && j < |w.queues| == |CloserStep(w, a).queues|
    requires QueueInv(w.queues[j], w.capacity) && CloseInv(w.closer, j, w.queues[j])
    requires a.AllDrained? ==> (w.closer.Draining? && w.queues[j].ended) || CloserStep(w, a) == w
    requires w.closer.Shutting? || w.closer.ClosingSinks? ==> w.closer.i <= |w.queues|
    ensures QueueInv(CloserStep(w, a).queues[j], w.capacity) && CloseInv(CloserStep(w, a).closer, j, CloserStep(w, a).queues[j])
  {
  }

  /** A call's event is written to the primary once, and then the call has gone on; a queued sink is
      in one Write exactly when its goroutine is busy. */
  ghost predicate WritesInv(w: World) {
    && Once(w.wrote)
    && (forall e :: e in w.wrote ==> w.primary && e in w.calls && !w.calls[e].Pending? && !w.calls[e].Writing?)
    && (forall e :: e in w.calls && (w.calls[e].Pending? || w.calls[e].Writing?) ==> w.primary)
    && (forall j :: 0 <= j < |w.queues| ==> OneWrite(w.queues[j]))
  }

  predicate OneWrite(q: Queue) {
    |q.handed| == q.written + (if q.busy then 1 else 0)
  }

  lemma WritesStep(w: World, a: Action)
    requires WritesInv(w)
    ensures WritesInv(Step(w, a))
  {
    if OfCall(a) { CallWrites(w, a); } else if !OfDrainer(a) { CloserWrites(w, a); }
  }

  lemma CallWrites(w: World, a: Action)
    requires WritesInv(w) && OfCall(a)
    ensures WritesInv(CallStep(w, a))
  {}

  lemma CloserWrites(w: World, a: Action)
    requires WritesInv(w) && !OfCall(a) && !OfDrainer(a)
    ensures WritesInv(CloserStep(w, a))
  {}

  lemma {:induction false} RunKeeps(w: World, acts: seq<Action>)
    requires Inv(w) && WritesInv(w)
    ensures Inv(Run(w, acts)) && WritesInv(Run(w, acts))
  {
    if acts != [] {
      RunKeeps(w, acts[..|acts| - 1]);
      WritesStep(Run(w, acts[..|acts| - 1]), acts[|acts| - 1]);
      StepKeeps(Run(w, acts[..|acts| - 1]), acts[|acts| - 1]);
    }
  }

  // What holds of every run.

  ghost predicate Reachable(w: World) {
    exists capacity: nat, sinks: nat, primary: bool, acts: seq<Action> :: w == Run(Init(capacity, sinks, primary), acts)
  }

  lemma InitInv(capacity: nat, sinks: nat, primary: bool)
    ensures Inv(Init(capacity, sinks, primary)) && WritesInv(Init(capacity, sinks, primary))
  {}

  lemma ReachableInv(w: World)
    requires Reachable(w)
    ensures Inv(w) && WritesInv(w)
  {
    var capacity: nat, sinks: nat, primary: bool, acts: seq<Action> :| w == Run(Init(capacity, sinks, primary), acts);
    InitInv(capacity, sinks, primary);
    RunKeeps(Init(capacity, sinks, primary), acts);
  }

  /** No call ever sends on a closed queue. */
  lemma NeverPanics(w: World)
    requires Reachable(w)
    ensures !w.panicked
  {
    ReachableInv(w);
  }

  /** A call that is over before Close takes the lock has its event, for every sink, either queued
      once or counted as dropped; a call is refused only after Close took the lock, and then no sink
      is offered its event. */
  lemma QueuedOrDropped(w: World, e: Event, j: nat)
    requires Reachable(w) && e in w.calls && j < |w.queues|
    ensures var q := w.queues[j];
            && (w.calls[e].Accepted? ==> (multiset(q.queued)[e] == 1) != (e in q.dropped) && multiset(q.queued)[e] <= 1)
            && (w.calls[e].Refused? ==> Stopped(w) && e !in q.queued && e !in q.dropped)
  {
    ReachableInv(w);
    var q := w.queues[j];
    assert QueueInv(q, w.capacity);
    assert Has(q, e) <==> Reached(w.calls[e], j);
    OnceCounts(q.queued, e);
  }

  lemma {:induction false} OnceCounts(s: seq<Event>, e: Event)
    requires Once(s)
    ensures multiset(s)[e] == if e in s then 1 else 0
  {
    if s != [] {
      var n := |s| - 1;
      OnceCounts(s[..n], e);
      assert s == s[..n] + [s[n]];
      assert forall i :: 0 <= i < n ==> s[..n][i] == s[i];
    }
  }

  /** At any time a sink has been handed what was queued for it, each event once and in queue order,
      but for the at most capacity events still waiting. */
  lemma HandedInOrder(w: World, j: nat)
    requires Reachable(w) && j < |w.queues|
    ensures var q := w.queues[j];
            q.handed <= q.queued && |q.queued| - |q.handed| <= w.capacity && Once(q.handed)
  {
    ReachableInv(w);
    var q := w.queues[j];
    assert QueueInv(q, w.capacity);
    assert forall i :: 0 <= i < |q.handed| ==> q.handed[i] == q.queued[i];
  }

  /** After a Close that saw the queues drained, every sink had been handed all that was queued for
      it, ever, by the time it was closed. */
  lemma DrainedClose(w: World, j: nat)
    requires Reachable(w) && w.closer == Closed(true) && j < |w.queues|
    ensures var q := w.queues[j];
            q.handed == q.queued && q.closedAfter == Some(|q.queued|)
  {
    ReachableInv(w);
    assert QueueInv(w.queues[j], w.capacity) && CloseInv(w.closer, j, w.queues[j]);
  }

  /** Events are kept apart by the calls that offer them: none is queued that no call offered. */
  lemma OnlyOffered(w: World, e: Event, j: nat)
    requires Reachable(w) && j < |w.queues| && e in w.queues[j].queued
    ensures e in w.calls && (w.calls[e].Accepted? || (w.calls[e].Sending? && j < w.calls[e].i))
  {
    ReachableInv(w);
    assert Has(w.queues[j], e);
  }

  // A Close that runs out of time.

  lemma Extend(w: World, a: Action) returns (v: World)
    requires Reachable(w)
    ensures v == Step(w, a) && Reachable(v)
  {
    var capacity: nat, sinks: nat, primary: bool, acts: seq<Action> :| w == Run(Init(capacity, sinks, primary), acts);
    assert (acts + [a])[..|acts + [a]| - 1] == acts;
    v := Step(w, a);
    assert v == Run(Init(capacity, sinks, primary), acts + [a]);
  }

  const OneWaiting := Queue([7], false, false, false, [7], {}, [], 0, None)

  lemma OneQueued() returns (w: World)
    ensures Reachable(w) && w == World(1, [OneWaiting], Open, map[7 := Accepted], false, false, [])
  {
    w := Init(1, 1, false);
    assert w == Run(Init(1, 1, false), []);
    assert w.queues == [EmptyQueue];
    w := Extend(w, Offer(7, false));
    w := Extend(w, ReadLock(7));
    assert w == World(1, [EmptyQueue], Open, map[7 := Sending(0)], false, false, []);
    w := Extend(w, Send(7));
    assert w.queues[0] == OneWaiting;
  }

  lemma OneShut() returns (w: World)
    ensures Reachable(w) && w == World(1, [OneWaiting.(closed := true)], Draining, map[7 := Accepted], false, false, [])
  {
    w := OneQueued();
    w := Extend(w, WriteLock);
    w := Extend(w, CloseQueue);
    assert w.queues == [OneWaiting.(closed := true)];
    w := Extend(w, CloseQueue);
  }

  /** Close gives up waiting and closes the one sink. */
  lemma OneTimedOut() returns (w: World)
    ensures Reachable(w) && w.closer == ClosingSinks(1, false) && |w.queues| == 1
    ensures w.queues[0] == OneWaiting.(closed := true, closedAfter := Some(0))
  {
    w := OneShut();
    w := Extend(w, TimeOut);
    w := Extend(w, CloseSink);
  }

  /** Without the drain, a sink can be handed an event after it has been closed. */
  lemma UndrainedCloseWritesLate() returns (w: World)
    ensures Reachable(w) && w.closer == Closed(false) && |w.queues| == 1
    ensures w.queues[0].closedAfter == Some(0) && w.queues[0].handed == [7]
  {
    w := OneTimedOut();
    w := Extend(w, CloseSink);
    w := Extend(w, Take(0));
  }
}
