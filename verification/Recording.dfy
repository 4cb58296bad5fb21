/** The recorder's methods (internal/audit/audit.go): deliver, a sink's goroutine and Close. Each
    moves the shared world only by its own steps, with any steps of the others in between. */
module Recording {
  import opened Recorder

  /** Whose step it is: a call of deliver, the goroutine of a sink, or the call of Close. */
  datatype Who = Call(e: Event) | Drainer(j: nat) | Closing

  function Of(a: Action): Who {
    if OfCall(a) then Call(a.e) else if OfDrainer(a) then Drainer(a.j) else Closing
  }

  /** The place of a caller that only its own steps change. */
  ghost predicate Around(u: World, v: World, me: Who) {
    && |u.queues| == |v.queues| && u.capacity == v.capacity && u.primary == v.primary && (Stopped(u) ==> Stopped(v))
    && match me
       case Call(e) => (e in u.calls <==> e in v.calls) && (e in u.calls ==> v.calls[e] == u.calls[e]) && (e in u.wrote <==> e in v.wrote)
       case Closing => v.closer == u.closer
       case Drainer(j) =>
         j < |u.queues| ==>
           && v.queues[j].busy == u.queues[j].busy && v.queues[j].ended == u.queues[j].ended
           && v.queues[j].handed == u.queues[j].handed && v.queues[j].written == u.queues[j].written && u.queues[j].chan <= v.queues[j].chan
           && (u.queues[j].closed ==> v.queues[j].closed && v.queues[j].chan == u.queues[j].chan)
  }

  lemma OthersGoAround(w: World, a: Action, me: Who)
    requires Of(a) != me
    ensures Around(w, Step(w, a), me)
  {
    if OfCall(a) { CallsGoAround(w, a, me); }
    else if OfDrainer(a) { assert Step(w, a).calls == w.calls; }
    else { CloseGoesAround(w, a, me); }
  }

  lemma CallsGoAround(w: World, a: Action, me: Who)
    requires OfCall(a) && Of(a) != me
    ensures Around(w, CallStep(w, a), me)
  {
    if a.Send? { SendGoesAround(w, a.e, me); } else { assert CallStep(w, a).queues == w.queues; }
  }

  lemma SendGoesAround(w: World, e: Event, me: Who)
    requires Call(e) != me
    ensures Around(w, CallStep(w, Send(e)), me)
  {
    if e in w.calls && w.calls[e].Sending? && w.calls[e].i < |w.queues| {
      var i := w.calls[e].i;
      var v := SendOne(w, e, i);
      assert v.calls == w.calls && v.closer == w.closer && v.wrote == w.wrote;
      assert forall j :: 0 <= j < |w.queues| && j != i ==> v.queues[j] == w.queues[j];
    }
  }

  lemma CloseGoesAround(w: World, a: Action, me: Who)
    requires Of(a) == Closing && me != Closing
    ensures Around(w, CloserStep(w, a), me)
  {}

  lemma AroundAgain(u: World, v: World, w: World, me: Who)
    requires Around(u, v, me) && Around(v, w, me)
    ensures Around(u, w, me)
  {}

  lemma ReachableStep(w: World, a: Action)
    requires Reachable(w)
    ensures Reachable(Step(w, a))
  {
    var v := Extend(w, a);
  }

  class Shared {
    var w: World

    ghost predicate Valid()
      reads this
    {
      Reachable(w)
    }

    constructor (capacity: nat, sinks: nat, primary: bool)
      ensures Valid() && w == Init(capacity, sinks, primary)
    {
      w := Init(capacity, sinks, primary);
      new;
      assert w == Run(Init(capacity, sinks, primary), []);
    }

    method Do(a: Action)
      requires Valid()
      modifies this
      ensures Valid() && w == Step(old(w), a)
    {
      ReachableStep(w, a);
      w := Step(w, a);
    }

    /** Any number of steps of everyone else. */
    method Others(me: Who)
      requires Valid()
      modifies this
      ensures Valid() && Around(old(w), w, me)
    {
      var acts: seq<Action> := *;
      for i := 0 to |acts|
        invariant Valid() && Around(old(w), w, me)
      {
        if Of(acts[i]) != me {
          ghost var before := w;
          OthersGoAround(w, acts[i], me);
          Do(acts[i]);
          AroundAgain(old(w), before, w, me);
        }
      }
    }
  }

  /** Every sink's queue holds, or held, the event, or counted it as dropped. */
  ghost predicate Everywhere(w: World, e: Event) {
    forall j :: 0 <= j < |w.queues| ==> Has(w.queues[j], e)
  }

  ghost predicate Nowhere(w: World, e: Event) {
    forall j :: 0 <= j < |w.queues| ==> !Has(w.queues[j], e)
  }

  lemma WhereItWent(w: World, e: Event)
    requires Reachable(w) && e in w.calls
    ensures w.calls[e].Accepted? ==> Everywhere(w, e)
    ensures w.calls[e].Refused? ==> Stopped(w) && Nowhere(w, e)
    ensures w.calls[e].Sending? ==> w.calls[e].i < |w.queues|
  {
    ReachableInv(w);
  }

  /** deliver: write the event to the primary, if it is not there already; then, under the read lock,
      offer it to each queue in turn, or to none when the recorder has stopped. The read lock is not
      had while Close holds the lock: then the call is still waiting. */
  method Deliver(s: Shared, e: Event, primary: bool) returns (pc: Pc)
    requires s.Valid() && e !in s.w.calls
    modifies s
    ensures s.Valid() && e in s.w.calls && s.w.calls[e] == pc && (pc.Accepted? || pc.Refused? || pc.Before?)
    ensures e in s.w.wrote <==> primary && s.w.primary
    ensures pc.Accepted? ==> Everywhere(s.w, e)
    ensures pc.Refused? ==> Stopped(s.w) && Nowhere(s.w, e)
    ensures old(Stopped(s.w)) ==> !pc.Accepted?
    ensures pc.Before? ==> s.w.closer.Shutting?
  {
    WritePrimary(s, e, primary);
    s.Others(Call(e));
    s.Do(ReadLock(e));
    SendAll(s, e);
    WhereItWent(s.w, e);
    pc := s.w.calls[e];
  }

  /** if primary && r.primary != nil { r.primary.Write }: with no lock held, and whether or not Close
      has been called. */
  method WritePrimary(s: Shared, e: Event, primary: bool)
    requires s.Valid() && e !in s.w.calls
    modifies s
    ensures s.Valid() && e in s.w.calls && s.w.calls[e].Before?
    ensures e in s.w.wrote <==> primary && s.w.primary
    ensures old(Stopped(s.w)) ==> Stopped(s.w)
  {
    ReachableInv(s.w);
    s.Do(Offer(e, primary));
    s.Others(Call(e));
    if primary && s.w.primary {
      s.Do(BeginWrite(e));
      s.Others(Call(e));
      s.Do(EndWrite(e));
    }
  }

  /** for _, q := range r.queues. */
  method SendAll(s: Shared, e: Event)
    requires s.Valid() && e in s.w.calls
    modifies s
    ensures s.Valid() && e in s.w.calls && !s.w.calls[e].Sending?
    ensures s.w.calls[e] == if old(s.w.calls[e]).Sending? then Accepted else old(s.w.calls[e])
    ensures !old(s.w.calls[e]).Sending? ==> s.w == old(s.w)
    ensures (e in s.w.wrote <==> e in old(s.w).wrote) && s.w.primary == old(s.w).primary
  {
    while s.w.calls[e].Sending?
      invariant s.Valid() && e in s.w.calls && |s.w.queues| == |old(s.w.queues)|
      invariant s.w.calls[e] == old(s.w.calls[e]) || (old(s.w.calls[e]).Sending? && (s.w.calls[e].Sending? || s.w.calls[e].Accepted?))
      invariant !old(s.w.calls[e]).Sending? ==> s.w == old(s.w)
      invariant (e in s.w.wrote <==> e in old(s.w).wrote) && s.w.primary == old(s.w).primary
      decreases if s.w.calls[e].Sending? then 1 + |s.w.queues| - s.w.calls[e].i else 0
    {
      s.Others(Call(e));
      WhereItWent(s.w, e);
      s.Do(Send(e));
    }
  }

  /** A closed queue takes no more events, so its goroutine empties it and ends: everything queued
      has been handed over then. */
  method DrainRest(s: Shared, j: nat)
    requires s.Valid() && j < |s.w.queues| && s.w.queues[j].closed
    modifies s
    ensures s.Valid() && j < |s.w.queues|
    ensures s.w.queues[j].ended && s.w.queues[j].handed == s.w.queues[j].queued
    ensures s.w.queues[j].handed == old(s.w.queues[j]).handed + old(s.w.queues[j]).chan
  {
    ghost var u := s.w;
    while s.w.queues[j].chan != []
      invariant s.Valid() && j < |s.w.queues| && s.w.queues[j].closed
      invariant s.w.queues[j].handed + s.w.queues[j].chan == u.queues[j].handed + u.queues[j].chan
      decreases |s.w.queues[j].chan|
    {
      s.Do(Written(j));
      s.Others(Drainer(j));
      s.Do(Take(j));
    }
    s.Do(Written(j));
    s.Others(Drainer(j));
    s.Do(End(j));
    ReachableInv(s.w);
    assert QueueInv(s.w.queues[j], s.w.capacity);
  }

  /** How a call of Close ends, as far as it is followed: it was closed before; calls of deliver
      still hold the lock; or it is over, with the queues drained or not. */
  datatype Outcome = ClosedBefore | Locked | Over(drained: bool)

  lemma AllHanded(w: World)
    requires Reachable(w) && w.closer == Closed(true)
    ensures forall j :: 0 <= j < |w.queues| ==>
              w.queues[j].handed == w.queues[j].queued && w.queues[j].closedAfter == Some(|w.queues[j].queued|)
  {
    forall j | 0 <= j < |w.queues|
      ensures w.queues[j].handed == w.queues[j].queued && w.queues[j].closedAfter == Some(|w.queues[j].queued|)
    {
      DrainedClose(w, j);
    }
  }

  /** Close. deadline says whether its context ends. Before that it waits for the drain, so it reports the queues
      undrained only over the deadline, and drained only when every goroutine had ended in the world it met. */
  method Close(s: Shared, deadline: bool) returns (out: Outcome, ghost met: World)
    requires s.Valid() && (s.w.closer.Open? || s.w.closer.Closed?)
    modifies s
    ensures s.Valid()
    ensures out == ClosedBefore <==> old(s.w.closer).Closed?
    ensures out.Over? ==> s.w.closer == Closed(out.drained)
    ensures out == Over(false) ==> deadline
    ensures out == Over(true) ==> |met.queues| == |s.w.queues| && forall j :: 0 <= j < |met.queues| ==> met.queues[j].ended
    ensures out == Over(true) ==>
              forall j :: 0 <= j < |s.w.queues| ==>
                s.w.queues[j].handed == s.w.queues[j].queued && s.w.queues[j].closedAfter == Some(|s.w.queues[j].queued|)
    ensures out == Locked ==> s.w.closer.Open? && exists e :: e in s.w.calls && s.w.calls[e].Sending?
  {
    met := s.w;
    if Stopped(s.w) { return ClosedBefore, met; }
    s.Others(Closing);
    s.Do(WriteLock);
    if s.w.closer.Open? { return Locked, met; }
    CloseQueues(s);
    var drained;
    drained, met := AwaitDrained(s, deadline);
    CloseSinks(s);
    if drained { AllHanded(s.w); }
    out := Over(drained);
  }

  /** for _, q := range r.queues { close(q.events) }, under the write lock. */
  method CloseQueues(s: Shared)
    requires s.Valid() && s.w.closer == Shutting(0)
    modifies s
    ensures s.Valid() && s.w.closer == Draining
  {
    while s.w.closer.Shutting?
      invariant s.Valid() && (s.w.closer.Shutting? || s.w.closer.Draining?)
      invariant s.w.closer.Shutting? ==> s.w.closer.i <= |s.w.queues| == |old(s.w.queues)|
      decreases if s.w.closer.Shutting? then 1 + |s.w.queues| - s.w.closer.i else 0
    {
      s.Others(Closing);
      s.Do(CloseQueue);
    }
  }

  /** select: the goroutines have all ended, or the time is up, and either will do when both have come;
      met is what it finds. */
  method AwaitDrained(s: Shared, deadline: bool) returns (drained: bool, ghost met: World)
    requires s.Valid() && s.w.closer == Draining
    modifies s
    ensures s.Valid() && s.w.closer == ClosingSinks(0, drained) && |s.w.queues| == |met.queues|
    ensures !drained ==> deadline
    ensures drained ==> forall j :: 0 <= j < |met.queues| ==> met.queues[j].ended
  {
    s.Others(Closing);
    drained := !deadline;
    if drained {
      DrainAll(s);
    } else if forall j :: 0 <= j < |s.w.queues| ==> s.w.queues[j].ended {
      drained := *;
    }
    met := s.w;
    s.Do(if drained then AllDrained else TimeOut);
  }

  /** With no deadline every goroutine gets to its end. */
  method DrainAll(s: Shared)
    requires s.Valid() && s.w.closer == Draining
    modifies s
    ensures s.Valid() && s.w.closer == Draining && |s.w.queues| == |old(s.w.queues)|
    ensures forall j :: 0 <= j < |s.w.queues| ==> s.w.queues[j].ended
  {
    for j := 0 to |s.w.queues|
      invariant s.Valid() && s.w.closer == Draining && |s.w.queues| == |old(s.w.queues)|
      invariant forall k :: 0 <= k < j ==> s.w.queues[k].ended
    {
      DrainOut(s, j);
    }
  }

  /** What is left in one queue is handed over, whoever else waits. */
  method DrainOut(s: Shared, j: nat)
    requires s.Valid() && s.w.closer == Draining && j < |s.w.queues|
    modifies s
    ensures s.Valid() && s.w.closer == Draining && |s.w.queues| == |old(s.w.queues)| && s.w.queues[j].ended
    ensures forall k :: 0 <= k < |s.w.queues| && k != j ==> s.w.queues[k] == old(s.w.queues)[k]
  {
    ReachableInv(s.w);
    assert CloseInv(s.w.closer, j, s.w.queues[j]);
    s.Do(Written(j));
    while s.w.queues[j].chan != []
      invariant s.Valid() && s.w.closer == Draining && |s.w.queues| == |old(s.w.queues)|
      invariant s.w.queues[j].closed && !s.w.queues[j].busy
      invariant forall k :: 0 <= k < |s.w.queues| && k != j ==> s.w.queues[k] == old(s.w.queues)[k]
      decreases |s.w.queues[j].chan|
    {
      s.Do(Take(j));
      s.Do(Written(j));
    }
    s.Do(End(j));
  }

  method CloseSinks(s: Shared)
    requires s.Valid() && s.w.closer.ClosingSinks? && s.w.closer.i == 0
    modifies s
    ensures s.Valid() && s.w.closer == Closed(old(s.w.closer.drained)) && |s.w.queues| == |old(s.w.queues)|
  {
    while s.w.closer.ClosingSinks?
      invariant s.Valid() && |s.w.queues| == |old(s.w.queues)|
      invariant (s.w.closer.ClosingSinks? || s.w.closer.Closed?) && s.w.closer.drained == old(s.w.closer.drained)
      invariant s.w.closer.ClosingSinks? ==> s.w.closer.i <= |s.w.queues| == |old(s.w.queues)|
      decreases if s.w.closer.ClosingSinks? then 1 + |s.w.queues| - s.w.closer.i else 0
    {
      s.Others(Closing);
      s.Do(CloseSink);
    }
  }
}
