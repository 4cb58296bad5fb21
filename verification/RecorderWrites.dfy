/** Which of the recorder's writes run at the same time. A sink's Write is documented as never called
    concurrently (internal/audit/audit.go): the queued sinks' are not, and the primary's are exactly
    when calls of deliver overlap. */
module RecorderWrites {
  import opened Recorder

  /** A queued sink is in at most one Write at a time: of what it has been handed at most the last is
      not written yet, and an ended goroutine has written all. */
  lemma QueuedWritesOneByOne(w: World, j: nat)
    requires Reachable(w) && j < |w.queues|
    ensures var q := w.queues[j]; q.written <= |q.handed| <= q.written + 1 && (q.ended ==> |q.handed| == q.written)
  {
    ReachableInv(w);
    assert QueueInv(w.queues[j], w.capacity) && OneWrite(w.queues[j]);
  }

  /** Two calls are in the primary's Write at once. */
  predicate Overlap(w: World, e: Event, f: Event) {
    e in w.calls && f in w.calls && w.calls[e].Writing? && w.calls[f].Writing?
  }

  /** A call that has not left the primary's Write, or is yet to be made. */
  predicate YetToWrite(w: World, e: Event) {
    w.primary && (e in w.calls ==> w.calls[e].Pending? || w.calls[e].Writing?)
  }

  lemma PastWriting(w: World, a: Action, e: Event)
    requires WritesInv(w) && !YetToWrite(w, e)
    ensures !YetToWrite(Step(w, a), e)
  {}

  lemma {:induction false} PastWritingRun(w: World, acts: seq<Action>, e: Event)
    requires Inv(w) && WritesInv(w) && !YetToWrite(w, e)
    ensures !YetToWrite(Run(w, acts), e)
  {
    if acts != [] {
      PastWritingRun(w, acts[..|acts| - 1], e);
      RunKeeps(w, acts[..|acts| - 1]);
      PastWriting(Run(w, acts[..|acts| - 1]), acts[|acts| - 1], e);
    }
  }

  lemma RunThen(w: World, acts: seq<Action>, a: Action)
    ensures Run(w, acts + [a]) == Step(Run(w, acts), a)
  {
    assert (acts + [a])[..|acts|] == acts;
  }

  /** Whatever place before the end of its Write a call has, two steps of its own bring it into it. */
  lemma IntoWrite(w: World, acts: seq<Action>, e: Event) returns (more: seq<Action>)
    requires YetToWrite(Run(w, acts), e)
    ensures Run(w, more) == At(Run(w, acts), e, Writing)
  {
    var v := Run(w, acts);
    RunThen(w, acts, Offer(e, true));
    more := acts + [Offer(e, true)];
    RunThen(w, more, BeginWrite(e));
    more := more + [BeginWrite(e)];
    if e in v.calls && v.calls[e].Writing? { assert At(v, e, Writing) == v; }
  }

  /** The primary's Write is called concurrently for two events in some continuation exactly when
      neither call has left it yet: nothing else keeps them apart. */
  lemma PrimaryWritesOverlap(w: World, e: Event, f: Event)
    requires Reachable(w) && e != f
    ensures (exists acts :: Overlap(Run(w, acts), e, f)) <==> YetToWrite(w, e) && YetToWrite(w, f)
  {
    ReachableInv(w);
    if YetToWrite(w, e) && YetToWrite(w, f) {
      var acts := IntoWrite(w, [], e);
      acts := IntoWrite(w, acts, f);
      assert Overlap(Run(w, acts), e, f);
    } else {
      forall acts
        ensures !Overlap(Run(w, acts), e, f)
      {
        if !YetToWrite(w, e) { PastWritingRun(w, acts, e); } else { PastWritingRun(w, acts, f); }
        RunKeeps(w, acts);
      }
    }
  }

  /** No call that goes to the primary is made while another is on its way through its Write. */
  ghost predicate OneByOne(w: World, acts: seq<Action>) {
    forall i :: 0 <= i < |acts| && acts[i].Offer? && acts[i].primary ==> NoneWriting(Run(w, acts[..i]))
  }

  ghost predicate NoneWriting(w: World) {
    forall e :: e in w.calls ==> !w.calls[e].Pending? && !w.calls[e].Writing?
  }

  ghost predicate AtMostOneWriting(w: World) {
    forall e, f :: e in w.calls && f in w.calls && YetToWrite(w, e) && YetToWrite(w, f) ==> e == f
  }

  lemma OneWritingStep(w: World, a: Action)
    requires AtMostOneWriting(w) && (a.Offer? && a.primary ==> NoneWriting(w))
    ensures AtMostOneWriting(Step(w, a))
  {
    if OfCall(a) { OneWritingCall(w, a); } else { assert Step(w, a).calls == w.calls && Step(w, a).primary == w.primary; }
  }

  lemma OneWritingCall(w: World, a: Action)
    requires OfCall(a) && AtMostOneWriting(w) && (a.Offer? && a.primary ==> NoneWriting(w))
    ensures AtMostOneWriting(CallStep(w, a))
  {
    var v := CallStep(w, a);
    assert forall e :: e != a.e ==> (e in v.calls <==> e in w.calls) && (e in v.calls ==> v.calls[e] == w.calls[e]);
  }

  /** Callers that make their calls one after another see the primary's promise kept. */
  lemma {:induction false} SerialCallsNeverOverlap(w: World, acts: seq<Action>)
    requires Inv(w) && WritesInv(w) && AtMostOneWriting(w) && OneByOne(w, acts)
    ensures AtMostOneWriting(Run(w, acts)) && forall e, f :: e != f ==> !Overlap(Run(w, acts), e, f)
  {
    if acts != [] {
      var n := |acts| - 1;
      forall i | 0 <= i < n && acts[i].Offer? && acts[i].primary
        ensures NoneWriting(Run(w, acts[..n][..i]))
      {
        assert acts[..n][..i] == acts[..i];
      }
      SerialCallsNeverOverlap(w, acts[..n]);
      OneWritingStep(Run(w, acts[..n]), acts[n]);
    }
    RunKeeps(w, acts);
    forall e, f | e != f
      ensures !Overlap(Run(w, acts), e, f)
    {
      assert YetToWrite(Run(w, acts), e) && YetToWrite(Run(w, acts), f) ==> !Overlap(Run(w, acts), e, f);
    }
  }
}
