/** When the audit recorder drops an event (internal/audit/audit.go): exactly when a sink's queue is full. */
module RecorderDrops {
  import opened Recorder

  /** How many events are queued and not yet taken. */
  function Untaken(q: Queue): int { |q.queued| - |q.handed| }

  /** A call that offers its event to a queue has it dropped exactly when capacity events wait there, and
      else queued last; no other queue changes. */
  lemma DropsIffFull(w: World, e: Event)
    requires Reachable(w) && e in w.calls && w.calls[e].Sending?
    ensures var i, v := w.calls[e].i, Step(w, Send(e));
            && i < |w.queues| == |v.queues|
            && (e in v.queues[i].dropped <==> Untaken(w.queues[i]) == w.capacity)
            && v.queues[i].queued == w.queues[i].queued + (if Untaken(w.queues[i]) == w.capacity then [] else [e])
            && v.queues[i].dropped == w.queues[i].dropped + (if Untaken(w.queues[i]) == w.capacity then {e} else {})
            && forall j :: 0 <= j < |w.queues| && j != i ==> v.queues[j] == w.queues[j]
  {
    ReachableInv(w);
    var i := w.calls[e].i;
    assert QueueInv(w.queues[i], w.capacity) && CloseInv(w.closer, i, w.queues[i]);
    assert Has(w.queues[i], e) <==> Reached(w.calls[e], i);
  }

  /** Whenever a call offers its event to queue j, fewer than capacity events wait there. */
  ghost predicate NeverFull(w: World, acts: seq<Action>, j: nat) {
    forall k :: 0 <= k < |acts| && acts[k].Send? ==>
      var u := Run(w, acts[..k]);
      acts[k].e in u.calls && u.calls[acts[k].e] == Sending(j) && j < |u.queues| ==> Untaken(u.queues[j]) < u.capacity
  }

  /** Over every run: a queue that is never found full drops nothing, so every call that was accepted has
      its event queued there. */
  lemma NeverFullDropsNothing(capacity: nat, sinks: nat, primary: bool, acts: seq<Action>, j: nat)
    requires j < sinks && NeverFull(Init(capacity, sinks, primary), acts, j)
    ensures var w := Run(Init(capacity, sinks, primary), acts);
            && |w.queues| == sinks && w.queues[j].dropped == {}
            && forall e :: e in w.calls && w.calls[e].Accepted? ==> e in w.queues[j].queued
  {
    DropsNothing(capacity, sinks, primary, acts, j);
    var w := Run(Init(capacity, sinks, primary), acts);
    assert Reachable(w);
    ReachableInv(w);
    forall e | e in w.calls && w.calls[e].Accepted?
      ensures e in w.queues[j].queued
    {
      assert Has(w.queues[j], e) <==> Reached(w.calls[e], j);
    }
  }

  lemma {:induction false} DropsNothing(capacity: nat, sinks: nat, primary: bool, acts: seq<Action>, j: nat)
    requires j < sinks && NeverFull(Init(capacity, sinks, primary), acts, j)
    ensures var w := Run(Init(capacity, sinks, primary), acts);
            |w.queues| == sinks && w.queues[j].dropped == {}
  {
    if acts != [] {
      var n := |acts| - 1;
      var init := Init(capacity, sinks, primary);
      forall k | 0 <= k < n && acts[..n][k].Send?
        ensures var u := Run(init, acts[..n][..k]);
                acts[k].e in u.calls && u.calls[acts[k].e] == Sending(j) && j < |u.queues| ==> Untaken(u.queues[j]) < u.capacity
      {
        assert acts[..n][..k] == acts[..k];
      }
      DropsNothing(capacity, sinks, primary, acts[..n], j);
      var w := Run(init, acts[..n]);
      assert Reachable(w);
      if acts[n].Send? && acts[n].e in w.calls && w.calls[acts[n].e].Sending? { DropsIffFull(w, acts[n].e); }
      else { OnlySendsDrop(w, acts[n], j); }
    }
  }

  lemma OnlySendsDrop(w: World, a: Action, j: nat)
    requires j < |w.queues| && !(a.Send? && a.e in w.calls && w.calls[a.e].Sending?)
    ensures |Step(w, a).queues| == |w.queues| && Step(w, a).queues[j].dropped == w.queues[j].dropped
  {}

  /** A sink's goroutine can end exactly when its queue is closed, empty, and all it took has been written. */
  lemma EndsIff(w: World, j: nat)
    requires Reachable(w) && j < |w.queues| && !w.queues[j].ended
    ensures Step(w, End(j)).queues[j].ended <==>
              w.queues[j].closed && Untaken(w.queues[j]) == 0 && |w.queues[j].handed| == w.queues[j].written
  {
    ReachableInv(w);
    assert QueueInv(w.queues[j], w.capacity) && OneWrite(w.queues[j]);
  }
}
