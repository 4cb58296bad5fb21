/** Audited transactions (internal/audit/store.go): a change's event waits for the commit, and a
    critical change writes its own record into the trail inside its transaction. The store may run
    a transaction's function several times; every run is a script of its own. */
module AuditTx {
  import opened Places

  datatype Option<T> = None | Some(value: T)

  /** How a store call ends: well, with a conflict that means "run it again", or for good. */
  datatype Verdict = Fine | Conflict | Broken

  /** Stamp gives every event an id of its own. */
  datatype Event = Event(id: nat, action: string)

  /** queued: an event waiting for its commit; written says its record is already in the trail. */
  datatype Queued = Queued(event: Event, written: bool)

  /** What a transaction's function does, one audited store call at a time. An ordinary change is
      emitted; a critical one also inserts its record. event is the action to record, if the call
      changed anything. A failing call ends the function with its error. */
  datatype Op =
    | Ordinary(change: string, event: Option<string>)
    | Critical(change: string, event: Option<string>, insert: Verdict)
    | Failing(with: Verdict)

  /** One run of the function, and how its commit ends if it gets that far. */
  datatype Attempt = Attempt(body: seq<Op>, commit: Verdict)

  datatype Db = Db(changes: seq<string>, trail: seq<Event>)

  // What a script comes to.

  /** A failing call's error is never Fine. */
  function Ends(op: Op, trailed: bool): Verdict {
    match op
    case Ordinary(_, _) => Fine
    case Critical(_, event, insert) => if trailed && event.Some? then insert else Fine
    case Failing(with) => if with == Conflict then Conflict else Broken
  }

  /** The first error among the first n calls. */
  function FirstError(body: seq<Op>, n: nat, trailed: bool): Verdict
    requires n <= |body|
  {
    if n == 0 then Fine
    else if FirstError(body, n - 1, trailed) != Fine then FirstError(body, n - 1, trailed)
    else Ends(body[n - 1], trailed)
  }

  function Outcome(a: Attempt, trailed: bool): Verdict {
    if FirstError(a.body, |a.body|, trailed) != Fine then FirstError(a.body, |a.body|, trailed) else a.commit
  }

  function ChangeOf(op: Op): seq<string> { if op.Failing? then [] else [op.change] }

  function Changes(body: seq<Op>, n: nat): seq<string>
    requires n <= |body|
  {
    if n == 0 then [] else Changes(body, n - 1) + ChangeOf(body[n - 1])
  }

  function QueuedBy(op: Op, id: nat, trailed: bool): seq<Queued> {
    if op.Failing? || op.event.None? then []
    else [Queued(Event(id, op.event.value), op.Critical? && trailed)]
  }

  /** The events a script's first n calls queue, numbered on from base. */
  function Queue(body: seq<Op>, n: nat, base: nat, trailed: bool): seq<Queued>
    requires n <= |body|
  {
    if n == 0 then []
    else
      var before := Queue(body, n - 1, base, trailed);
      before + QueuedBy(body[n - 1], base + |before|, trailed)
  }

  function EventsOf(queue: seq<Queued>): seq<Event> {
    seq(|queue|, i requires 0 <= i < |queue| => queue[i].event)
  }

  /** The records already written inside the transaction. */
  function Written(queue: seq<Queued>): seq<Event> {
    if queue == [] then []
    else Written(queue[..|queue| - 1]) + if queue[|queue| - 1].written then [queue[|queue| - 1].event] else []
  }

  /** The records the primary sink takes once the transaction has committed. */
  function Afterwards(queue: seq<Queued>, accepts: Event -> bool): seq<Event> {
    if queue == [] then []
    else
      var q := queue[|queue| - 1];
      Afterwards(queue[..|queue| - 1], accepts) + if !q.written && accepts(q.event) then [q.event] else []
  }

  /** The run that commits: the first that does not end in a conflict, if it ends well. */
  function Committing(attempts: seq<Attempt>, max: nat, trailed: bool): (r: Option<nat>)
    ensures r.Some? ==> r.value < |attempts|
  {
    if attempts == [] || max == 0 then None
    else
      match Outcome(attempts[0], trailed)
      case Fine => Some(0)
      case Broken => None
      case Conflict =>
        match Committing(attempts[1..], max - 1, trailed)
        case None => None
        case Some(i) => Some(i + 1)
  }

  /** The committing run and every run before it. */
  lemma {:induction false} CommittingIsFirst(attempts: seq<Attempt>, max: nat, trailed: bool)
    ensures match Committing(attempts, max, trailed)
            case Some(i) =>
              && i < max && i < |attempts| && Outcome(attempts[i], trailed) == Fine
              && forall j :: 0 <= j < i ==> Outcome(attempts[j], trailed) == Conflict
            case None =>
              forall i :: 0 <= i < max && i < |attempts| && Outcome(attempts[i], trailed) == Fine ==>
                exists j :: 0 <= j < i && Outcome(attempts[j], trailed) == Broken
  {
    if attempts != [] && max > 0 && Outcome(attempts[0], trailed) == Conflict {
      CommittingIsFirst(attempts[1..], max - 1, trailed);
      if Committing(attempts[1..], max - 1, trailed).None? {
        forall i | 0 <= i < max && i < |attempts| && Outcome(attempts[i], trailed) == Fine
          ensures exists j :: 0 <= j < i && Outcome(attempts[j], trailed) == Broken
        {
          assert attempts[1..][i - 1] == attempts[i];
          var k :| 0 <= k < i - 1 && Outcome(attempts[1..][k], trailed) == Broken;
          assert attempts[k + 1] == attempts[1..][k];
        }
      }
    }
  }

  // Counting records.

  /** From base on, each event has the next id. */
  predicate Numbered(queue: seq<Queued>, base: nat) {
    forall i :: 0 <= i < |queue| ==> queue[i].event.id == base + i
  }

  lemma {:induction false} QueueIds(body: seq<Op>, n: nat, base: nat, trailed: bool)
    requires n <= |body|
    ensures var queue := Queue(body, n, base, trailed);
            Numbered(queue, base) && forall q :: q in queue && q.written ==> trailed
  {
    if n > 0 {
      var before := Queue(body, n - 1, base, trailed);
      QueueIds(body, n - 1, base, trailed);
      var last := QueuedBy(body[n - 1], base + |before|, trailed);
      assert forall q :: q in before + last ==> q in before || q in last;
    }
  }

  predicate IsRecorded(q: Queued, accepts: Event -> bool) { q.written || accepts(q.event) }

  function Recorded(queue: seq<Queued>, accepts: Event -> bool): multiset<Event> {
    if queue == [] then multiset{}
    else
      var q := queue[|queue| - 1];
      Recorded(queue[..|queue| - 1], accepts) + if IsRecorded(q, accepts) then multiset{q.event} else multiset{}
  }

  lemma {:induction false} RecordedIs(queue: seq<Queued>, accepts: Event -> bool)
    ensures multiset(Written(queue) + Afterwards(queue, accepts)) == Recorded(queue, accepts)
  {
    if queue != [] {
      var n := |queue| - 1;
      RecordedIs(queue[..n], accepts);
      var q := queue[n];
      var written, later := Written(queue[..n]), Afterwards(queue[..n], accepts);
      var w := if q.written then [q.event] else [];
      var l := if !q.written && accepts(q.event) then [q.event] else [];
      assert multiset(written + w + (later + l)) == multiset(written + later) + multiset(w) + multiset(l);
    }
  }

  lemma {:induction false} RecordedOnce(queue: seq<Queued>, base: nat, accepts: Event -> bool)
    requires Numbered(queue, base)
    ensures var bag := Recorded(queue, accepts);
            && (forall e :: e in bag ==> base <= e.id < base + |queue| && bag[e] == 1)
            && forall i :: 0 <= i < |queue| ==> (queue[i].event in bag <==> IsRecorded(queue[i], accepts))
  {
    if queue != [] {
      var n := |queue| - 1;
      RecordedOnce(queue[..n], base, accepts);
      assert queue[n].event !in Recorded(queue[..n], accepts);
      assert forall i :: 0 <= i < n ==> queue[..n][i] == queue[i];
    }
  }

  predicate IdsBelow(trail: seq<Event>, next: nat) { forall e :: e in trail ==> e.id < next }

  /** Each event is in the trail once if its record was written with its change or the primary sink
      took it, and else not at all. */
  ghost predicate EachAtMostOnce(trail: seq<Event>, queue: seq<Queued>, accepts: Event -> bool) {
    forall q :: q in queue ==> multiset(trail)[q.event] == if IsRecorded(q, accepts) then 1 else 0
  }

  lemma {:induction false} EachOnce(trail: seq<Event>, queue: seq<Queued>, base: nat, accepts: Event -> bool)
    requires IdsBelow(trail, base) && Numbered(queue, base)
    ensures var after := trail + Written(queue) + Afterwards(queue, accepts);
            IdsBelow(after, base + |queue|) && EachAtMostOnce(after, queue, accepts)
  {
    var more := Written(queue) + Afterwards(queue, accepts);
    RecordedIs(queue, accepts);
    RecordedOnce(queue, base, accepts);
    var after := trail + Written(queue) + Afterwards(queue, accepts);
    assert after == trail + more;
    assert forall e :: e in more ==> e in multiset(more);
    forall q | q in queue
      ensures multiset(after)[q.event] == if IsRecorded(q, accepts) then 1 else 0
    {
      assert q.event !in trail;
      assert multiset(trail)[q.event] == 0;
      assert multiset(after) == multiset(trail) + multiset(more);
    }
  }

  // What a committed body leaves, call by call.

  /** A call that does not fail by itself, nor over its record. */
  predicate Succeeds(op: Op, trailed: bool) {
    !op.Failing? && (op.Critical? && trailed && op.event.Some? ==> op.insert == Fine)
  }

  /** The call fails, over a conflict or for good. */
  predicate FailsOver(op: Op, trailed: bool, conflict: bool) {
    !Succeeds(op, trailed) && (conflict <==> (if op.Failing? then op.with else op.insert) == Conflict)
  }

  lemma {:induction false} FirstErrorIs(body: seq<Op>, n: nat, trailed: bool)
    requires n <= |body|
    ensures FirstError(body, n, trailed) == Fine <==> forall k :: 0 <= k < n ==> Succeeds(body[k], trailed)
    ensures FirstError(body, n, trailed) == Conflict <==>
              exists k :: 0 <= k < n && FailsOver(body[k], trailed, true) && forall j :: 0 <= j < k ==> Succeeds(body[j], trailed)
  {
    if n > 0 {
      FirstErrorIs(body, n - 1, trailed);
      if FirstError(body, n - 1, trailed) == Fine && !Succeeds(body[n - 1], trailed) && FirstError(body, n, trailed) == Conflict {
        assert FailsOver(body[n - 1], trailed, true);
      }
    }
  }

  /** How one run ends: well when every call succeeds and the commit does; in a conflict when the first
      call that fails does so over one, or the commit alone. */
  lemma {:induction false} OutcomeIs(a: Attempt, trailed: bool)
    ensures Outcome(a, trailed) == Fine <==> a.commit == Fine && forall k :: 0 <= k < |a.body| ==> Succeeds(a.body[k], trailed)
    ensures Outcome(a, trailed) == Conflict <==>
              || (a.commit == Conflict && forall k :: 0 <= k < |a.body| ==> Succeeds(a.body[k], trailed))
              || exists k :: 0 <= k < |a.body| && FailsOver(a.body[k], trailed, true) && forall j :: 0 <= j < k ==> Succeeds(a.body[j], trailed)
  {
    FirstErrorIs(a.body, |a.body|, trailed);
  }

  /** The calls of a body that changed something, in order, and the event each of them makes. */
  ghost predicate MakesEvents(body: seq<Op>, at: seq<nat>, base: nat, events: seq<Event>) {
    && Increasing(at) && Below(at, |body|) && |events| == |at|
    && (forall k :: 0 <= k < |body| ==> (k in at <==> !body[k].Failing? && body[k].event.Some?))
    && forall i :: 0 <= i < |at| ==>
         !body[at[i]].Failing? && body[at[i]].event.Some? && events[i] == Event(base + i, body[at[i]].event.value)
  }

  /** Inside the transaction are the records of the critical calls, and of no others. */
  ghost predicate CriticalInside(body: seq<Op>, at: seq<nat>, events: seq<Event>, inside: seq<Event>)
    requires Below(at, |body|) && |events| == |at|
  {
    (forall i :: 0 <= i < |at| ==> (events[i] in inside <==> body[at[i]].Critical?)) && forall e :: e in inside ==> e in events
  }

  predicate Makes(op: Op) { !op.Failing? && op.event.Some? }

  /** The queue the first n calls make: the events of those that changed something, with the critical
      ones' records written. */
  ghost predicate MakesQueue(body: seq<Op>, n: nat, at: seq<nat>, base: nat, trailed: bool, queue: seq<Queued>)
    requires n <= |body|
  {
    && Increasing(at) && Below(at, n) && |queue| == |at|
    && (forall k :: 0 <= k < n && Makes(body[k]) ==> k in at)
    && forall i :: 0 <= i < |at| ==> Makes(body[at[i]]) && queue[i] == QueuedAs(body[at[i]], base + i, trailed)
  }

  function QueuedAs(op: Op, id: nat, trailed: bool): Queued
    requires Makes(op)
  {
    Queued(Event(id, op.event.value), op.Critical? && trailed)
  }

  lemma {:induction false} MakesMore(body: seq<Op>, n: nat, at: seq<nat>, base: nat, trailed: bool, queue: seq<Queued>,
      more: seq<nat>, after: seq<Queued>)
    requires n < |body| && MakesQueue(body, n, at, base, trailed, queue)
    requires Makes(body[n]) ==> more == at + [n] && after == queue + [QueuedAs(body[n], base + |queue|, trailed)]
    requires !Makes(body[n]) ==> more == at && after == queue
    ensures MakesQueue(body, n + 1, more, base, trailed, after)
  {
    LastPlace(at, n);
  }

  lemma {:induction false} QueueStep(body: seq<Op>, n: nat, base: nat, trailed: bool, before: seq<Queued>, after: seq<Queued>)
    requires n < |body| && before == Queue(body, n, base, trailed) && after == Queue(body, n + 1, base, trailed)
    ensures after == if Makes(body[n]) then before + [QueuedAs(body[n], base + |before|, trailed)] else before
  {}

  lemma {:induction false} QueuedNext(body: seq<Op>, n: nat, base: nat, trailed: bool, at: seq<nat>, before: seq<Queued>, after: seq<Queued>)
      returns (more: seq<nat>)
    requires n < |body| && before == Queue(body, n, base, trailed) && after == Queue(body, n + 1, base, trailed)
    requires MakesQueue(body, n, at, base, trailed, before)
    ensures MakesQueue(body, n + 1, more, base, trailed, after)
  {
    QueueStep(body, n, base, trailed, before, after);
    more := if Makes(body[n]) then at + [n] else at;
    MakesMore(body, n, at, base, trailed, before, more, after);
  }

  lemma {:induction false} QueuedAt(body: seq<Op>, n: nat, base: nat, trailed: bool) returns (at: seq<nat>)
    requires n <= |body|
    ensures MakesQueue(body, n, at, base, trailed, Queue(body, n, base, trailed))
  {
    at := [];
    if n > 0 {
      var before := QueuedAt(body, n - 1, base, trailed);
      at := QueuedNext(body, n - 1, base, trailed, before, Queue(body, n - 1, base, trailed), Queue(body, n, base, trailed));
    }
  }

  lemma {:induction false} WrittenHas(queue: seq<Queued>, e: Event)
    ensures e in Written(queue) <==> exists q :: q in queue && q.written && q.event == e
  {
    if queue != [] {
      var n := |queue| - 1;
      WrittenHas(queue[..n], e);
      assert queue == queue[..n] + [queue[n]];
    }
  }

  lemma {:induction false} ChangesAre(body: seq<Op>, n: nat)
    requires n <= |body| && forall k :: 0 <= k < n ==> !body[k].Failing?
    ensures |Changes(body, n)| == n && forall k :: 0 <= k < n ==> Changes(body, n)[k] == body[k].change
  {
    if n > 0 { ChangesAre(body, n - 1); }
  }

  /** What a committed body leaves, said of its calls: each change; for each call that made an event, one
      event delivered, in call order and with the call's action; and in the trail, if that is the
      database's, the critical ones' records first, written inside the transaction, and of the
      others those the primary sink took. */
  ghost predicate LeftBehind(body: seq<Op>, at: seq<nat>, base: nat, trailed: bool, accepts: Event -> bool,
      before: Db, after: Db, delivered: seq<Event>, deliveredAfter: seq<Event>, inside: seq<Event>, later: seq<Event>)
  {
    && |after.changes| == |before.changes| + |body| && before.changes <= after.changes
    && (forall k :: 0 <= k < |body| ==> !body[k].Failing? && after.changes[|before.changes| + k] == body[k].change)
    && delivered <= deliveredAfter && MakesEvents(body, at, base, deliveredAfter[|delivered|..])
    && after.trail == before.trail + inside + later
    && (if trailed then
          CriticalInside(body, at, deliveredAfter[|delivered|..], inside)
          && forall i :: 0 <= i < |at| ==>
               multiset(after.trail)[deliveredAfter[|delivered| + i]] == if body[at[i]].Critical? || accepts(deliveredAfter[|delivered| + i]) then 1 else 0
        else inside == later == [])
  }

  lemma {:induction false} QueueLeaves(body: seq<Op>, at: seq<nat>, base: nat, trailed: bool, queue: seq<Queued>)
    requires MakesQueue(body, |body|, at, base, trailed, queue)
    ensures MakesEvents(body, at, base, EventsOf(queue))
    ensures trailed ==> CriticalInside(body, at, EventsOf(queue), Written(queue))
  {
    var events := EventsOf(queue);
    forall i | 0 <= i < |at|
      ensures trailed ==> (events[i] in Written(queue) <==> body[at[i]].Critical?)
    {
      WrittenHas(queue, events[i]);
      if trailed && events[i] in Written(queue) {
        var j :| 0 <= j < |queue| && queue[j].written && queue[j].event == events[i];
        assert j == i;
      }
      assert queue[i] in queue;
    }
    forall e | e in Written(queue)
      ensures e in events
    {
      WrittenHas(queue, e);
      var j :| 0 <= j < |queue| && queue[j].event == e;
      assert events[j] == e;
    }
  }

  lemma {:induction false} OnePendingMore(queue: seq<Queued>, i: nat, accepts: Event -> bool)
    requires i < |queue|
    ensures EventsOf(queue[..i + 1]) == EventsOf(queue[..i]) + [queue[i].event]
    ensures Afterwards(queue[..i + 1], accepts) ==
            Afterwards(queue[..i], accepts) + if !queue[i].written && accepts(queue[i].event) then [queue[i].event] else []
  {
    assert queue[..i + 1][..i] == queue[..i];
  }

  // The store.

  /** A store wrapped by an audited one, with the recorder behind it. pending is what the running
      transaction has queued; delivered is what the sinks' queues were offered. next is the next id
      Stamp hands out. trailed: the primary sink is the database's own trail. */
  class AuditedStore {
    const trailed: bool
    const attempts: nat
    var db: Db
    var pending: seq<Queued>
    var delivered: seq<Event>
    var next: nat

    predicate Valid()
      reads this
    {
      IdsBelow(db.trail, next)
    }

    constructor (trailed: bool, attempts: nat)
      ensures Valid() && this.trailed == trailed && this.attempts == attempts
      ensures db == Db([], []) && pending == [] && delivered == [] && next == 0
    {
      this.trailed, this.attempts := trailed, attempts;
      db, pending, delivered, next := Db([], []), [], [], 0;
    }

    method Stamp(action: string) returns (e: Event)
      modifies this`next
      ensures e == Event(old(next), action) && next == old(next) + 1
    {
      e := Event(next, action);
      next := next + 1;
    }

    /** Recorder.deliver: the primary sink first, unless the record is written already; then the queues. */
    method Deliver(e: Event, primary: bool, accepts: Event -> bool)
      modifies this`db, this`delivered
      ensures delivered == old(delivered) + [e] && db.changes == old(db).changes
      ensures db.trail == old(db).trail + if trailed && primary && accepts(e) then [e] else []
    {
      if trailed && primary && accepts(e) { db := db.(trail := db.trail + [e]); }
      delivered := delivered + [e];
    }

    /** The loop over what the committed run queued. */
    method DeliverPending(accepts: Event -> bool)
      requires !trailed ==> forall q :: q in pending ==> !q.written
      modifies this`db, this`delivered
      ensures delivered == old(delivered) + EventsOf(pending) && db.changes == old(db).changes
      ensures db.trail == old(db).trail + if trailed then Afterwards(pending, accepts) else []
    {
      for i := 0 to |pending|
        invariant delivered == old(delivered) + EventsOf(pending[..i]) && db.changes == old(db).changes
        invariant db.trail == old(db).trail + if trailed then Afterwards(pending[..i], accepts) else []
      {
        OnePendingMore(pending, i, accepts);
        Deliver(pending[i].event, !pending[i].written, accepts);
      }
      assert pending[..|pending|] == pending;
    }

    /** One run of the function against the transaction's own view: changes and records collect in
        it, events in pending. */
    method RunBody(body: seq<Op>) returns (tx: Db, verdict: Verdict)
      modifies this`pending, this`next
      ensures verdict == FirstError(body, |body|, trailed) && old(next) <= next
      ensures verdict == Fine ==> Ran(body, |body|, old(next), trailed, db, tx, pending, next)
    {
      pending, tx, verdict := [], db, Fine;
      for i := 0 to |body|
        invariant verdict == Fine && old(next) <= next && FirstError(body, i, trailed) == Fine
        invariant Ran(body, i, old(next), trailed, db, tx, pending, next)
      {
        verdict := Ends(body[i], trailed);
        if verdict != Fine {
          StaysFailed(body, i + 1, trailed);
          return;
        }
        RanOneMore(body, i, old(next), trailed, db, tx, pending, next);
        tx := RunOp(body[i], tx);
      }
    }

    method RunOp(op: Op, before: Db) returns (tx: Db)
      requires Ends(op, trailed) == Fine
      modifies this`pending, this`next
      ensures pending == old(pending) + QueuedBy(op, old(next), trailed)
      ensures next == old(next) + |QueuedBy(op, old(next), trailed)|
      ensures tx == Db(before.changes + ChangeOf(op), before.trail + Written(QueuedBy(op, old(next), trailed)))
    {
      tx := before.(changes := before.changes + ChangeOf(op));
      if !op.Failing? && op.event.Some? {
        var e := Stamp(op.event.value);
        var written := op.Critical? && trailed;
        if written { tx := tx.(trail := tx.trail + [e]); }
        assert Written([Queued(e, written)]) == if written then [e] else [];
        pending := pending + [Queued(e, written)];
      }
    }

    /** WithTx over the store's own: the function runs again after a conflict, from an empty queue;
        what the committing run queued is delivered once it has committed. */
    method InTx(runs: seq<Attempt>, accepts: Event -> bool)
        returns (ok: bool, ghost base: nat, ghost at: seq<nat>, ghost inside: seq<Event>, ghost later: seq<Event>)
      requires Valid() && attempts <= |runs|
      modifies this
      ensures Valid()
      ensures ok <==> Committing(runs, attempts, trailed).Some?
      ensures !ok ==> db == old(db) && delivered == old(delivered)
      ensures ok ==>
                var body := runs[Committing(runs, attempts, trailed).value].body;
                && old(next) <= base && Delivered(this, old(db), old(delivered), body, base, accepts)
                && LeftBehind(body, at, base, trailed, accepts, old(db), db, old(delivered), delivered, inside, later)
    {
      base, at, inside, later := next, [], [], [];
      for i := 0 to attempts
        invariant Valid() && old(next) <= next && db == old(db) && delivered == old(delivered)
        invariant Conflicted(runs, i, trailed)
      {
        base := next;
        var tx, verdict := RunBody(runs[i].body);
        if verdict == Fine { verdict := runs[i].commit; }
        DecidedAt(runs, i, attempts, trailed);
        if verdict == Broken { return false, base, at, inside, later; }
        if verdict == Fine {
          db := tx;
          DeliverAfter(runs[i].body, accepts, base, old(db));
          OutcomeIs(runs[i], trailed);
          at, inside, later := WhatIsLeft(this, runs[i].body, base, accepts, old(db), old(delivered));
          return true, base, at, inside, later;
        }
      }
      AllConflicted(runs, attempts, trailed);
      ok := false;
    }

    /** critical outside a transaction: the change and its record in one transaction of their own;
        without a database trail, the change and then an ordinary emit. */
    method Standalone(runs: seq<Attempt>, accepts: Event -> bool) returns (ok: bool, ghost base: nat)
      requires Valid() && 0 < attempts <= |runs|
      requires forall i :: 0 <= i < |runs| ==> |runs[i].body| == 1 && !runs[i].body[0].Ordinary?
      modifies this
      ensures Valid()
      ensures !ok ==> db == old(db) && delivered == old(delivered)
      ensures ok <==> if trailed then Committing(runs, attempts, true).Some? else runs[0].body[0].Critical?
      ensures ok ==>
                var op := runs[if trailed then Committing(runs, attempts, true).value else 0].body[0];
                && op.Critical?
                && db.changes == old(db).changes + [op.change]
                && old(next) <= base
                && delivered == old(delivered) + (if op.event.Some? then [Event(base, op.event.value)] else [])
                && db.trail == old(db).trail + if trailed && op.event.Some? then [Event(base, op.event.value)] else []
    {
      if !trailed {
        base := next;
        var op := runs[0].body[0];
        if op.Failing? { return false, base; }
        db := db.(changes := db.changes + [op.change]);
        if op.event.Some? {
          var e := Stamp(op.event.value);
          Deliver(e, true, accepts);
        }
        return true, base;
      }
      ghost var at, inside, later;
      ok, base, at, inside, later := InTx(runs, accepts);
      if ok { OneCritical(runs, attempts, base, accepts); }
    }

    /** After the commit: every queued event goes out, in order. */
    method DeliverAfter(body: seq<Op>, accepts: Event -> bool, ghost base: nat, ghost before: Db)
      requires IdsBelow(before.trail, base) && Ran(body, |body|, base, trailed, before, db, pending, next)
      modifies this`db, this`delivered
      ensures Valid() && Delivered(this, before, old(delivered), body, base, accepts)
    {
      QueueIds(body, |body|, base, trailed);
      EachOnce(before.trail, pending, base, accepts);
      DeliverPending(accepts);
      if !trailed { NoneWritten(pending); }
    }
  }

  /** What a committed transaction leaves: its changes, its records, and its events delivered in the
      order it made them. With a database trail, each is in it once, unless it was left to the
      primary sink and that refused it. */
  ghost predicate Delivered(s: AuditedStore, db: Db, delivered: seq<Event>, body: seq<Op>, base: nat, accepts: Event -> bool)
    reads s
  {
    var queue := Queue(body, |body|, base, s.trailed);
    && s.db.changes == db.changes + Changes(body, |body|)
    && s.delivered == delivered + EventsOf(queue)
    && s.db.trail == db.trail + Written(queue) + (if s.trailed then Afterwards(queue, accepts) else [])
    && (s.trailed ==> EachAtMostOnce(s.db.trail, queue, accepts))
  }

  lemma WhatIsLeft(s: AuditedStore, body: seq<Op>, base: nat, accepts: Event -> bool, db: Db, delivered: seq<Event>)
      returns (at: seq<nat>, inside: seq<Event>, later: seq<Event>)
    requires Delivered(s, db, delivered, body, base, accepts)
    requires forall k :: 0 <= k < |body| ==> Succeeds(body[k], s.trailed)
    ensures LeftBehind(body, at, base, s.trailed, accepts, db, s.db, delivered, s.delivered, inside, later)
  {
    var queue := Queue(body, |body|, base, s.trailed);
    at := QueuedAt(body, |body|, base, s.trailed);
    QueueLeaves(body, at, base, s.trailed, queue);
    ChangesAre(body, |body|);
    inside, later := Written(queue), if s.trailed then Afterwards(queue, accepts) else [];
    if s.trailed { LeftInTrail(s.db.trail, body, at, base, queue, accepts); } else { NoneWritten(queue); }
    AllLeft(body, at, base, s.trailed, accepts, db, s.db, delivered, queue, inside, later);
  }

  lemma {:induction false} AllLeft(body: seq<Op>, at: seq<nat>, base: nat, trailed: bool, accepts: Event -> bool,
      before: Db, after: Db, delivered: seq<Event>, queue: seq<Queued>, inside: seq<Event>, later: seq<Event>)
    requires MakesEvents(body, at, base, EventsOf(queue)) && forall k :: 0 <= k < |body| ==> !body[k].Failing?
    requires |Changes(body, |body|)| == |body| && forall k :: 0 <= k < |body| ==> Changes(body, |body|)[k] == body[k].change
    requires after.changes == before.changes + Changes(body, |body|) && after.trail == before.trail + inside + later
    requires if trailed then
               && CriticalInside(body, at, EventsOf(queue), inside)
               && forall i :: 0 <= i < |at| ==>
                    multiset(after.trail)[queue[i].event] == if body[at[i]].Critical? || accepts(queue[i].event) then 1 else 0
             else inside == later == []
    ensures LeftBehind(body, at, base, trailed, accepts, before, after, delivered, delivered + EventsOf(queue), inside, later)
  {
    assert (delivered + EventsOf(queue))[|delivered|..] == EventsOf(queue);
  }

  lemma LeftInTrail(trail: seq<Event>, body: seq<Op>, at: seq<nat>, base: nat, queue: seq<Queued>, accepts: Event -> bool)
    requires MakesQueue(body, |body|, at, base, true, queue) && EachAtMostOnce(trail, queue, accepts)
    ensures forall i :: 0 <= i < |at| ==>
              multiset(trail)[queue[i].event] == if body[at[i]].Critical? || accepts(queue[i].event) then 1 else 0
  {
    forall i | 0 <= i < |at|
      ensures multiset(trail)[queue[i].event] == if body[at[i]].Critical? || accepts(queue[i].event) then 1 else 0
    {
      assert queue[i] in queue;
    }
  }

  /** The one record of a critical change. */
  function RecordOf(op: Op, id: nat): seq<Event>
    requires op.Critical?
  {
    if op.event.Some? then [Event(id, op.event.value)] else []
  }

  lemma OneCritical(runs: seq<Attempt>, max: nat, base: nat, accepts: Event -> bool)
    requires Committing(runs, max, true).Some?
    requires forall i :: 0 <= i < |runs| ==> |runs[i].body| == 1 && !runs[i].body[0].Ordinary?
    ensures var body := runs[Committing(runs, max, true).value].body;
            && body[0].Critical?
            && Changes(body, |body|) == [body[0].change]
            && EventsOf(Queue(body, |body|, base, true)) == RecordOf(body[0], base)
            && Written(Queue(body, |body|, base, true)) == RecordOf(body[0], base)
            && Afterwards(Queue(body, |body|, base, true), accepts) == []
  {
    CommittingIsFirst(runs, max, true);
    var body := runs[Committing(runs, max, true).value].body;
    assert FirstError(body, 1, true) == Ends(body[0], true);
    assert Changes(body, 1) == Changes(body, 0) + [body[0].change];
    assert Queue(body, 1, base, true) == QueuedBy(body[0], base, true);
  }

  lemma {:induction false} NoneWritten(queue: seq<Queued>)
    requires forall q :: q in queue ==> !q.written
    ensures Written(queue) == []
  {
    if queue != [] {
      assert queue[|queue| - 1] in queue;
      NoneWritten(queue[..|queue| - 1]);
    }
  }

  predicate Conflicted(runs: seq<Attempt>, n: nat, trailed: bool)
    requires n <= |runs|
  {
    forall i :: 0 <= i < n ==> Outcome(runs[i], trailed) == Conflict
  }

  /** The first run that does not end in a conflict decides. */
  lemma {:induction false} DecidedAt(runs: seq<Attempt>, i: nat, max: nat, trailed: bool)
    requires i < max <= |runs| && Conflicted(runs, i, trailed)
    ensures Outcome(runs[i], trailed) == Fine ==> Committing(runs, max, trailed) == Some(i)
    ensures Outcome(runs[i], trailed) == Broken ==> Committing(runs, max, trailed).None?
  {
    if i > 0 {
      assert Conflicted(runs[1..], i - 1, trailed);
      DecidedAt(runs[1..], i - 1, max - 1, trailed);
    }
  }

  lemma {:induction false} AllConflicted(runs: seq<Attempt>, max: nat, trailed: bool)
    requires max <= |runs| && Conflicted(runs, max, trailed)
    ensures Committing(runs, max, trailed).None?
  {
    if max > 0 {
      assert Conflicted(runs[1..], max - 1, trailed);
      AllConflicted(runs[1..], max - 1, trailed);
    }
  }

  /** The transaction's view and queue after the first n calls, none of which failed. */
  ghost predicate Ran(body: seq<Op>, n: nat, base: nat, trailed: bool, db: Db, tx: Db, queue: seq<Queued>, next: nat)
    requires n <= |body|
  {
    && queue == Queue(body, n, base, trailed) && next == base + |queue|
    && tx == Db(db.changes + Changes(body, n), db.trail + Written(queue))
  }

  lemma {:induction false} QueueMore(body: seq<Op>, i: nat, base: nat, trailed: bool, queue: seq<Queued>, next: nat)
    requires i < |body| && queue == Queue(body, i, base, trailed) && next == base + |queue|
    ensures var more := QueuedBy(body[i], next, trailed);
            queue + more == Queue(body, i + 1, base, trailed) && next + |more| == base + |queue + more|
  {}

  lemma {:induction false} ChangesMore(body: seq<Op>, i: nat)
    requires i < |body|
    ensures Changes(body, i + 1) == Changes(body, i) + ChangeOf(body[i])
  {}

  lemma {:induction false} ViewOneMore(body: seq<Op>, i: nat, db: Db, tx: Db, queue: seq<Queued>, more: seq<Queued>)
    requires i < |body| && |more| <= 1 && tx == Db(db.changes + Changes(body, i), db.trail + Written(queue))
    ensures Db(tx.changes + ChangeOf(body[i]), tx.trail + Written(more)) ==
            Db(db.changes + Changes(body, i + 1), db.trail + Written(queue + more))
  {
    WrittenOneMore(queue, more);
    ChangesMore(body, i);
    ViewMore(db, tx, Changes(body, i), ChangeOf(body[i]), Written(queue), Written(more));
  }

  lemma {:induction false} RanOneMore(body: seq<Op>, i: nat, base: nat, trailed: bool, db: Db, tx: Db, queue: seq<Queued>, next: nat)
    requires i < |body| && Ran(body, i, base, trailed, db, tx, queue, next)
    ensures var more := QueuedBy(body[i], next, trailed);
            Ran(body, i + 1, base, trailed, db, Db(tx.changes + ChangeOf(body[i]), tx.trail + Written(more)),
                queue + more, next + |more|)
  {
    QueueMore(body, i, base, trailed, queue, next);
    ViewOneMore(body, i, db, tx, queue, QueuedBy(body[i], next, trailed));
  }

  lemma ViewMore(db: Db, tx: Db, changes: seq<string>, change: seq<string>, records: seq<Event>, record: seq<Event>)
    requires tx == Db(db.changes + changes, db.trail + records)
    ensures Db(tx.changes + change, tx.trail + record) == Db(db.changes + (changes + change), db.trail + (records + record))
  {
    Regroup(db.trail, records, record);
    Regroup(db.changes, changes, change);
  }

  lemma Regroup<T>(a: seq<T>, b: seq<T>, c: seq<T>)
    ensures a + b + c == a + (b + c)
  {}

  lemma {:induction false} WrittenOneMore(queue: seq<Queued>, more: seq<Queued>)
    requires |more| <= 1
    ensures Written(queue + more) == Written(queue) + Written(more)
  {
    if more == [] {
      assert queue + more == queue;
    } else {
      assert more[..0] == [];
      assert (queue + more)[..|queue + more| - 1] == queue;
    }
  }

  /** A script that has failed once ends with that error. */
  lemma {:induction false} StaysFailed(body: seq<Op>, i: nat, trailed: bool)
    requires i <= |body| && FirstError(body, i, trailed) != Fine
    ensures FirstError(body, |body|, trailed) == FirstError(body, i, trailed)
    decreases |body| - i
  {
    if i < |body| { StaysFailed(body, i + 1, trailed); }
  }
}
