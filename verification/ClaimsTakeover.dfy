/** What the claim protocol gets done (internal/httpserver/webhooks.go, internal/store/adapter.go): who
    wins a claim, and that no claim is stuck forever. */
module ClaimsTakeover {
  import opened Claims
  import opened ClaimsInv

  /** The row is a claim in flight that the time to live has run out for. */
  predicate Expired(row: Option<Row>, ttl: nat, now: int) {
    row.Some? && !row.value.posted && row.value.claimedAt + ttl <= now
  }

  function Claiming(w: World, o: Owner): World { Step(Step(Step(w, Begin(o)), Reap(o)), Insert(o)) }

  /** An attempt that is not disturbed while it claims wins exactly when there is no row, or only a claim
      whose time to live has run out. */
  lemma WinsIff(kind: Kind, ttl: nat, clock: int, acts: seq<Action>, o: Owner)
    requires o !in Run(Init(kind, ttl, clock), acts).procs
    ensures var w := Run(Init(kind, ttl, clock), acts);
            var v := Claiming(w, o);
            && o in v.procs
            && (v.procs[o].Won? <==> w.row.None? || Expired(w.row, ttl, w.clock))
            && (v.procs[o].Won? ==> v.procs[o].at == w.clock && v.row == Some(Row(o, w.clock, false, "", "")))
            && (!v.procs[o].Won? ==> v.procs[o] == Conflicted && v.row == w.row)
  {
    RunTtl(Init(kind, ttl, clock), acts);
  }

  lemma {:induction false} RunTtl(w: World, acts: seq<Action>)
    ensures Run(w, acts).ttl == w.ttl && Run(w, acts).kind == w.kind
  {
    if acts != [] { RunTtl(w, acts[..|acts| - 1]); }
  }

  // Nothing is stuck.

  /** One attempt, from its clock read to its record. */
  function Delivery(o: Owner, m: string, c: string): seq<Action> {
    [Begin(o), Reap(o), Insert(o), Call(o, Sent(m, c)), Complete(o)]
  }

  lemma {:induction false} RunOne(w: World, a: Action, rest: seq<Action>)
    ensures Run(w, [a] + rest) == Run(Step(w, a), rest)
  {
    RunConcat(w, [a], rest);
    assert Run(w, [a]) == Step(w, a) by { assert [a][..0] == []; }
  }

  lemma {:induction false} RunDelivery(w: World, o: Owner, m: string, c: string)
    ensures Run(w, Delivery(o, m, c)) == Step(Step(Claiming(w, o), Call(o, Sent(m, c))), Complete(o))
  {
    var acts := Delivery(o, m, c);
    assert acts == [Begin(o)] + ([Reap(o)] + ([Insert(o)] + ([Call(o, Sent(m, c))] + ([Complete(o)] + []))));
    RunOne(w, Begin(o), [Reap(o)] + ([Insert(o)] + ([Call(o, Sent(m, c))] + ([Complete(o)] + []))));
    RunOne(Step(w, Begin(o)), Reap(o), [Insert(o)] + ([Call(o, Sent(m, c))] + ([Complete(o)] + [])));
    var v := Step(Step(w, Begin(o)), Reap(o));
    RunOne(v, Insert(o), [Call(o, Sent(m, c))] + ([Complete(o)] + []));
    v := Step(v, Insert(o));
    RunOne(v, Call(o, Sent(m, c)), [Complete(o)] + []);
    RunOne(Step(v, Call(o, Sent(m, c))), Complete(o), []);
  }

  /** Whatever has happened, and whoever has died: once the time to live has passed, an attempt that is
      not disturbed sends and records a message wherever none is recorded. */
  lemma NeverStuck(kind: Kind, ttl: nat, clock: int, acts: seq<Action>, o: Owner, m: string, c: string)
    requires var w := Run(Init(kind, ttl, clock), acts);
             && o !in w.procs && (w.row.Some? ==> !w.row.value.posted)
             && m != "" && m !in w.hist.ids
    ensures var w := Run(Init(kind, ttl, clock), acts);
            var v := Run(Step(w, Tick(ttl)), Delivery(o, m, c));
            && o in v.procs && v.procs[o] == Finished(Recorded)
            && v.row == Some(Row(o, w.clock + ttl, true, m, c))
            && v.hist.posts == w.hist.posts + [Post(o, m, w.clock + ttl)]
  {
    var w := Run(Init(kind, ttl, clock), acts);
    ExpiresInTime(kind, ttl, clock, acts);
    var u := Step(w, Tick(ttl));
    assert u == w.(clock := w.clock + ttl);
    DeliversAll(u, o, m, c);
  }

  lemma DeliversAll(w: World, o: Owner, m: string, c: string)
    requires o !in w.procs && m != "" && m !in w.hist.ids && (w.row.None? || Expired(w.row, w.ttl, w.clock))
    ensures var v := Run(w, Delivery(o, m, c));
            && o in v.procs && v.procs[o] == Finished(Recorded)
            && v.row == Some(Row(o, w.clock, true, m, c))
            && v.hist.posts == w.hist.posts + [Post(o, m, w.clock)]
  {
    RunDelivery(w, o, m, c);
    Delivers(w, o, m, c);
  }

  lemma ExpiresInTime(kind: Kind, ttl: nat, clock: int, acts: seq<Action>)
    ensures var w := Run(Init(kind, ttl, clock), acts);
            w.ttl == ttl && (w.row.Some? && !w.row.value.posted ==> Expired(w.row, ttl, w.clock + ttl))
  {
    RunKeeps(Init(kind, ttl, clock), acts);
    RunTtl(Init(kind, ttl, clock), acts);
    assert RowInv(Run(Init(kind, ttl, clock), acts));
  }

  lemma Delivers(w: World, o: Owner, m: string, c: string)
    requires o !in w.procs && m != "" && m !in w.hist.ids && (w.row.None? || Expired(w.row, w.ttl, w.clock))
    ensures var v := Step(Step(Claiming(w, o), Call(o, Sent(m, c))), Complete(o));
            && o in v.procs && v.procs[o] == Finished(Recorded)
            && v.row == Some(Row(o, w.clock, true, m, c))
            && v.hist.posts == w.hist.posts + [Post(o, m, w.clock)]
  {
    var v := Claiming(w, o);
    assert v.procs[o] == Won(w.clock) && v.row == Some(Row(o, w.clock, false, "", ""));
    v := Step(v, Call(o, Sent(m, c)));
    assert v.procs[o] == Posted(w.clock, m, c);
  }
}
