/** Every action of every attempt keeps the claim protocol's invariant (internal/httpserver/webhooks.go). */
module ClaimsInv {
  import opened Claims

  lemma ReapKeeps(w: World, o: Owner, at: int)
    requires Core(w) && o in w.procs && w.procs[o] == Ready(at)
    ensures Core(ReapStep(w, o, at))
  {
    var v := ReapStep(w, o, at);
    assert PcInv(w, o, w.procs[o]);
    forall q | q in v.procs
      ensures PcInv(v, q, v.procs[q])
    {
      assert PcInv(w, q, w.procs[q]);
    }
    forall p | p in v.hist.posts
      ensures PostInv(v, p)
    {
      assert PostInv(w, p);
    }
  }

  lemma InsertKeeps(w: World, o: Owner, at: int)
    requires Core(w) && o in w.procs && w.procs[o] == Swept(at)
    ensures Core(InsertStep(w, o, at))
  {}

  lemma LookKeeps(w: World, o: Owner)
    requires Core(w) && o in w.procs && w.procs[o] == Conflicted
    ensures Core(LookStep(w, o))
  {
    var v := LookStep(w, o);
    assert RowInv(w) ==> RowInv(v);
    forall q | q in v.procs
      ensures PcInv(v, q, v.procs[q])
    {
      assert PcInv(w, q, w.procs[q]);
    }
    forall p | p in v.hist.posts
      ensures PostInv(v, p)
    {
      assert PostInv(w, p);
    }
  }

  lemma PostKeeps(w: World, o: Owner, at: int, reply: Reply)
    requires Core(w) && o in w.procs && w.procs[o] == Won(at)
    ensures Core(PostStep(w, o, at, reply))
  {
    var v := PostStep(w, o, at, reply);
    assert PcInv(w, o, w.procs[o]);
    forall q | q in v.procs
      ensures PcInv(v, q, v.procs[q])
    {
      assert q != o ==> PcInv(w, q, w.procs[q]);
    }
    forall p | p in v.hist.posts
      ensures PostInv(v, p)
    {
      assert p in w.hist.posts ==> PostInv(w, p);
    }
  }

  lemma SetPcKeeps(w: World, o: Owner, pc: Pc)
    requires Core(w) && o in w.procs && HasCard(w.procs[o])
    requires PcInv(w, o, pc) && (HasCard(pc) || pc.Finished?)
    ensures Core(At(w, o, pc))
  {
    forall p | p in w.hist.posts
      ensures PostInv(At(w, o, pc), p)
    {
      assert PostInv(w, p);
    }
  }

  /** The card after one more answer about it. */
  lemma AnswerKeeps(w: World, v: World, o: Owner, pc: Pc)
    requires Core(w) && o in w.procs && HasCard(w.procs[o])
    requires v == w.(hist := w.hist.(closed := v.hist.closed, blocked := v.hist.blocked, gone := v.hist.gone))
    requires w.hist.closed <= v.hist.closed && w.hist.blocked <= v.hist.blocked && w.hist.gone <= v.hist.gone
    requires PcInv(v, o, pc) && (HasCard(pc) || pc.Finished?)
    ensures Core(At(v, o, pc))
  {
    forall q | q in v.procs
      ensures PcInv(v, q, v.procs[q])
    {
      assert PcInv(w, q, w.procs[q]);
    }
    forall p | p in v.hist.posts
      ensures PostInv(v, p)
    {
      assert PostInv(w, p);
    }
    SetPcKeeps(v, o, pc);
  }

  lemma RefusedKeeps(w: World, o: Owner, card: Row, reply: Reply)
    requires Core(w) && o in w.procs && HasCard(w.procs[o]) && w.procs[o].card == card
    ensures Core(RefusedStep(w, o, card, reply))
  {
    var v := RefusedStep(w, o, card, reply);
    assert PcInv(w, o, w.procs[o]);
    AnswerKeeps(w, w.(hist := v.hist), o, v.procs[o]);
  }

  lemma EditKeeps(w: World, o: Owner, card: Row, reply: Reply)
    requires Core(w) && o in w.procs && w.procs[o] == Found(card)
    ensures Core(EditStep(w, o, card, reply))
  {
    assert PcInv(w, o, w.procs[o]);
    if reply.Sent? { SetPcKeeps(w, o, Edited(card)); } else { RefusedKeeps(w, o, card, reply); }
  }

  lemma CloseKeeps(w: World, o: Owner, card: Row, reply: Reply)
    requires Core(w) && o in w.procs && w.procs[o] == Closing(card)
    ensures Core(CloseStep(w, o, card, reply))
  {
    var v := CloseStep(w, o, card, reply);
    assert PcInv(w, o, w.procs[o]);
    if reply.Sent? || (w.kind == Chat && reply.Gone?) { AnswerKeeps(w, w.(hist := v.hist), o, v.procs[o]); }
    else { RefusedKeeps(w, o, card, reply); }
  }

  lemma RecordKeeps(w: World, o: Owner, at: int, m: string, c: string)
    requires Inv(w) && o in w.procs && w.procs[o] == Posted(at, m, c) && (w.kind == Channel ==> m != "")
    requires w.row.None? || (!w.row.value.posted && w.row.value.owner == o)
    ensures Core(CompleteStep(w, o, at, m, c))
  {
    var v := CompleteStep(w, o, at, m, c);
    assert PcInv(w, o, w.procs[o]);
    assert RowInv(v);
    forall q | q in v.procs
      ensures PcInv(v, q, v.procs[q])
    {
      assert q != o ==> PcInv(w, q, w.procs[q]);
    }
  }

  lemma CompleteKeeps(w: World, o: Owner, at: int, m: string, c: string)
    requires Inv(w) && o in w.procs && w.procs[o] == Posted(at, m, c)
    ensures Core(CompleteStep(w, o, at, m, c))
  {
    if w.kind == Channel && m == "" {
      assert CompleteStep(w, o, at, m, c) == At(w, o, Finished(Failed)).(hist := w.hist.(dead := w.hist.dead + {o}));
    } else if w.row.None? || (!w.row.value.posted && w.row.value.owner == o) {
      RecordKeeps(w, o, at, m, c);
    } else {
      LostKeeps(w, o, at, m, c);
    }
  }

  lemma LostKeeps(w: World, o: Owner, at: int, m: string, c: string)
    requires Core(w) && o in w.procs && w.procs[o] == Posted(at, m, c)
    requires w.row.Some? && (w.row.value.posted || w.row.value.owner != o)
    ensures Core(At(w, o, Finished(Lost)))
  {
    assert PcInv(w, o, w.procs[o]);
    assert o in w.hist.reaped || o in w.hist.swept;
    var v := At(w, o, Finished(Lost));
    forall p | p in v.hist.posts
      ensures PostInv(v, p)
    {
      assert PostInv(w, p);
    }
  }

  lemma ReleaseKeeps(w: World, o: Owner)
    requires Core(w) && o in w.procs && w.procs[o].Unsent?
    ensures Core(ReleaseStep(w, o))
  {}

  lemma RemovedKeeps(w: World)
    requires Core(w) && w.row.Some? && (w.kind == Channel ==> w.row.value.posted)
    ensures Core(Removed(w))
  {}

  lemma FinishKeeps(w: World, o: Owner, outcome: Outcome)
    requires Core(w) && o in w.procs && !w.procs[o].Posted?
    ensures Core(At(w, o, Finished(outcome)))
  {
    var v := At(w, o, Finished(outcome));
    forall q | q in v.procs
      ensures PcInv(v, q, v.procs[q])
    {
      assert q != o ==> PcInv(w, q, w.procs[q]);
    }
    forall p | p in v.hist.posts
      ensures PostInv(v, p)
    {
      assert PostInv(w, p);
    }
  }

  lemma CrashKeeps(w: World, o: Owner)
    requires Core(w) && o in w.procs
    ensures Core(Step(w, Crash(o)))
  {}

  lemma BeginKeeps(w: World, o: Owner)
    requires Core(w)
    ensures Core(Step(w, Begin(o)))
  {}

  lemma TickKeeps(w: World, d: nat)
    requires Core(w)
    ensures Core(Step(w, Tick(d)))
  {}

  lemma ForgetKeeps(w: World, o: Owner, card: Row, why: Reason, after: Outcome)
    requires Core(w) && o in w.procs && w.procs[o] == Doomed(card, why, after)
    ensures Core(ForgetStep(w, o, card, why, after))
  {
    if w.row.Some? && w.row.value.messageId == card.messageId {
      assert PcInv(w, o, w.procs[o]);
      RemovedKeeps(w);
      var v := Removed(w);
      FinishKeeps(v, o, after);
      ForgotAside(At(v, o, Finished(after)), v.hist.forgot[o := Removal(w.row.value, card, why)]);
    } else {
      FinishKeeps(w, o, after);
    }
  }

  /** What has been forgotten is of no concern to the row, the attempts and the posts. */
  lemma ForgotAside(w: World, forgot: map<Owner, Removal>)
    requires Core(w)
    ensures Core(w.(hist := w.hist.(forgot := forgot)))
  {
    var v := w.(hist := w.hist.(forgot := forgot));
    assert RowInv(w) ==> RowInv(v);
    forall o | o in v.procs
      ensures PcInv(v, o, v.procs[o])
    {
      assert PcInv(w, o, w.procs[o]);
    }
    forall p | p in v.hist.posts
      ensures PostInv(v, p)
    {
      assert PostInv(w, p);
    }
  }

  lemma ListKeeps(w: World, o: Owner)
    requires Core(w) && o !in w.procs
    ensures Core(ListStep(w, o))
  {
    var v := ListStep(w, o);
    forall q | q in v.procs
      ensures PcInv(v, q, v.procs[q])
    {
      assert q != o ==> PcInv(w, q, w.procs[q]);
    }
    forall p | p in v.hist.posts
      ensures PostInv(v, p)
    {
      assert PostInv(w, p);
    }
  }

  lemma AdvanceKeeps(w: World, a: Action)
    requires OfBegun(a)
    requires Inv(w) && a.o in w.procs
    ensures Core(Advance(w, a, w.procs[a.o]))
  {
    match (a, w.procs[a.o])
    case (Reap(o), Ready(at)) => ReapKeeps(w, o, at);
    case (Insert(o), Swept(at)) => InsertKeeps(w, o, at);
    case (Look(o), Conflicted) => LookKeeps(w, o);
    case (Call(o, reply), Won(at)) => PostKeeps(w, o, at, reply);
    case (Call(o, reply), Found(card)) => EditKeeps(w, o, card, reply);
    case (Call(o, reply), Closing(card)) => CloseKeeps(w, o, card, reply);
    case (Complete(o), Posted(at, m, c)) => CompleteKeeps(w, o, at, m, c);
    case (Release(o), Unsent(_)) => ReleaseKeeps(w, o);
    case (Restamp(o), Edited(_)) => FinishKeeps(w, o, Updated);
    case (Forget(o), Doomed(card, why, after)) => ForgetKeeps(w, o, card, why, after);
    case (Fail(o), pc) => if StillPreparing(pc) { FinishKeeps(w, o, Failed); }
    case _ =>
  }

  lemma CoreKeeps(w: World, a: Action)
    requires Inv(w)
    ensures Core(Step(w, a))
  {
    match a
    case Tick(d) => TickKeeps(w, d);
    case Unlink => if w.kind == Chat && w.row.Some? { RemovedKeeps(w); }
    case Begin(o) => BeginKeeps(w, o);
    case Crash(o) => if o in w.procs { CrashKeeps(w, o); }
    case List(o) => if o !in w.procs { ListKeeps(w, o); }
    case _ => if a.o in w.procs { AdvanceKeeps(w, a); }
  }

  // The records.

  /** A step that records, posts and forgets nothing, of an attempt that is not over. */
  ghost predicate LeavesRecords(w: World, v: World, o: Owner) {
    && v.kind == w.kind && v.hist.recorded == w.hist.recorded && v.hist.forgot == w.hist.forgot && v.hist.posts == w.hist.posts
    && w.hist.closed <= v.hist.closed && w.hist.blocked <= v.hist.blocked && w.hist.gone <= v.hist.gone
    && (o in w.procs ==> !w.procs[o].Finished?)
    && (forall q :: q in w.procs && q != o ==> q in v.procs && v.procs[q] == w.procs[q])
    && (v.row.Some? && v.row.value.posted ==> v.row == w.row)
  }

  lemma LeavesThem(w: World, v: World, o: Owner)
    requires Records(w) && LeavesRecords(w, v, o)
    ensures Records(v)
  {
    forall q | q in v.hist.forgot
      ensures ForgotInv(v, q, v.hist.forgot[q])
    {
      assert ForgotInv(w, q, w.hist.forgot[q]);
    }
  }

  lemma StepLeaves(w: World, a: Action)
    requires !a.Tick? && !a.Unlink? && (a.o in w.procs ==> !w.procs[a.o].Finished?)
    requires !a.Complete? && !a.Forget? && !(a.Call? && a.o in w.procs && w.procs[a.o].Won?)
    ensures LeavesRecords(w, Step(w, a), a.o)
  {
    if OfBegun(a) && a.o in w.procs { AdvanceLeaves(w, a); }
  }

  lemma AdvanceLeaves(w: World, a: Action)
    requires OfBegun(a) && a.o in w.procs && !w.procs[a.o].Finished?
    requires !a.Complete? && !a.Forget? && !(a.Call? && w.procs[a.o].Won?)
    ensures LeavesRecords(w, Advance(w, a, w.procs[a.o]), a.o)
  {}

  lemma PostRecords(w: World, o: Owner, at: int, reply: Reply)
    requires Inv(w) && o in w.procs && w.procs[o] == Won(at)
    ensures Records(PostStep(w, o, at, reply))
  {
    var v := PostStep(w, o, at, reply);
    forall i | 0 <= i < |w.hist.posts|
      ensures w.hist.posts[i].owner != o
    {
      assert PostInv(w, w.hist.posts[i]);
    }
    LeavesThem(w, v.(hist := v.hist.(posts := w.hist.posts)), o);
  }

  lemma CompleteRecords(w: World, o: Owner, at: int, m: string, c: string)
    requires Inv(w) && o in w.procs && w.procs[o] == Posted(at, m, c)
    ensures Records(CompleteStep(w, o, at, m, c))
  {
    var v := CompleteStep(w, o, at, m, c);
    if v.hist.recorded == w.hist.recorded {
      LeavesThem(w, v, o);
    } else {
      var u := v.(hist := v.hist.(recorded := w.hist.recorded), row := w.row);
      LeavesThem(w, u, o);
      MoreRecorded(u, v, o, m, c, at);
    }
  }

  lemma MoreRecorded(u: World, v: World, o: Owner, m: string, c: string, at: int)
    requires Records(u) && o in u.procs && u.procs[o].Finished?
    requires v == u.(row := Some(Row(o, at, true, m, c)), hist := u.hist.(recorded := u.hist.recorded[o := m]))
    ensures Records(v)
  {
    forall q | q in v.hist.forgot
      ensures ForgotInv(v, q, v.hist.forgot[q])
    {
      assert ForgotInv(u, q, u.hist.forgot[q]);
    }
  }

  lemma ForgetRecords(w: World, o: Owner, card: Row, why: Reason, after: Outcome)
    requires Inv(w) && o in w.procs && w.procs[o] == Doomed(card, why, after)
    ensures Records(ForgetStep(w, o, card, why, after))
  {
    var v := ForgetStep(w, o, card, why, after);
    assert PcInv(w, o, w.procs[o]) && RowInv(w);
    LeavesThem(w, v.(hist := v.hist.(forgot := w.hist.forgot)), o);
    if v.hist.forgot != w.hist.forgot { assert ForgotInv(v, o, Removal(w.row.value, card, why)); }
    forall q | q in v.hist.forgot
      ensures ForgotInv(v, q, v.hist.forgot[q])
    {
      assert q != o ==> ForgotInv(w, q, w.hist.forgot[q]);
    }
  }

  lemma RecordsKeep(w: World, a: Action)
    requires Inv(w)
    ensures Records(Step(w, a))
  {
    if a.Tick? || a.Unlink? {
      ClockRecords(w, a);
    } else if a.o in w.procs && w.procs[a.o].Finished? {
      assert Step(w, a) == w;
    } else if a.Complete? || a.Forget? || (a.Call? && a.o in w.procs && w.procs[a.o].Won?) {
      RecordingKeeps(w, a);
    } else {
      StepLeaves(w, a);
      LeavesThem(w, Step(w, a), a.o);
    }
  }

  lemma ClockRecords(w: World, a: Action)
    requires Records(w) && (a.Tick? || a.Unlink?)
    ensures Records(Step(w, a))
  {
    var v := Step(w, a);
    forall q | q in v.hist.forgot
      ensures ForgotInv(v, q, v.hist.forgot[q])
    {
      assert ForgotInv(w, q, w.hist.forgot[q]);
    }
  }

  lemma RecordingKeeps(w: World, a: Action)
    requires Inv(w) && (a.Complete? || a.Forget? || (a.Call? && a.o in w.procs && w.procs[a.o].Won?))
    ensures Records(Step(w, a))
  {
    if a.o in w.procs {
      match (a, w.procs[a.o])
      case (Complete(o), Posted(at, m, c)) => CompleteRecords(w, o, at, m, c);
      case (Forget(o), Doomed(card, why, after)) => ForgetRecords(w, o, card, why, after);
      case (Call(o, reply), Won(at)) => PostRecords(w, o, at, reply);
      case _ =>
    }
  }

  /** Every action keeps the invariant. */
  lemma StepKeeps(w: World, a: Action)
    requires Inv(w)
    ensures Inv(Step(w, a))
  {
    CoreKeeps(w, a);
    RecordsKeep(w, a);
  }

  lemma {:induction false} RunKeeps(w: World, acts: seq<Action>)
    requires Inv(w)
    ensures Inv(Run(w, acts))
  {
    if acts != [] {
      RunKeeps(w, acts[..|acts| - 1]);
      StepKeeps(Run(w, acts[..|acts| - 1]), acts[|acts| - 1]);
    }
  }
}
