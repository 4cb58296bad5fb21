/** Every action of every writer and request keeps the snapshot's invariant (internal/authz/engine.go). */
module SnapshotInv {
  import opened Snapshot

  lemma SinceSurvives(w: World, v: World, from: nat, model: Tables, at: nat)
    requires Extends(w, v)
    ensures MembersSince(w, from, model.members) ==> MembersSince(v, from, model.members)
    ensures GrantsSince(w, from, model.grants) ==> GrantsSince(v, from, model.grants)
    ensures TokensAt(w, from, at, model.tokens) ==> TokensAt(v, from, at, model.tokens)
  {
    if MembersSince(w, from, model.members) {
      var i :| from <= i < |w.history| && w.history[i].members == model.members;
      assert v.history[i].members == model.members;
    }
    if GrantsSince(w, from, model.grants) {
      var i :| from <= i < |w.history| && w.history[i].grants == model.grants;
      assert v.history[i].grants == model.grants;
    }
  }

  lemma PcSurvives(w: World, v: World, pc: Pc)
    requires PcInv(w, pc) && Extends(w, v)
    ensures PcInv(v, pc)
  {
    if pc.HasMembers? { SinceSurvives(w, v, pc.n - 1, Tables(pc.members, [], []), 0); }
    if pc.HasGrants? { SinceSurvives(w, v, pc.n - 1, Tables(pc.members, pc.grants, []), 0); }
    if pc.HasModel? { SinceSurvives(w, v, pc.n - 1, pc.model, pc.tokensAt); }
    if pc.Answered? {
      SinceSurvives(w, v, pc.n - 1, pc.snap.model, pc.snap.tokensAt);
      SinceSurvives(w, v, w.bumped[pc.g], pc.snap.model, pc.snap.tokensAt);
    }
  }

  lemma NowIsSince(w: World, from: nat)
    requires Sane(w) && from < |w.history|
    ensures ModelSince(w, from, Now(w), |w.history| - 1)
  {
    var i := |w.history| - 1;
    assert w.history[i] == Now(w);
  }

  /** A snapshot of this generation has every membership and grant the request could expect. */
  lemma CurrentWillDo(w: World, pc: Pc)
    requires CurrentInv(w) && Asking(w, pc) && w.current.gen == pc.g
    ensures PcInv(w, Answered(pc.g, pc.n, w.current))
  {
    var from := w.bumped[pc.g];
    var model := w.current.model;
    var i :| from <= i < |w.history| && w.history[i].members == model.members;
    assert i < pc.n - 1 ==> w.history[pc.n - 1].members == model.members;
    var j :| from <= j < |w.history| && w.history[j].grants == model.grants;
    assert j < pc.n - 1 ==> w.history[pc.n - 1].grants == model.grants;
  }

  /** What a request loads was read after it asked, so it serves as a snapshot of its generation,
      whatever has happened since. */
  lemma LoadedWillDo(w: World, pc: Pc)
    requires PcInv(w, pc) && pc.HasModel?
    ensures PcInv(w, Answered(pc.g, pc.n, Snap(pc.g, pc.model, pc.tokensAt)))
    ensures ModelSince(w, w.bumped[pc.g], pc.model, pc.tokensAt)
  {
    var from := w.bumped[pc.g];
    var i :| pc.n - 1 <= i < |w.history| && w.history[i].members == pc.model.members;
    var j :| pc.n - 1 <= j < |w.history| && w.history[j].grants == pc.model.grants;
    assert from <= i && from <= j;
  }

  /** A longer history, or other requests, leave every place and snapshot as good as it was. */
  lemma ExtendingKeeps(w: World, v: World)
    requires Extends(w, v)
    ensures w.current == v.current && CurrentInv(w) ==> CurrentInv(v)
    ensures forall pc :: PcInv(w, pc) ==> PcInv(v, pc)
  {
    if CurrentInv(w) { SinceSurvives(w, v, w.bumped[w.current.gen], w.current.model, w.current.tokensAt); }
    forall pc | PcInv(w, pc)
      ensures PcInv(v, pc)
    {
      PcSurvives(w, v, pc);
    }
  }

  lemma StoreStepKeeps(w: World, v: World)
    requires Inv(w) && Extends(w, v) && StoreInv(v)
    requires v.current == w.current && v.lock == w.lock && v.requests == w.requests
    ensures Inv(v)
  {
    ExtendingKeeps(w, v);
  }

  /** A request's own step changes neither the store nor the other requests. */
  lemma RequestStepKeeps(w: World, v: World, q: Request, pc: Pc)
    requires Inv(w) && v.history == w.history && v.bumped == w.bumped && v.requests == w.requests[q := pc]
    requires PcInv(w, pc) && LockInv(v)
    requires v.current == w.current || (v.current.gen < |w.bumped| && ModelSince(w, w.bumped[v.current.gen], v.current.model, v.current.tokensAt))
    ensures Inv(v)
  {
    ExtendingKeeps(w, v);
    if v.current != w.current { SinceSurvives(w, v, w.bumped[v.current.gen], v.current.model, v.current.tokensAt); }
  }

  lemma FailLock(w: World, q: Request)
    requires LockInv(w) && Sane(w)
    ensures LockInv(Step(w, Fail(q)))
  {}

  lemma FailKeeps(w: World, q: Request)
    requires Inv(w)
    ensures Inv(Step(w, Fail(q)))
  {
    FailLock(w, q);
    FewerKeep(w, Step(w, Fail(q)));
  }

  lemma FewerKeep(w: World, v: World)
    requires Inv(w) && v.history == w.history && v.bumped == w.bumped && v.current == w.current && LockInv(v)
    requires forall p :: p in v.requests ==> p in w.requests && v.requests[p] == w.requests[p]
    ensures Inv(v)
  {
    ExtendingKeeps(w, v);
  }

  lemma MoveLock(w: World, a: Action)
    requires a.Compare? || a.Lock? || a.CompareAgain? || a.ReadMembers? || a.ReadGrants? || a.ReadTokens? || a.Publish?
    requires LockInv(w) && Sane(w) && a.q in w.requests
    ensures LockInv(Move(w, a, w.requests[a.q]))
  {}

  /** The next place of a request is as good as its last one. */
  lemma MoveOwn(w: World, a: Action)
    requires a.Compare? || a.Lock? || a.CompareAgain? || a.ReadMembers? || a.ReadGrants? || a.ReadTokens? || a.Publish?
    requires Sane(w) && CurrentInv(w) && a.q in w.requests && PcInv(w, w.requests[a.q])
    ensures PcInv(w, Move(w, a, w.requests[a.q]).requests[a.q])
  {
    var pc := w.requests[a.q];
    NowIsSince(w, pc.n - 1);
    match a {
      case Compare(_) => if w.current.gen == pc.g { CurrentWillDo(w, pc); }
      case CompareAgain(_) => if w.current.gen == pc.g { CurrentWillDo(w, pc); }
      case Publish(_) => if pc.HasModel? { LoadedWillDo(w, pc); }
      case _ =>
    }
  }

  lemma MoveKeeps(w: World, a: Action)
    requires a.Compare? || a.Lock? || a.CompareAgain? || a.ReadMembers? || a.ReadGrants? || a.ReadTokens? || a.Publish?
    requires Inv(w) && a.q in w.requests
    ensures Inv(Move(w, a, w.requests[a.q]))
  {
    var pc := w.requests[a.q];
    MoveLock(w, a);
    MoveOwn(w, a);
    if a.Publish? && pc.HasModel? { LoadedWillDo(w, pc); }
    var v := Move(w, a, pc);
    if v != w { RequestStepKeeps(w, v, a.q, v.requests[a.q]); }
  }

  lemma StoreGrows(w: World, a: Action)
    requires StoreInv(w) && (a.Commit? || a.ChangeTokens? || a.Bump? || a.Die?)
    ensures StoreInv(Step(w, a)) && Extends(w, Step(w, a))
  {}

  lemma StoreMoves(w: World, a: Action)
    requires Inv(w) && (a.Commit? || a.ChangeTokens? || a.Bump? || a.Die?)
    ensures Inv(Step(w, a))
  {
    var v := Step(w, a);
    StoreGrows(w, a);
    StoreStepKeeps(w, v);
  }

  lemma AskKeeps(w: World, q: Request)
    requires Inv(w)
    ensures Inv(Step(w, Ask(q)))
  {
    if q !in w.requests { RequestStepKeeps(w, Step(w, Ask(q)), q, Asked(Generation(w), |w.history|)); }
  }

  lemma StepKeeps(w: World, a: Action)
    requires Inv(w)
    ensures Inv(Step(w, a))
  {
    match a
    case Commit(_, _) => StoreMoves(w, a);
    case ChangeTokens(_, _) => StoreMoves(w, a);
    case Bump(_) => StoreMoves(w, a);
    case Die(_) => StoreMoves(w, a);
    case Ask(q) => AskKeeps(w, q);
    case Fail(q) => FailKeeps(w, q);
    case _ => if a.q in w.requests { MoveKeeps(w, a); }
  }

  lemma {:induction false} RunKeeps(w: World, acts: seq<Action>)
    requires Inv(w)
    ensures Inv(Run(w, acts))
  {
    if acts != [] {
      RunKeeps(w, acts[..|acts| - 1]);
      StepKeeps(Run(w, acts[..|acts| - 1]), acts[|acts| - 1]);
    }
  }

  lemma InitInv()
    ensures Inv(Init())
  {
    NowIsSince(Init(), 0);
  }

  lemma ReachableInv(w: World)
    requires Reachable(w)
    ensures Inv(w)
  {
    var acts: seq<Action> :| w == Run(Init(), acts);
    InitInv();
    RunKeeps(Init(), acts);
  }
}
