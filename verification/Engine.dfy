/** One request's way through Engine.Authorizer (internal/authz/engine.go): it moves the shared
    world only by its own steps, with any number of other requests' and writers' steps in between. */
module Engine {
  import opened Snapshot
  import opened SnapshotInv
  import opened SnapshotRuns

  predicate By(a: Action, q: Request) {
    match a
    case Commit(_, _) => false
    case ChangeTokens(_, _) => false
    case Bump(_) => false
    case Die(_) => false
    case _ => a.q == q
  }

  /** What nobody else can do to a request: move it, or rewrite the store's history. */
  ghost predicate Around(u: World, v: World, q: Request) {
    && Extends(u, v)
    && (q in u.requests <==> q in v.requests)
    && (q in u.requests ==> v.requests[q] == u.requests[q])
  }

  lemma OthersGoAround(w: World, a: Action, q: Request)
    requires Sane(w) && !By(a, q)
    ensures Around(w, Step(w, a), q)
  {}

  lemma ReachableStep(w: World, a: Action)
    requires Reachable(w) && Sane(w)
    ensures Reachable(Step(w, a))
  {
    var v := Extend(w, a);
  }

  lemma LockHolder(w: World)
    requires Reachable(w) && w.lock.Some?
    ensures w.lock.value in w.requests && HoldsLock(w.requests[w.lock.value])
  {
    ReachableInv(w);
  }

  class Shared {
    var w: World

    ghost predicate Valid()
      reads this
    {
      Sane(w) && Reachable(w)
    }

    constructor ()
      ensures Valid() && w == Init()
    {
      w := Init();
      new;
      assert w == Run(Init(), []);
    }

    method Do(a: Action)
      requires Valid()
      modifies this
      ensures Valid() && w == Step(old(w), a) && Extends(old(w), w)
    {
      ReachableStep(w, a);
      w := Step(w, a);
    }

    /** Any number of steps of writers and of other requests. */
    method Others(me: Request)
      requires Valid()
      modifies this
      ensures Valid() && Around(old(w), w, me)
    {
      var acts: seq<Action> := *;
      for i := 0 to |acts|
        invariant Valid() && Around(old(w), w, me)
      {
        if !By(acts[i], me) {
          OthersGoAround(w, acts[i], me);
          Do(acts[i]);
        }
      }
    }

    /** mu.Lock: others go on until the lock is free; whoever still holds it gives up. */
    method Acquire(me: Request)
      requires Valid() && me in w.requests && w.requests[me].Waiting?
      modifies this
      ensures Valid() && Extends(old(w), w)
      ensures me in w.requests && w.requests[me] == Locked(old(w.requests[me]).g, old(w.requests[me]).n)
    {
      Others(me);
      if w.lock.Some? {
        LockHolder(w);
        Do(Fail(w.lock.value));
      }
      Do(Lock(me));
    }
  }

  /** Others act, then the request reads its next table. */
  method ReadNext(s: Shared, a: Action, q: Request)
    requires s.Valid() && q in s.w.requests && a in {ReadMembers(q), ReadGrants(q), ReadTokens(q)}
    modifies s
    ensures s.Valid() && Extends(old(s.w), s.w)
    ensures q in s.w.requests && ReadOneMore(old(s.w.requests[q]), a, s.w.requests[q])
  {
    s.Others(q);
    s.Do(a);
  }

  predicate ReadOneMore(before: Pc, a: Action, after: Pc) {
    && after.g == before.g && after.n == before.n
    && (a.ReadMembers? && before.Loading? ==> after.HasMembers?)
    && (a.ReadGrants? && before.HasMembers? ==> after.HasGrants? && after.members == before.members)
    && (a.ReadTokens? && before.HasGrants? ==>
          after.HasModel? && after.model.members == before.members && after.model.grants == before.grants)
  }

  /** The snapshot served is the engine's own, if that is of the generation asked for when it is first
      looked at, or when it is looked at again under the lock; else it is loaded, and becomes the engine's. */
  ghost predicate Looked(first: World, second: World, g: nat, q: Request, out: Snap, loaded: bool, w: World) {
    if first.current.gen == g then out == first.current && !loaded
    else
      && second.lock == Some(q)
      && if second.current.gen == g then out == second.current && !loaded else loaded && w.current == out
  }

  /** Engine.Authorizer. A store error leaves the request without an answer. */
  method Authorizer(s: Shared, q: Request, lucky: bool)
      returns (out: Option<Snap>, ghost asked: World, ghost first: World, ghost second: World, ghost loaded: bool)
    requires s.Valid() && q !in s.w.requests
    modifies s
    ensures s.Valid() && Sane(asked) && Extends(old(s.w), asked) && Extends(asked, s.w)
    ensures lucky ==> out.Some?
    ensures out.Some? ==> Serves(out.value, asked, s.w)
    ensures out.Some? ==> Extends(asked, first) && Extends(first, second) && Extends(second, s.w)
    ensures out.Some? ==> Looked(first, second, Generation(asked), q, out.value, loaded, s.w)
  {
    s.Others(q);
    asked, first, second, loaded := s.w, s.w, s.w, false;
    var well := true;
    if !lucky { well := *; }
    if !well { return None, asked, first, second, loaded; }
    s.Do(Ask(q));
    out, first, second, loaded := Answer(s, q, lucky);
    if out.Some? { GoodAnswer(s.w, q, asked); }
  }

  /** The rest of it: compare the generation read with the snapshot held, first without the lock and
      then with it, and load the model only when it differs. */
  method Answer(s: Shared, q: Request, lucky: bool)
      returns (out: Option<Snap>, ghost first: World, ghost second: World, ghost loaded: bool)
    requires s.Valid() && q in s.w.requests && s.w.requests[q].Asked?
    modifies s
    ensures s.Valid() && Extends(old(s.w), s.w)
    ensures lucky ==> out.Some?
    ensures out.Some? ==> AnsweredBy(old(s.w), s.w, q, out.value)
    ensures out.Some? ==> Extends(old(s.w), first) && Extends(first, second) && Extends(second, s.w)
    ensures out.Some? ==> Looked(first, second, old(s.w.requests[q]).g, q, out.value, loaded, s.w)
  {
    s.Others(q);
    first, second, loaded := s.w, s.w, false;
    var generation, current := s.w.requests[q].g, s.w.current;
    s.Do(Compare(q));
    if current.gen == generation { return Some(current), first, second, loaded; }
    s.Acquire(q);
    out, second, loaded := AnswerLocked(s, q, lucky);
  }

  ghost predicate AnsweredBy(u: World, v: World, q: Request, snap: Snap) {
    q in u.requests && q in v.requests && v.requests[q] == Answered(u.requests[q].g, u.requests[q].n, snap)
  }

  method AnswerLocked(s: Shared, q: Request, lucky: bool) returns (out: Option<Snap>, ghost second: World, ghost loaded: bool)
    requires s.Valid() && q in s.w.requests && s.w.requests[q].Locked?
    modifies s
    ensures s.Valid() && Extends(old(s.w), second) && Extends(second, s.w)
    ensures lucky ==> out.Some?
    ensures out.Some? ==> AnsweredBy(old(s.w), s.w, q, out.value)
    ensures out.Some? ==>
              && second.lock == Some(q)
              && if second.current.gen == old(s.w.requests[q]).g then out.value == second.current && !loaded
                 else loaded && s.w.current == out.value
  {
    s.Others(q);
    second, loaded := s.w, false;
    Holds(s.w, q);
    var generation, current := s.w.requests[q].g, s.w.current;
    s.Do(CompareAgain(q));
    if current.gen == generation { return Some(current), second, loaded; }
    out := Rebuild(s, q, lucky);
    loaded := true;
  }

  lemma Holds(w: World, q: Request)
    requires Reachable(w) && q in w.requests && HoldsLock(w.requests[q])
    ensures w.lock == Some(q)
  {
    ReachableInv(w);
  }

  /** Load the three tables one after the other, build, and swap the engine's snapshot. */
  method Rebuild(s: Shared, q: Request, lucky: bool) returns (out: Option<Snap>)
    requires s.Valid() && q in s.w.requests && s.w.requests[q].Loading?
    modifies s
    ensures s.Valid() && Extends(old(s.w), s.w)
    ensures lucky ==> out.Some?
    ensures out.Some? ==> AnsweredBy(old(s.w), s.w, q, out.value) && s.w.current == out.value
  {
    Load(s, q);
    s.Others(q);
    var well := true;
    if !lucky { well := *; }
    if !well { s.Do(Fail(q)); return None; }
    var next := Snap(s.w.requests[q].g, s.w.requests[q].model, s.w.requests[q].tokensAt);
    s.Do(Publish(q));
    out := Some(next);
  }

  /** authzSource.Load. */
  method Load(s: Shared, q: Request)
    requires s.Valid() && q in s.w.requests && s.w.requests[q].Loading?
    modifies s
    ensures s.Valid() && Extends(old(s.w), s.w)
    ensures q in s.w.requests && s.w.requests[q].HasModel?
    ensures s.w.requests[q].g == old(s.w.requests[q]).g && s.w.requests[q].n == old(s.w.requests[q]).n
  {
    ReadNext(s, ReadMembers(q), q);
    ReadNext(s, ReadGrants(q), q);
    ReadNext(s, ReadTokens(q), q);
  }

  /** A snapshot good for a request that read the generation in a given world: each membership and
      grant as the tables had it then or later, the tokens as of one state no older than the last bump before. */
  ghost predicate Serves(snap: Snap, asked: World, w: World)
    requires Sane(asked)
  {
    && snap.gen == Generation(asked)
    && MembersSince(w, |asked.history| - 1, snap.model.members)
    && GrantsSince(w, |asked.history| - 1, snap.model.grants)
    && TokensAt(w, asked.bumped[Generation(asked)], snap.tokensAt, snap.model.tokens)
  }

  lemma GoodAnswer(w: World, q: Request, asked: World)
    requires Reachable(w) && Sane(asked) && Extends(asked, w)
    requires q in w.requests && w.requests[q].Answered?
    requires w.requests[q].g == Generation(asked) && w.requests[q].n == |asked.history|
    ensures Serves(w.requests[q].snap, asked, w)
  {
    NoRevokedGrant(w, q);
    TokensSinceBump(w, q);
    ReachableInv(w);
    assert PcInv(w, w.requests[q]);
  }
}
