/** The authorization snapshot (internal/authz/engine.go, internal/httpserver/authorize.go): a
    request reads the store's generation, and takes the engine's snapshot if that carries this
    generation; else it loads the model, table by table, under the engine's lock.

    A World is the store's history, one replica's engine and its requests. Writers anywhere change
    the tables and the generation. An Action is one store statement or one engine step; a run is any
    sequence of actions. */
module Snapshot {
  type Rows = seq<string>
  type Request = nat
  type Writer = nat

  /** What authorization reads. */
  datatype Tables = Tables(members: Rows, grants: Rows, tokens: Rows)

  /** A built Authorizer: the generation it was built for, the model it was built from, and the state
      of the store in which its loader read the tokens. */
  datatype Snap = Snap(gen: nat, model: Tables, tokensAt: nat)

  datatype Option<T> = None | Some(value: T)

  /** Where a request stands in Engine.Authorizer. It read generation g when the store had n states
      behind it. */
  datatype Pc =
    | Asked(g: nat, n: nat)
    | Waiting(g: nat, n: nat)
    | Locked(g: nat, n: nat)
    | Loading(g: nat, n: nat)
    | HasMembers(g: nat, n: nat, members: Rows)
    | HasGrants(g: nat, n: nat, members: Rows, grants: Rows)
    | HasModel(g: nat, n: nat, model: Tables, tokensAt: nat)
    | Answered(g: nat, n: nat, snap: Snap)

  /** history: every state the three tables have been in, the last one being now. bumped: for each
      generation, the state in which it was reached. owing: writers between changing the tokens and
      bumping the generation. */
  datatype World = World(
    history: seq<Tables>, bumped: seq<nat>, owing: set<Writer>,
    current: Snap, lock: Option<Request>, requests: map<Request, Pc>)

  datatype Action =
    | Commit(members: Rows, grants: Rows)
    | ChangeTokens(x: Writer, tokens: Rows)
    | Bump(x: Writer)
    | Die(x: Writer)
    | Ask(q: Request)
    | Compare(q: Request)
    | Lock(q: Request)
    | CompareAgain(q: Request)
    | ReadMembers(q: Request)
    | ReadGrants(q: Request)
    | ReadTokens(q: Request)
    | Publish(q: Request)
    | Fail(q: Request)

  const Empty := Tables([], [], [])

  /** A new store is at generation zero with empty tables, as is a new engine's snapshot. */
  function Init(): World {
    World([Empty], [0], {}, Snap(0, Empty, 0), None, map[])
  }

  function Generation(w: World): nat
    requires w.bumped != []
  {
    |w.bumped| - 1
  }

  predicate Sane(w: World) {
    w.history != [] && w.bumped != []
  }

  function Now(w: World): Tables
    requires Sane(w)
  {
    w.history[|w.history| - 1]
  }

  function At(w: World, q: Request, pc: Pc): World { w.(requests := w.requests[q := pc]) }

  function Unlock(w: World, q: Request): World {
    if w.lock == Some(q) then w.(lock := None) else w
  }

  function Step(w: World, a: Action): World
    requires Sane(w)
  {
    match a
    case Commit(members, grants) =>
      w.(history := w.history + [Now(w).(members := members, grants := grants)], bumped := w.bumped + [|w.history|])
    case ChangeTokens(x, tokens) =>
      if x in w.owing then w
      else w.(history := w.history + [Now(w).(tokens := tokens)], owing := w.owing + {x})
    case Bump(x) =>
      if x in w.owing then w.(bumped := w.bumped + [|w.history| - 1], owing := w.owing - {x}) else w
    case Die(x) => w.(owing := w.owing - {x})
    case Ask(q) => if q in w.requests then w else At(w, q, Asked(Generation(w), |w.history|))
    case Fail(q) =>
      if q in w.requests && !w.requests[q].Answered? then Unlock(w, q).(requests := w.requests - {q}) else w
    case _ => if a.q in w.requests then Move(w, a, w.requests[a.q]) else w
  }

  function Move(w: World, a: Action, pc: Pc): World
    requires Sane(w)
    requires a.Compare? || a.Lock? || a.CompareAgain? || a.ReadMembers? || a.ReadGrants? || a.ReadTokens? || a.Publish?
  {
    match (a, pc)
    case (Compare(q), Asked(g, n)) =>
      At(w, q, if w.current.gen == g then Answered(g, n, w.current) else Waiting(g, n))
    case (Lock(q), Waiting(g, n)) => if w.lock.None? then At(w, q, Locked(g, n)).(lock := Some(q)) else w
    case (CompareAgain(q), Locked(g, n)) =>
      if w.current.gen == g then Unlock(At(w, q, Answered(g, n, w.current)), q) else At(w, q, Loading(g, n))
    case (ReadMembers(q), Loading(g, n)) => At(w, q, HasMembers(g, n, Now(w).members))
    case (ReadGrants(q), HasMembers(g, n, members)) => At(w, q, HasGrants(g, n, members, Now(w).grants))
    case (ReadTokens(q), HasGrants(g, n, members, grants)) =>
      At(w, q, HasModel(g, n, Tables(members, grants, Now(w).tokens), |w.history| - 1))
    case (Publish(q), HasModel(g, n, model, tokensAt)) =>
      var next := Snap(g, model, tokensAt);
      Unlock(At(w, q, Answered(g, n, next)), q).(current := next)
    case _ => w
  }

  function Run(w: World, acts: seq<Action>): (v: World)
    requires Sane(w)
    ensures Sane(v)
  {
    if acts == [] then w else Step(Run(w, acts[..|acts| - 1]), acts[|acts| - 1])
  }

  // The invariant.

  /** The members (grants) as the tables held them at some moment since the given one. */
  ghost predicate MembersSince(w: World, from: nat, members: Rows) {
    exists i :: from <= i < |w.history| && w.history[i].members == members
  }

  ghost predicate GrantsSince(w: World, from: nat, grants: Rows) {
    exists i :: from <= i < |w.history| && w.history[i].grants == grants
  }

  /** The tokens exactly as the tables held them in one state, no earlier than the given one. */
  ghost predicate TokensAt(w: World, from: nat, at: nat, tokens: Rows) {
    from <= at < |w.history| && w.history[at].tokens == tokens
  }

  /** A model whose three tables were each read at some moment since. */
  ghost predicate ModelSince(w: World, from: nat, model: Tables, tokensAt: nat) {
    MembersSince(w, from, model.members) && GrantsSince(w, from, model.grants) && TokensAt(w, from, tokensAt, model.tokens)
  }

  /** From one moment to another only the tokens changed. */
  ghost predicate OnlyTokensMoved(w: World, from: nat, to: nat) {
    forall i :: from <= i <= to && i < |w.history| && to < |w.history| ==>
      w.history[i].members == w.history[to].members && w.history[i].grants == w.history[to].grants
  }

  ghost predicate Asking(w: World, pc: Pc) {
    && pc.g < |w.bumped| && w.bumped[pc.g] < pc.n <= |w.history|
    && OnlyTokensMoved(w, w.bumped[pc.g], pc.n - 1)
  }

  ghost predicate PcInv(w: World, pc: Pc) {
    && Asking(w, pc)
    && (pc.HasMembers? || pc.HasGrants? ==> MembersSince(w, pc.n - 1, pc.members))
    && (pc.HasGrants? ==> GrantsSince(w, pc.n - 1, pc.grants))
    && (pc.HasModel? ==> ModelSince(w, pc.n - 1, pc.model, pc.tokensAt))
    && (pc.Answered? ==>
          && pc.snap.gen == pc.g
          && MembersSince(w, pc.n - 1, pc.snap.model.members)
          && GrantsSince(w, pc.n - 1, pc.snap.model.grants)
          && TokensAt(w, w.bumped[pc.g], pc.snap.tokensAt, pc.snap.model.tokens))
  }

  predicate HoldsLock(pc: Pc) { pc.Locked? || pc.Loading? || pc.HasMembers? || pc.HasGrants? || pc.HasModel? }

  ghost predicate LockInv(w: World) {
    && (forall q :: q in w.requests && HoldsLock(w.requests[q]) ==> w.lock == Some(q))
    && (w.lock.Some? ==> w.lock.value in w.requests && HoldsLock(w.requests[w.lock.value]))
  }

  ghost predicate StoreInv(w: World) {
    && Sane(w)
    && (forall g :: 0 <= g < |w.bumped| ==> w.bumped[g] < |w.history|)
    && (forall g, h :: 0 <= g <= h < |w.bumped| ==> w.bumped[g] <= w.bumped[h])
    && OnlyTokensMoved(w, w.bumped[|w.bumped| - 1], |w.history| - 1)
  }

  ghost predicate CurrentInv(w: World) {
    w.current.gen < |w.bumped| && ModelSince(w, w.bumped[w.current.gen], w.current.model, w.current.tokensAt)
  }

  ghost predicate PcsInv(w: World) { forall q :: q in w.requests ==> PcInv(w, w.requests[q]) }

  ghost predicate Inv(w: World) {
    StoreInv(w) && CurrentInv(w) && LockInv(w) && PcsInv(w)
  }

  /** The store only ever adds to its history. */
  ghost predicate Extends(w: World, v: World) {
    && |w.history| <= |v.history| && |w.bumped| <= |v.bumped|
    && (forall i :: 0 <= i < |w.history| ==> v.history[i] == w.history[i])
    && (forall i :: 0 <= i < |w.bumped| ==> v.bumped[i] == w.bumped[i])
  }

  ghost predicate Reachable(w: World) {
    exists acts: seq<Action> :: w == Run(Init(), acts)
  }
}
