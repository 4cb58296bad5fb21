/** What holds of every run of the authorization snapshot (internal/authz/engine.go). */
module SnapshotRuns {
  import opened Snapshot
  import opened SnapshotInv

  /** However writers and other requests interleave, however torn its load and whatever label was
      stored over which: the memberships and the grants a request decides by were in the tables
      when it read the generation, or at some later moment. */
  lemma NoRevokedGrant(w: World, q: Request)
    requires Reachable(w) && q in w.requests && w.requests[q].Answered?
    ensures var pc := w.requests[q];
            && 0 < pc.n <= |w.history|
            && MembersSince(w, pc.n - 1, pc.snap.model.members)
            && GrantsSince(w, pc.n - 1, pc.snap.model.grants)
  {
    ReachableInv(w);
    assert PcInv(w, w.requests[q]);
  }

  /** A change of the store that had not been announced when generation g was reached. */
  ghost predicate Unannounced(w: World, g: nat, i: nat) {
    forall h :: 0 <= h <= g && h < |w.bumped| ==> w.bumped[h] < i
  }

  /** The tokens a request decides by are exactly those of the state in which its snapshot's loader
      read them, and that state is no older than the last bump the request saw. So of the changes
      made before it asked it sees those up to that state: every announced one, and beyond the
      announced ones those the loader found. What it misses are token changes, all unannounced
      when it asked. */
  lemma TokensSinceBump(w: World, q: Request)
    requires Reachable(w) && q in w.requests && w.requests[q].Answered?
    ensures var pc := w.requests[q];
            && pc.g < |w.bumped| && w.bumped[pc.g] < pc.n <= |w.history|
            && TokensAt(w, w.bumped[pc.g], pc.snap.tokensAt, pc.snap.model.tokens)
            && (forall i :: pc.snap.tokensAt < i < pc.n ==>
                  && Unannounced(w, pc.g, i)
                  && w.history[i].members == w.history[i - 1].members && w.history[i].grants == w.history[i - 1].grants)
  {
    ReachableInv(w);
    var pc := w.requests[q];
    assert PcInv(w, pc) && OnlyTokensMoved(w, w.bumped[pc.g], pc.n - 1);
  }

  /** At most one request of a replica loads at a time. */
  lemma OneLoader(w: World, q: Request, p: Request)
    requires Reachable(w) && q in w.requests && p in w.requests && HoldsLock(w.requests[q]) && HoldsLock(w.requests[p])
    ensures q == p
  {
    ReachableInv(w);
  }

  predicate Announces(a: Action) { a.Commit? || a.Bump? }

  /** Everyone who asked meanwhile has the snapshot of w, or is about to. */
  ghost predicate AllGet(w: World, v: World) {
    forall q :: q in v.requests ==>
      match v.requests[q]
      case Asked(g, _) => g == w.current.gen
      case Answered(_, _, snap) => snap == w.current
      case _ => false
  }

  /** A token change that is not yet bumped, or whose writer died before the bump, reaches no one:
      while nothing is bumped, everyone who asks gets the snapshot the engine already holds. */
  lemma {:induction false} UnannouncedIsUnseen(w: World, acts: seq<Action>)
    requires Sane(w) && w.current.gen == Generation(w) && w.requests == map[]
    requires forall i :: 0 <= i < |acts| ==> !Announces(acts[i])
    ensures var v := Run(w, acts); v.current == w.current && v.bumped == w.bumped && AllGet(w, v)
  {
    if acts != [] {
      UnannouncedIsUnseen(w, acts[..|acts| - 1]);
    }
  }

  // Exactly which requests see every token change.

  /** A request asks and compares; if the snapshot held does not do, it takes the lock, loads and publishes. */
  function AskNow(w: World, q: Request): World
    requires Sane(w)
  {
    Step(Step(w, Ask(q)), Compare(q))
  }

  function LoadNow(w: World, q: Request): World
    requires Sane(w)
  {
    var v := Step(Step(w, Lock(q)), CompareAgain(q));
    Step(Step(Step(Step(v, ReadMembers(q)), ReadGrants(q)), ReadTokens(q)), Publish(q))
  }

  /** No token change lies after the given state. */
  predicate NoneAfter(w: World, at: nat) {
    forall i :: at < i < |w.history| ==> w.history[i].tokens == w.history[i - 1].tokens
  }

  /** The snapshot's tokens are those of every state from the one it was loaded in until now. */
  predicate SeesAll(w: World, snap: Snap) {
    forall i :: snap.tokensAt <= i < |w.history| ==> w.history[i].tokens == snap.model.tokens
  }

  lemma {:induction false} SameUntil(w: World, at: nat, i: nat)
    requires NoneAfter(w, at) && at <= i < |w.history|
    ensures w.history[i].tokens == w.history[at].tokens
  {
    if at < i { SameUntil(w, at, i - 1); }
  }

  lemma {:induction false} SeesAllIff(w: World, snap: Snap)
    requires TokensAt(w, 0, snap.tokensAt, snap.model.tokens)
    ensures SeesAll(w, snap) <==> NoneAfter(w, snap.tokensAt)
  {
    if NoneAfter(w, snap.tokensAt) {
      forall i | snap.tokensAt <= i < |w.history|
        ensures w.history[i].tokens == snap.model.tokens
      {
        SameUntil(w, snap.tokensAt, i);
      }
    }
  }

  lemma {:induction false} Loads(w: World, q: Request)
    requires Sane(w) && q in w.requests && w.requests[q].Waiting? && w.lock.None? && w.current.gen != w.requests[q].g
    ensures var v := LoadNow(w, q);
            && q in v.requests && v.requests[q].Answered? && v.history == w.history
            && v.requests[q].snap == Snap(w.requests[q].g, Now(w), |w.history| - 1)
  {
    var g, n := w.requests[q].g, w.requests[q].n;
    var v := Step(Step(w, Lock(q)), CompareAgain(q));
    assert v.requests[q] == Loading(g, n) && v.history == w.history;
    v := Step(v, ReadMembers(q));
    v := Step(v, ReadGrants(q));
    assert v.requests[q] == HasGrants(g, n, Now(w).members, Now(w).grants) && v.history == w.history;
    v := Step(v, ReadTokens(q));
  }

  /** A request asked when no other is under way sees every token change so far if and only if the
      engine's snapshot is of another generation, or no token change lies after the state its tokens
      were read in. */
  lemma {:induction false} SeesEveryChangeIff(w: World, q: Request)
    requires Reachable(w) && Sane(w) && w.requests == map[]
    ensures var asked := AskNow(w, q);
            var v := if w.current.gen == Generation(w) then asked else LoadNow(asked, q);
            && q in v.requests && v.requests[q].Answered?
            && (SeesAll(w, v.requests[q].snap) <==> (w.current.gen == Generation(w) ==> NoneAfter(w, w.current.tokensAt)))
  {
    ReachableInv(w);
    var asked := AskNow(w, q);
    if w.current.gen == Generation(w) {
      SeesAllIff(w, w.current);
    } else {
      assert asked.requests[q] == Waiting(Generation(w), |w.history|) && asked.history == w.history;
      Loads(asked, q);
      SeesAllIff(w, Snap(Generation(w), Now(w), |w.history| - 1));
    }
  }

  // Witness: a token revoked before a request is still in that request's snapshot.

  lemma Extend(w: World, a: Action) returns (v: World)
    requires Reachable(w) && Sane(w)
    ensures v == Step(w, a) && Reachable(v) && Sane(v)
  {
    var acts: seq<Action> :| w == Run(Init(), acts);
    assert (acts + [a])[..|acts + [a]| - 1] == acts;
    v := Step(w, a);
    assert v == Run(Init(), acts + [a]);
  }

  const OneToken := Tables([], [], ["t"])

  lemma TokenAnnounced() returns (w: World)
    ensures Reachable(w) && w == World([Empty, OneToken], [0, 1], {}, Snap(0, Empty, 0), None, map[])
  {
    w := Init();
    assert w == Run(Init(), []);
    w := Extend(w, ChangeTokens(7, ["t"]));
    w := Extend(w, Bump(7));
  }

  lemma TokenLoading() returns (w: World)
    ensures Reachable(w)
    ensures w == World([Empty, OneToken], [0, 1], {}, Snap(0, Empty, 0), Some(1), map[1 := Loading(1, 2)])
  {
    w := TokenAnnounced();
    w := Extend(w, Ask(1));
    w := Extend(w, Compare(1));
    assert w.requests == map[1 := Waiting(1, 2)];
    w := Extend(w, Lock(1));
    w := Extend(w, CompareAgain(1));
    assert w.requests == map[1 := Loading(1, 2)];
  }

  lemma TokenHalfRead() returns (w: World)
    ensures Reachable(w)
    ensures w == World([Empty, OneToken], [0, 1], {}, Snap(0, Empty, 0), Some(1), map[1 := HasGrants(1, 2, [], [])])
  {
    w := TokenLoading();
    w := Extend(w, ReadMembers(1));
    assert w.requests == map[1 := HasMembers(1, 2, [])];
    w := Extend(w, ReadGrants(1));
  }

  lemma TokenRead() returns (w: World)
    ensures Reachable(w)
    ensures w == World([Empty, OneToken], [0, 1], {}, Snap(0, Empty, 0), Some(1), map[1 := HasModel(1, 2, OneToken, 1)])
  {
    w := TokenHalfRead();
    w := Extend(w, ReadTokens(1));
  }

  lemma TokenLoaded() returns (w: World)
    ensures Reachable(w)
    ensures w == World([Empty, OneToken], [0, 1], {}, Snap(1, OneToken, 1), None, map[1 := Answered(1, 2, Snap(1, OneToken, 1))])
  {
    w := TokenRead();
    w := Extend(w, Publish(1));
  }

  lemma TokenRevoked() returns (w: World)
    ensures Reachable(w)
    ensures w == World([Empty, OneToken, Empty], [0, 1], {8}, Snap(1, OneToken, 1), None, map[1 := Answered(1, 2, Snap(1, OneToken, 1))])
  {
    w := TokenLoaded();
    w := Extend(w, ChangeTokens(8, []));
  }

  /** DeleteAccessToken removes the row in one statement and bumps the generation in the next: a
      request that reads the generation in between decides by a snapshot that still has the token. */
  lemma RevokedTokenStillSeen() returns (w: World)
    ensures Reachable(w) && |w.history| == 3 && Now(w).tokens == [] && 2 in w.requests
    ensures w.requests[2] == Answered(1, 3, Snap(1, OneToken, 1))
    ensures Unannounced(w, 1, 2) && Now(w).tokens != OneToken.tokens
  {
    w := TokenRevoked();
    w := Extend(w, Ask(2));
    w := Extend(w, Compare(2));
  }
}
