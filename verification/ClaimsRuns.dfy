/** What holds of every run of the claim protocol (internal/httpserver/webhooks.go). */
module ClaimsRuns {
  import opened Claims
  import opened ClaimsInv

  // Every post is accounted for.

  /** However attempts interleave, race and die: every message that went out is recorded under its
      own id, or its claim was taken over no sooner than ttl after it was made, or it was removed
      under it (a chat only), or its attempt died or failed, or is about to record it. No attempt
      sends two, and the row that is there is the one recorded for its owner. */
  lemma EveryPostAccounted(kind: Kind, ttl: nat, clock: int, acts: seq<Action>)
    ensures var w := Run(Init(kind, ttl, clock), acts);
            && (forall p :: p in w.hist.posts ==> Accounted(w, p))
            && (kind == Channel ==> w.hist.swept == {})
            && (forall i, j :: 0 <= i < j < |w.hist.posts| ==> w.hist.posts[i].owner != w.hist.posts[j].owner)
            && (w.row.Some? && w.row.value.posted ==>
                  w.row.value.owner in w.hist.recorded && w.hist.recorded[w.row.value.owner] == w.row.value.messageId)
  {
    RunKeeps(Init(kind, ttl, clock), acts);
    RunKind(Init(kind, ttl, clock), acts);
  }

  lemma {:induction false} RunKind(w: World, acts: seq<Action>)
    ensures Run(w, acts).kind == w.kind && Run(w, acts).ttl == w.ttl
  {
    if acts != [] { RunKind(w, acts[..|acts| - 1]); }
  }

  /** ErrClaimLost tells the truth: it is reported exactly when the row is somebody else's,
      and then the claim had been taken over after ttl, or swept from a chat. */
  lemma LostMeansTakenOver(kind: Kind, ttl: nat, clock: int, acts: seq<Action>, o: Owner)
    requires var w := Run(Init(kind, ttl, clock), acts); o in w.procs && w.procs[o].Posted?
    ensures var w := Run(Init(kind, ttl, clock), acts);
            Step(w, Complete(o)).procs[o] == Finished(Lost) <==>
              w.row.Some? && w.row.value.owner != o && !(kind == Channel && w.procs[o].messageId == "")
    ensures var w := Run(Init(kind, ttl, clock), acts);
            Step(w, Complete(o)).procs[o] == Finished(Lost) ==>
              || (o in w.hist.reaped && w.hist.reaped[o] >= w.procs[o].at + ttl)
              || (kind == Chat && o in w.hist.swept)
  {
    RunKeeps(Init(kind, ttl, clock), acts);
    RunKind(Init(kind, ttl, clock), acts);
    var w := Run(Init(kind, ttl, clock), acts);
    assert PcInv(w, o, w.procs[o]);
  }

  // Without faults, one post per life of the row.

  /** No claim was taken over or removed under its owner, nothing died or failed. */
  predicate Faultless(w: World) {
    w.hist.reaped == map[] && w.hist.swept == {} && w.hist.dead == {}
  }

  /** The message that is out and not yet forgotten: recorded, or waiting to be. */
  function Outstanding(w: World): nat {
    if w.row.None? then 0
    else if w.row.value.posted then 1
    else if w.row.value.owner in w.procs && w.procs[w.row.value.owner].Posted? then 1
    else 0
  }

  ghost predicate CountInv(w: World) {
    Faultless(w) ==>
      && |w.hist.posts| == w.hist.removals + Outstanding(w)
      && (w.row.Some? && !w.row.value.posted ==> w.row.value.owner in w.procs && Holding(w.procs[w.row.value.owner]))
  }

  lemma FaultlessStep(w: World, a: Action)
    requires Faultless(Step(w, a))
    ensures Faultless(w)
  {
    assert forall o :: o in w.hist.reaped ==> o in Step(w, a).hist.reaped;
  }

  lemma StepCounts(w: World, a: Action)
    requires Inv(w) && CountInv(w)
    ensures CountInv(Step(w, a))
  {
    if Faultless(Step(w, a)) {
      FaultlessStep(w, a);
      if OfBegun(a) && a.o in w.procs { AdvanceCounts(w, a); }
    }
  }

  lemma AdvanceCounts(w: World, a: Action)
    requires Inv(w) && CountInv(w) && Faultless(w) && OfBegun(a) && a.o in w.procs
    ensures CountInv(Advance(w, a, w.procs[a.o]))
  {
    match (a, w.procs[a.o])
    case (Reap(o), Ready(at)) => ReapCounts(w, o, at);
    case (Insert(o), Swept(at)) => InsertCounts(w, o, at);
    case (Look(o), Conflicted) => LookCounts(w, o);
    case (Call(o, reply), Won(at)) => PostCounts(w, o, at, reply);
    case (Call(o, reply), Found(card)) => AnswerCounts(w, o, card, reply);
    case (Call(o, reply), Closing(card)) => AnswerCounts(w, o, card, reply);
    case (Complete(o), Posted(at, m, c)) => CompleteCounts(w, o, at, m, c);
    case (Release(o), Unsent(_)) => ReleaseCounts(w, o);
    case (Restamp(o), Edited(_)) => EndCounts(w, o, Updated);
    case (Forget(o), Doomed(card, why, after)) => ForgetCounts(w, o, card, why, after);
    case (Fail(o), pc) => if StillPreparing(pc) { EndCounts(w, o, Failed); }
    case _ =>
  }

  lemma ReapCounts(w: World, o: Owner, at: int)
    requires CountInv(w) && Faultless(w) && o in w.procs && w.procs[o] == Ready(at)
    ensures CountInv(ReapStep(w, o, at))
  {
    var v := ReapStep(w, o, at);
    assert v.row == w.row || w.row.value.owner in v.hist.reaped;
  }

  lemma InsertCounts(w: World, o: Owner, at: int)
    requires CountInv(w) && Faultless(w) && o in w.procs && w.procs[o] == Swept(at)
    ensures CountInv(InsertStep(w, o, at))
  {}

  lemma LookCounts(w: World, o: Owner)
    requires CountInv(w) && Faultless(w) && o in w.procs && w.procs[o].Conflicted?
    ensures CountInv(LookStep(w, o))
  {
    QuietCounts(w, LookStep(w, o), o);
  }

  lemma AnswerCounts(w: World, o: Owner, card: Row, reply: Reply)
    requires CountInv(w) && Faultless(w) && o in w.procs && HasCard(w.procs[o])
    ensures CountInv(EditStep(w, o, card, reply)) && CountInv(CloseStep(w, o, card, reply))
  {
    QuietCounts(w, EditStep(w, o, card, reply), o);
    QuietCounts(w, CloseStep(w, o, card, reply), o);
  }

  lemma EndCounts(w: World, o: Owner, outcome: Outcome)
    requires CountInv(w) && Faultless(w) && o in w.procs && HasCard(w.procs[o])
    ensures CountInv(At(w, o, Finished(outcome)))
  {
    QuietCounts(w, At(w, o, Finished(outcome)), o);
  }

  /** A step of an attempt that holds no claim, and touches neither row nor posts. */
  lemma QuietCounts(w: World, v: World, o: Owner)
    requires CountInv(w) && Faultless(w) && o in w.procs && !Holding(w.procs[o])
    requires v.row == w.row && v.hist.posts == w.hist.posts && v.hist.removals == w.hist.removals
    requires forall q :: q in w.procs && q != o ==> q in v.procs && v.procs[q] == w.procs[q]
    requires o in v.procs && !Holding(v.procs[o])
    ensures CountInv(v)
  {}

  lemma CompleteCounts(w: World, o: Owner, at: int, m: string, c: string)
    requires Inv(w) && CountInv(w) && Faultless(w) && o in w.procs && w.procs[o] == Posted(at, m, c)
    ensures CountInv(CompleteStep(w, o, at, m, c))
  {
    assert PcInv(w, o, w.procs[o]);
  }

  lemma PostCounts(w: World, o: Owner, at: int, reply: Reply)
    requires Inv(w) && CountInv(w) && Faultless(w) && o in w.procs && w.procs[o] == Won(at)
    ensures CountInv(PostStep(w, o, at, reply))
  {
    assert PcInv(w, o, w.procs[o]);
  }

  lemma ReleaseCounts(w: World, o: Owner)
    requires Inv(w) && CountInv(w) && Faultless(w) && o in w.procs && w.procs[o].Unsent?
    ensures CountInv(ReleaseStep(w, o))
  {
    assert PcInv(w, o, w.procs[o]);
  }

  lemma ForgetCounts(w: World, o: Owner, card: Row, why: Reason, after: Outcome)
    requires CountInv(w) && Faultless(w) && o in w.procs && w.procs[o].Doomed?
    ensures CountInv(ForgetStep(w, o, card, why, after))
  {}

  lemma {:induction false} RunCounts(w: World, acts: seq<Action>)
    requires Inv(w) && CountInv(w)
    ensures CountInv(Run(w, acts))
  {
    if acts != [] {
      RunCounts(w, acts[..|acts| - 1]);
      RunKeeps(w, acts[..|acts| - 1]);
      StepCounts(Run(w, acts[..|acts| - 1]), acts[|acts| - 1]);
    }
  }

  /** Without takeover, crash or store failure, the posts are the removals plus the one message
      still out. So between two moments at which the row is gone there were exactly as many posts
      as removals: one for each life of the row. */
  lemma OnePostPerLife(kind: Kind, ttl: nat, clock: int, before: seq<Action>, between: seq<Action>)
    requires Faultless(Run(Init(kind, ttl, clock), before + between))
    ensures var w := Run(Init(kind, ttl, clock), before + between);
            |w.hist.posts| == w.hist.removals + Outstanding(w)
    ensures var u := Run(Init(kind, ttl, clock), before);
            var w := Run(Init(kind, ttl, clock), before + between);
            u.row.None? && w.row.None? ==> |w.hist.posts| - |u.hist.posts| == w.hist.removals - u.hist.removals
  {
    var init := Init(kind, ttl, clock);
    RunCounts(init, before);
    RunCounts(init, before + between);
    RunConcat(init, before, between);
    FaultlessBefore(Run(init, before), between);
  }

  lemma {:induction false} FaultlessBefore(w: World, acts: seq<Action>)
    requires Faultless(Run(w, acts))
    ensures Faultless(w)
  {
    if acts != [] {
      FaultlessStep(Run(w, acts[..|acts| - 1]), acts[|acts| - 1]);
      FaultlessBefore(w, acts[..|acts| - 1]);
    }
  }

  // Once recorded, never sent again.

  /** v has the posts of w, and beyond them only posts of attempts that had won their claim in w. */
  ghost predicate OnlyOldClaimsSend(w: World, v: World) {
    && (forall o :: o in v.procs && v.procs[o].Won? ==> o in w.procs && w.procs[o].Won?)
    && w.hist.posts <= v.hist.posts
    && (forall i :: |w.hist.posts| <= i < |v.hist.posts| ==>
          v.hist.posts[i].owner in w.procs && w.procs[v.hist.posts[i].owner].Won?)
  }

  /** From a recorded message on, and until it is removed, only attempts that had already won a
      claim before can send: no number of later open events sends a second copy. This holds for
      an empty message id too. */
  lemma {:induction false} NoSecondCopy(w: World, acts: seq<Action>)
    requires w.row.Some? && w.row.value.posted
    requires Run(w, acts).hist.removals == w.hist.removals
    ensures Run(w, acts).row == w.row
    ensures OnlyOldClaimsSend(w, Run(w, acts))
  {
    if acts != [] {
      RemovalsGrow(w, acts[..|acts| - 1]);
      RemovalsStep(Run(w, acts[..|acts| - 1]), acts[|acts| - 1]);
      NoSecondCopy(w, acts[..|acts| - 1]);
      RecordedStep(w, Run(w, acts[..|acts| - 1]), acts[|acts| - 1]);
    }
  }

  /** If no claim was ever taken over or swept, nothing at all is sent from then on until the removal. */
  lemma NoCopyAtAll(kind: Kind, ttl: nat, clock: int, acts: seq<Action>, more: seq<Action>)
    requires var w := Run(Init(kind, ttl, clock), acts);
             && w.row.Some? && w.row.value.posted && w.hist.reaped == map[] && w.hist.swept == {}
             && Run(w, more).hist.removals == w.hist.removals
    ensures var w := Run(Init(kind, ttl, clock), acts);
            Run(w, more).hist.posts == w.hist.posts && Run(w, more).row == w.row
  {
    var w := Run(Init(kind, ttl, clock), acts);
    RunKeeps(Init(kind, ttl, clock), acts);
    NoSecondCopy(w, more);
    NobodyWon(w);
    NoNewPosts(w, Run(w, more));
  }

  lemma NobodyWon(w: World)
    requires Inv(w) && w.row.Some? && w.row.value.posted && w.hist.reaped == map[] && w.hist.swept == {}
    ensures forall o :: o in w.procs ==> !w.procs[o].Won?
  {
    forall o | o in w.procs
      ensures !w.procs[o].Won?
    {
      assert PcInv(w, o, w.procs[o]);
    }
  }

  lemma NoNewPosts(w: World, v: World)
    requires OnlyOldClaimsSend(w, v) && forall o :: o in w.procs ==> !w.procs[o].Won?
    ensures v.hist.posts == w.hist.posts
  {
    if |v.hist.posts| > |w.hist.posts| { SomebodyHadWon(w, v); }
  }

  lemma SomebodyHadWon(w: World, v: World)
    requires OnlyOldClaimsSend(w, v) && |v.hist.posts| > |w.hist.posts|
    ensures exists o :: o in w.procs && w.procs[o].Won?
  {
    assert w.procs[v.hist.posts[|w.hist.posts|].owner].Won?;
  }

  lemma RecordedStep(w: World, u: World, a: Action)
    requires u.row.Some? && u.row.value.posted && Step(u, a).hist.removals == u.hist.removals
    requires OnlyOldClaimsSend(w, u)
    ensures Step(u, a).row == u.row && OnlyOldClaimsSend(w, Step(u, a))
  {
    RecordedRow(u, a);
    RecordedPosts(u, a);
    StillOld(w, u, Step(u, a));
  }

  lemma StillOld(w: World, u: World, v: World)
    requires OnlyOldClaimsSend(w, u)
    requires forall o :: o in v.procs && v.procs[o].Won? ==> o in u.procs && u.procs[o].Won?
    requires u.hist.posts <= v.hist.posts && |v.hist.posts| <= |u.hist.posts| + 1
    requires |v.hist.posts| > |u.hist.posts| ==>
               var o := v.hist.posts[|u.hist.posts|].owner; o in u.procs && u.procs[o].Won?
    ensures OnlyOldClaimsSend(w, v)
  {
    forall i | |w.hist.posts| <= i < |v.hist.posts|
      ensures v.hist.posts[i].owner in w.procs && w.procs[v.hist.posts[i].owner].Won?
    {
      assert i < |u.hist.posts| ==> v.hist.posts[i] == u.hist.posts[i];
    }
  }

  lemma RecordedRow(u: World, a: Action)
    requires u.row.Some? && u.row.value.posted && Step(u, a).hist.removals == u.hist.removals
    ensures Step(u, a).row == u.row
  {}

  /** Only an attempt that has won its claim posts, and only a free row can be claimed. */
  lemma RecordedPosts(u: World, a: Action)
    requires u.row.Some? && u.row.value.posted
    ensures var v := Step(u, a);
            && (forall o :: o in v.procs && v.procs[o].Won? ==> o in u.procs && u.procs[o].Won?)
            && u.hist.posts <= v.hist.posts && |v.hist.posts| <= |u.hist.posts| + 1
            && (|v.hist.posts| > |u.hist.posts| ==>
                  var o := v.hist.posts[|u.hist.posts|].owner; o in u.procs && u.procs[o].Won?)
  {}

  lemma RemovalsStep(w: World, a: Action)
    ensures Step(w, a).hist.removals >= w.hist.removals
  {}

  lemma {:induction false} RemovalsGrow(w: World, acts: seq<Action>)
    ensures Run(w, acts).hist.removals >= w.hist.removals
  {
    if acts != [] {
      RemovalsGrow(w, acts[..|acts| - 1]);
      RemovalsStep(Run(w, acts[..|acts| - 1]), acts[|acts| - 1]);
    }
  }

  // What a close may remove.

  /** In any reachable world, a card leaves the table only by an unlinked recipient, or by an
      attempt that names that very message id and has a reason: Teams took the edit or the answer
      that closes it, nothing can edit it, its recipient was not found, or its chat refused for good.
      With a non-empty id the row removed is the one the attempt read, so a newer card survives. */
  lemma RemovalIsJustified(kind: Kind, ttl: nat, clock: int, acts: seq<Action>, a: Action)
    requires var w := Run(Init(kind, ttl, clock), acts);
             w.row.Some? && w.row.value.posted && Step(w, a).row != w.row
    ensures var w := Run(Init(kind, ttl, clock), acts);
            || (a.Unlink? && kind == Chat)
            || (&& a.Forget? && a.o in w.procs && w.procs[a.o].Doomed?
                && w.row.value.messageId == w.procs[a.o].card.messageId
                && Justified(w, w.procs[a.o].card, w.procs[a.o].why)
                && (w.row.value.messageId != "" ==> w.row.value.owner == w.procs[a.o].card.owner)
                && Step(w, a).hist.forgot == w.hist.forgot[a.o := Removal(w.row.value, w.procs[a.o].card, w.procs[a.o].why)])
  {
    RunKeeps(Init(kind, ttl, clock), acts);
    RunKind(Init(kind, ttl, clock), acts);
    var w := Run(Init(kind, ttl, clock), acts);
    if !a.Forget? && !(a.Unlink? && w.kind == Chat) { OnlyForgetRemoves(w, a); }
    if a.Forget? { ForgetRemoves(w, a.o); }
  }

  lemma OnlyForgetRemoves(w: World, a: Action)
    requires w.row.Some? && w.row.value.posted && !a.Forget? && !(a.Unlink? && w.kind == Chat)
    ensures Step(w, a).row == w.row
  {}

  lemma ForgetRemoves(w: World, o: Owner)
    requires Inv(w) && w.row.Some? && w.row.value.posted && Step(w, Forget(o)).row != w.row
    ensures o in w.procs && w.procs[o].Doomed?
    ensures w.row.value.messageId == w.procs[o].card.messageId && Justified(w, w.procs[o].card, w.procs[o].why)
    ensures w.row.value.messageId != "" ==> w.row.value.owner == w.procs[o].card.owner
    ensures Step(w, Forget(o)).hist.forgot == w.hist.forgot[o := Removal(w.row.value, w.procs[o].card, w.procs[o].why)]
  {
    assert RowInv(w) && PcInv(w, o, w.procs[o]);
  }

  /** A claim in flight survives an attempt that forgets a card exactly when that card has a
      message id. Every channel card has one. A chat message recorded without one does not protect the
      next claim. And no claim survives its recipient's being unlinked. */
  lemma InFlightSurvivesForget(kind: Kind, ttl: nat, clock: int, acts: seq<Action>, o: Owner)
    requires var w := Run(Init(kind, ttl, clock), acts);
             w.row.Some? && !w.row.value.posted && o in w.procs && w.procs[o].Doomed?
    ensures var w := Run(Init(kind, ttl, clock), acts);
            && (Step(w, Forget(o)).row == w.row <==> w.procs[o].card.messageId != "")
            && (kind == Channel ==> w.procs[o].card.messageId != "")
            && Step(w, Unlink).row == if kind == Chat then None else w.row
  {
    RunKeeps(Init(kind, ttl, clock), acts);
    RunKind(Init(kind, ttl, clock), acts);
    var w := Run(Init(kind, ttl, clock), acts);
    assert PcInv(w, o, w.procs[o]);
  }

  // A close that fails.

  /** No further action of the attempt changes anything. */
  ghost predicate ActsNoMore(w: World, acts: seq<Action>, o: Owner) {
    forall i :: 0 <= i < |acts| && By(acts[i], o) ==> Run(w, acts[..i + 1]) == Run(w, acts[..i])
  }

  lemma FinishedStep(w: World, a: Action, o: Owner)
    requires o in w.procs && w.procs[o].Finished?
    ensures o in Step(w, a).procs && Step(w, a).procs[o] == w.procs[o]
    ensures By(a, o) ==> Step(w, a) == w
    ensures o in Step(w, a).hist.forgot <==> o in w.hist.forgot
    ensures o in w.hist.forgot ==> Step(w, a).hist.forgot[o] == w.hist.forgot[o]
  {}

  /** An attempt that is over stays so, and nothing it might still do touches the row. */
  lemma {:induction false} FinishedIsFinal(w: World, acts: seq<Action>, o: Owner)
    requires o in w.procs && w.procs[o].Finished?
    ensures o in Run(w, acts).procs && Run(w, acts).procs[o] == w.procs[o]
    ensures ActsNoMore(w, acts, o)
    ensures o in Run(w, acts).hist.forgot <==> o in w.hist.forgot
    ensures o in w.hist.forgot ==> Run(w, acts).hist.forgot[o] == w.hist.forgot[o]
  {
    if acts != [] {
      var n := |acts| - 1;
      FinishedIsFinal(w, acts[..n], o);
      FinishedStep(Run(w, acts[..n]), acts[n], o);
      forall i | 0 <= i < |acts| && By(acts[i], o)
        ensures Run(w, acts[..i + 1]) == Run(w, acts[..i])
      {
        if i == n { assert acts[..n + 1] == acts; }
        else { assert acts[..n][..i + 1] == acts[..i + 1] && acts[..n][..i] == acts[..i]; }
      }
    }
  }

  /** However its run goes on: an attempt that reported a claim in flight never removes a row, and
      one that reported a failure has removed one only for a chat that refused for good. */
  lemma FailureKeepsRow(kind: Kind, ttl: nat, clock: int, acts: seq<Action>, more: seq<Action>, o: Owner)
    requires var w := Run(Init(kind, ttl, clock), acts);
             o in w.procs && (w.procs[o] == Finished(InFlight) || w.procs[o] == Finished(Failed))
    ensures var w := Run(Init(kind, ttl, clock), acts);
            var v := Run(w, more);
            && o in v.procs && v.procs[o] == w.procs[o] && ActsNoMore(w, more, o)
            && (o in v.hist.forgot ==>
                  && v.procs[o].outcome == Failed && v.kind == Chat && v.hist.forgot[o].why == BlockedChat
                  && v.hist.forgot[o].card in v.hist.blocked && v.hist.forgot[o].row.messageId == v.hist.forgot[o].card.messageId)
  {
    var w := Run(Init(kind, ttl, clock), acts);
    FinishedIsFinal(w, more, o);
    RunKeeps(Init(kind, ttl, clock), acts);
    RunKeeps(w, more);
    var v := Run(w, more);
    if o in v.hist.forgot { assert ForgotInv(v, o, v.hist.forgot[o]); }
  }

  /** A close ends in failure over an answer that is no acceptance, or before it has anything to send. */
  predicate FailsClose(w: World, a: Action) {
    || (a.Fail? && a.o in w.procs && StillPreparing(w.procs[a.o]))
    || (a.Call? && a.o in w.procs && w.procs[a.o].Closing? && !a.reply.Sent? && (a.reply.Refused? || w.kind == Channel))
  }

  /** A close that fails, or lists a claim in flight, changes no row then, and in no continuation
      does it remove one. */
  lemma FailedCloseRemovesNothing(kind: Kind, ttl: nat, clock: int, acts: seq<Action>, a: Action, more: seq<Action>)
    requires var w := Run(Init(kind, ttl, clock), acts);
             FailsClose(w, a) || (a.List? && a.o !in w.procs && w.row.Some? && !w.row.value.posted)
    ensures var w := Run(Init(kind, ttl, clock), acts);
            var u := Step(w, a);
            var v := Run(u, more);
            && u.row == w.row && ActsNoMore(u, more, a.o) && a.o !in v.hist.forgot
            && a.o in v.procs && v.procs[a.o] == Finished(if a.List? then InFlight else Failed)
  {
    var w := Run(Init(kind, ttl, clock), acts);
    RunKeeps(Init(kind, ttl, clock), acts);
    assert a.o in w.hist.forgot ==> ForgotInv(w, a.o, w.hist.forgot[a.o]);
    FinishedIsFinal(Step(w, a), more, a.o);
  }

  /** Every row an attempt ever deleted as a card was deleted for a reason that had come true, under
      the message id it meant, and the attempt reported what that reason calls for. */
  lemma EveryRemovalJustified(kind: Kind, ttl: nat, clock: int, acts: seq<Action>, o: Owner)
    requires o in Run(Init(kind, ttl, clock), acts).hist.forgot
    ensures var w := Run(Init(kind, ttl, clock), acts);
            var f := w.hist.forgot[o];
            && Justified(w, f.card, f.why) && f.row.messageId == f.card.messageId
            && (f.row.messageId != "" ==> f.row.posted && f.row.owner == f.card.owner)
            && o in w.procs && w.procs[o].Finished? && Ends(f.why, w.procs[o].outcome)
  {
    RunKeeps(Init(kind, ttl, clock), acts);
    var w := Run(Init(kind, ttl, clock), acts);
    assert ForgotInv(w, o, w.hist.forgot[o]);
  }
}
