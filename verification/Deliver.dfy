/** The delivery and close paths over the claim protocol: deliverToChannel, sendToChat,
    closeChannelCards and closeChatMessages (internal/httpserver/webhooks.go). Each method
    changes the shared world only through its own attempt's actions, with any number of
    other attempts' actions in between. */
module Deliver {
  import opened Claims
  import ClaimsInv
  import ClaimsTakeover

  /** Nobody moves an attempt but itself. */
  lemma OthersKeepPc(w: World, a: Action, o: Owner)
    requires !By(a, o)
    ensures SameFor(w, Step(w, a), o)
  {
    if OfBegun(a) && a.o in w.procs { OthersAdvance(w, a, o); }
  }

  lemma OthersAdvance(w: World, a: Action, o: Owner)
    requires OfBegun(a) && a.o in w.procs && a.o != o
    ensures SameFor(w, Advance(w, a, w.procs[a.o]), o)
  {
    if a.Call? { OthersCall(w, a, o); }
    else if a.Forget? && w.procs[a.o].Doomed? { OthersForget(w, a.o, w.procs[a.o], o); }
    else { OthersStore(w, a, o); }
  }

  lemma OthersCall(w: World, a: Action, o: Owner)
    requires a.Call? && a.o in w.procs && a.o != o
    ensures SameFor(w, Advance(w, a, w.procs[a.o]), o)
  {}

  lemma OthersForget(w: World, q: Owner, pc: Pc, o: Owner)
    requires pc.Doomed? && q in w.procs && q != o
    ensures SameFor(w, ForgetStep(w, q, pc.card, pc.why, pc.after), o)
  {}

  lemma OthersStore(w: World, a: Action, o: Owner)
    requires OfBegun(a) && !a.Call? && a.o in w.procs && a.o != o && !(a.Forget? && w.procs[a.o].Doomed?)
    ensures SameFor(w, Advance(w, a, w.procs[a.o]), o)
  {}

  datatype Answer = Accepts | Blocks | Refuses | Missing

  /** What one attempt meets: how Teams answers its post and its edit, whether the store serves it, and
      whether a close finds a delivery for the card, and renders its message. */
  datatype Luck = Luck(post: Answer, edit: Answer, store: bool, finds: bool, renders: bool)

  /** A close has nothing to send: no delivery is found, or the message cannot be rendered; but a chat's
      recipient is looked up in between, and one who is gone needs no message. */
  predicate NothingToSend(kind: Kind, luck: Luck) {
    !luck.finds || (!luck.renders && !(kind == Chat && luck.edit == Missing))
  }

  /** One target's row in the shared store, with everyone working on it. */
  class Target {
    var w: World
    ghost var trace: seq<Action>
    const kind: Kind
    const ttl: nat
    ghost const startedAt: int

    ghost predicate Valid()
      reads this
    {
      w == Run(Init(kind, ttl, startedAt), trace)
    }

    constructor (kind: Kind, ttl: nat, clock: int)
      ensures Valid() && w == Init(kind, ttl, clock) && trace == []
    {
      this.kind, this.ttl, startedAt := kind, ttl, clock;
      w, trace := Init(kind, ttl, clock), [];
    }

    method Do(a: Action)
      requires Valid()
      modifies this
      ensures Valid() && w == Step(old(w), a) && trace == old(trace) + [a]
    {
      w := Step(w, a);
      trace := trace + [a];
      assert trace[..|trace| - 1] == old(trace);
    }

    /** Any number of steps of everyone else. */
    method Others(me: Owner)
      requires Valid()
      modifies this
      ensures Valid() && SameFor(old(w), w, me)
      ensures old(trace) <= trace && forall i :: |old(trace)| <= i < |trace| ==> !By(trace[i], me)
    {
      var acts: seq<Action> := *;
      for i := 0 to |acts|
        invariant Valid() && SameFor(old(w), w, me)
        invariant old(trace) <= trace && forall j :: |old(trace)| <= j < |trace| ==> !By(trace[j], me)
      {
        if !By(acts[i], me) {
          OthersKeepPc(w, acts[i], me);
          Do(acts[i]);
        }
      }
    }

    /** A store statement: it may fail without effect, which ends the attempt. */
    method Statement(o: Owner, a: Action, luck: Luck) returns (ok: bool)
      requires Valid() && By(a, o) && o in w.procs && !w.procs[o].Finished?
      modifies this
      ensures Valid()
      ensures luck.store ==> ok
      ensures ok ==> w == Step(old(w), a)
      ensures !ok ==> w == Step(old(w), Crash(o))
    {
      ok := luck.store;
      if !ok { ok := *; }
      Do(if ok then a else Crash(o));
    }

    /** A Teams call. The ids are Teams' choice; a message id it has given before it does not give again. */
    method CallTeams(o: Owner, answer: Answer)
      requires Valid() && o in w.procs
      modifies this
      ensures Valid() && exists r: Reply :: w == Step(old(w), Call(o, r)) && FreshReply(old(w), r, answer)
    {
      var m: string, c: string := *, *;
      if m in w.hist.ids { m := ""; }
      var r := match answer case Accepts => Sent(m, c) case Blocks => Blocked case Refuses => Refused case Missing => Gone;
      assert FreshReply(w, r, answer);
      Do(Call(o, r));
    }

    /** ClaimActiveEvent: reap, insert and, when the insert did nothing, look. reaped is what the first
        statement left, met what the insert met, and looked what the look met. */
    method Claim(o: Owner, luck: Luck) returns (ok: bool, ghost reaped: World, ghost met: World, ghost looked: World)
      requires Valid() && o in w.procs && w.procs[o].Ready?
      modifies this
      ensures Valid() && w.kind == old(w.kind) && o in w.procs
      ensures luck.store ==> ok
      ensures !ok ==> w.procs[o] == Finished(Dead)
      ensures ok ==> reaped == Step(old(w), Reap(o)) && NoneExpired(reaped, old(w.procs[o]).at, ttl)
      ensures ok ==> CameTo(met, looked, w.procs[o]) && looked.kind == w.kind
      ensures ok ==> w.procs[o].Won? || w.procs[o] == Finished(InFlight)
                     || (exists card :: w.procs[o] == FoundPc(w.kind, card))
    {
      SameTtl(this);
      ok := Statement(o, Reap(o), luck);
      reaped, met, looked := w, w, w;
      if !ok { return; }
      Others(o);
      ok, met, looked := InsertOrLook(o, luck);
    }

    method InsertOrLook(o: Owner, luck: Luck) returns (ok: bool, ghost met: World, ghost looked: World)
      requires Valid() && o in w.procs && w.procs[o].Swept?
      modifies this
      ensures Valid() && w.kind == old(w.kind) && o in w.procs
      ensures luck.store ==> ok
      ensures !ok ==> w.procs[o] == Finished(Dead)
      ensures ok ==> CameTo(met, looked, w.procs[o]) && looked.kind == w.kind
      ensures ok ==> w.procs[o].Won? || w.procs[o] == Finished(InFlight)
                     || (exists card :: w.procs[o] == FoundPc(w.kind, card))
    {
      met, looked := w, w;
      ok := Statement(o, Insert(o), luck);
      if !ok || w.procs[o].Won? { return; }
      assert w.procs[o].Conflicted?;
      Others(o);
      looked := w;
      ghost var card := if w.row.Some? then w.row.value else Row(0, 0, false, "", "");
      ok := Statement(o, Look(o), luck);
      assert ok ==> w.procs[o] == Finished(InFlight) || w.procs[o] == FoundPc(w.kind, card);
    }
  }

  lemma SameTtl(t: Target)
    requires t.Valid()
    ensures t.w.ttl == t.ttl && t.w.kind == t.kind
  {
    ClaimsTakeover.RunTtl(Init(t.kind, t.ttl, t.startedAt), t.trace);
  }

  /** The row is no claim whose time to live had run out at the given time. */
  ghost predicate NoneExpired(w: World, at: int, ttl: nat) {
    w.row.Some? && !w.row.value.posted ==> at < w.row.value.claimedAt + ttl
  }

  /** The claim is won exactly when the insert met no row. Otherwise the look decides: a row that is gone
      or not posted is a claim in flight; a card nothing can edit is to be forgotten, a message
      without an id only restamped, and any other edited. */
  ghost predicate CameTo(met: World, looked: World, pc: Pc) {
    && (pc.Won? <==> met.row.None?)
    && (!pc.Won? ==>
          if looked.row.None? || !looked.row.value.posted then pc == Finished(InFlight)
          else
            var card := looked.row.value;
            if looked.kind == Channel && card.conversationId == "" then pc == Doomed(card, Uneditable, Replaced)
            else if looked.kind == Chat && card.messageId == "" then pc == Edited(card)
            else pc == Found(card))
  }

  /** A reply with this answer, its message id empty or never given before. */
  ghost predicate FreshReply(w: World, r: Reply, answer: Answer) {
    match r
    case Sent(m, _) => answer == Accepts && (m == "" || m !in w.hist.ids)
    case Blocked => answer == Blocks
    case Refused => answer == Refuses
    case Gone => answer == Missing
  }

  ghost predicate SameFor(u: World, v: World, o: Owner) {
    && v.kind == u.kind && u.hist.posts <= v.hist.posts
    && (o in u.procs <==> o in v.procs)
    && (o in u.procs ==> v.procs[o] == u.procs[o])
    && (o in u.hist.forgot <==> o in v.hist.forgot)
  }

  /** What an attempt may come to. With a working store it never just dies, and with every call
      accepted it fails only over a channel post that came back without a message id. */
  ghost predicate Explained(w: World, o: Owner, luck: Luck, out: Outcome) {
    match out
    case Dead => !luck.store
    case Recorded => luck.post == Accepts
    case Lost => luck.post == Accepts
    case Updated => luck.edit == Accepts || w.kind == Chat
    case InFlight => true
    case Replaced => w.kind == Channel
    case Failed =>
      || luck.post != Accepts || luck.edit != Accepts
      || (w.kind == Channel && exists p :: p in w.hist.posts && p.owner == o && p.messageId == "")
    case Closed => false
  }

  /** PostToChannel or SendMessage under a won claim. */
  method PostUnder(t: Target, o: Owner, luck: Luck)
    requires t.Valid() && o in t.w.procs && t.w.procs[o].Won?
    modifies t
    ensures t.Valid() && t.w.kind == old(t.w.kind) && o in t.w.procs
    ensures if luck.post == Accepts then t.w.procs[o].Posted? && Post(o, t.w.procs[o].messageId, t.w.procs[o].at) in t.w.hist.posts
            else t.w.procs[o].Unsent?
  {
    t.CallTeams(o, luck.post);
  }

  /** CompleteActiveEventClaim after a post, ReleaseActiveEventClaim after a refused one. */
  method Settle(t: Target, o: Owner, luck: Luck) returns (out: Outcome)
    requires t.Valid() && o in t.w.procs && (t.w.procs[o].Posted? || t.w.procs[o].Unsent?)
    modifies t
    ensures t.Valid() && t.w.kind == old(t.w.kind) && t.w.hist.posts == old(t.w.hist.posts)
    ensures o in t.w.procs && t.w.procs[o] == Finished(out)
    ensures out == Dead ==> !luck.store
    ensures out in {Recorded, Lost} ==> old(t.w.procs[o]).Posted?
    ensures out == Failed ==> old(t.w.procs[o]).Unsent? || (t.w.kind == Channel && old(t.w.procs[o]).messageId == "")
    ensures out in {Recorded, Lost, Failed, Dead}
    ensures Settled(old(t.w), old(t.w.procs[o]), t.w, o, out)
  {
    var ok := t.Statement(o, if t.w.procs[o].Posted? then Complete(o) else Release(o), luck);
    out := if ok then t.w.procs[o].outcome else Dead;
  }

  /** The row after the attempt's last statement. A message is recorded as it went out, exactly when the row
      is gone or still the attempt's own claim, and the channel table takes none without an id; a claim
      nothing was sent under is handed back; anybody else's row stays. */
  ghost predicate Settled(u: World, pc: Pc, v: World, o: Owner, out: Outcome) {
    var own := u.row.Some? && !u.row.value.posted && u.row.value.owner == o;
    if out == Dead then v.row == u.row
    else if pc.Posted? then
      && (out == Recorded <==> (u.row.None? || own) && !(u.kind == Channel && pc.messageId == ""))
      && v.row == if out == Recorded then Some(Row(o, pc.at, true, pc.messageId, pc.conversationId)) else u.row
    else v.row == if own then None else u.row
  }

  /** The half of an attempt that won its claim: post, then record it or hand the claim back. */
  method PostAndComplete(t: Target, o: Owner, luck: Luck) returns (out: Outcome)
    requires t.Valid() && o in t.w.procs && t.w.procs[o].Won?
    modifies t
    ensures t.Valid() && o in t.w.procs && t.w.procs[o] == Finished(out)
    ensures t.w.kind == old(t.w.kind) && Explained(t.w, o, luck, out)
    ensures out == Recorded ==> t.w.row.Some? && t.w.row.value.owner == o && t.w.row.value.posted &&
                                Post(o, t.w.row.value.messageId, t.w.row.value.claimedAt) in t.w.hist.posts
    ensures out == Failed && luck.post != Accepts ==> !(t.w.row.Some? && !t.w.row.value.posted && t.w.row.value.owner == o)
  {
    PostUnder(t, o, luck);
    ghost var pc := t.w.procs[o];
    t.Others(o);
    assert luck.post == Accepts ==> Post(o, pc.messageId, pc.at) in t.w.hist.posts;
    out := Settle(t, o, luck);
  }

  /** UpdateInChannel or UpdateMessage on the message that is there. */
  method EditFound(t: Target, o: Owner, luck: Luck)
    requires t.Valid() && o in t.w.procs && t.w.procs[o].Found?
    modifies t
    ensures t.Valid() && t.w.kind == old(t.w.kind) && o in t.w.procs
    ensures var pc := t.w.procs[o];
            if luck.edit == Accepts then pc.Edited?
            else if luck.edit == Blocks && t.w.kind == Chat then pc.Doomed? && pc.after == Failed
            else pc == Finished(Failed)
  {
    t.CallTeams(o, luck.edit);
  }

  /** The half of an attempt that found an editable message: edit it, then restamp it, or forget it when the chat is blocked. */
  method EditAndRestamp(t: Target, o: Owner, luck: Luck) returns (out: Outcome)
    requires t.Valid() && o in t.w.procs && t.w.procs[o].Found?
    modifies t
    ensures t.Valid() && o in t.w.procs && t.w.procs[o] == Finished(out)
    ensures t.w.kind == old(t.w.kind) && Explained(t.w, o, luck, out)
  {
    EditFound(t, o, luck);
    t.Others(o);
    if t.w.procs[o].Finished? { return Failed; }
    out := FinishCard(t, o, luck);
  }

  /** The row goes by this message id. */
  predicate Names(row: Option<Row>, messageId: string) { row.Some? && row.value.messageId == messageId }

  /** TouchActiveEvent after an edit, or the delete by message id of a card that is to be forgotten. */
  method FinishCard(t: Target, o: Owner, luck: Luck) returns (out: Outcome)
    requires t.Valid() && o in t.w.procs && (t.w.procs[o].Edited? || t.w.procs[o].Doomed?)
    modifies t
    ensures t.Valid() && t.w.kind == old(t.w.kind) && o in t.w.procs && t.w.procs[o] == Finished(out)
    ensures out == (if old(t.w.procs[o]).Edited? then Updated else old(t.w.procs[o]).after) || (out == Dead && !luck.store)
    ensures o in t.w.hist.forgot ==> o in old(t.w).hist.forgot || (old(t.w.procs[o]).Doomed? && out == old(t.w.procs[o]).after)
    ensures old(t.w.procs[o]).Doomed? && out != Dead ==>
              t.w.row == if Names(old(t.w).row, old(t.w.procs[o]).card.messageId) then None else old(t.w).row
  {
    var ok := t.Statement(o, if t.w.procs[o].Doomed? then Forget(o) else Restamp(o), luck);
    out := if ok then t.w.procs[o].outcome else Dead;
  }

  /** The half of an attempt that found a message: forget it, edit it or only restamp it. */
  method UseFound(t: Target, o: Owner, luck: Luck) returns (out: Outcome)
    requires t.Valid() && o in t.w.procs && exists card :: t.w.procs[o] == FoundPc(t.w.kind, card)
    modifies t
    ensures t.Valid() && o in t.w.procs && t.w.procs[o] == Finished(out)
    ensures t.w.kind == old(t.w.kind) && Explained(t.w, o, luck, out)
  {
    if t.w.procs[o].Found? {
      out := EditAndRestamp(t, o, luck);
      return;
    }
    out := FinishCard(t, o, luck);
  }

  /** deliverToChannel and sendToChat for one attempt. Replaced asks for another. */
  method Attempt(t: Target, o: Owner, luck: Luck) returns (out: Outcome)
    requires t.Valid() && o !in t.w.procs
    modifies t
    ensures t.Valid() && o in t.w.procs && t.w.procs[o] == Finished(out)
    ensures t.w.kind == old(t.w.kind) && Explained(t.w, o, luck, out)
  {
    t.Do(Begin(o));
    t.Others(o);
    ghost var reaped, met, looked;
    var ok;
    ok, reaped, met, looked := t.Claim(o, luck);
    if !ok { return Dead; }
    t.Others(o);
    if t.w.procs[o].Won? {
      out := PostAndComplete(t, o, luck);
    } else if t.w.procs[o].Finished? {
      out := InFlight;
    } else {
      out := UseFound(t, o, luck);
    }
  }

  lemma {:induction false} SomeFreshOwner(used: set<Owner>) returns (o: Owner)
    ensures o !in used && forall q :: q in used ==> q < o
  {
    if used == {} { return 0; }
    var q :| q in used;
    var p := SomeFreshOwner(used - {q});
    o := p + q + 1;
    assert used == (used - {q}) + {q};
  }

  /** uuid.NewString: an owner nobody has used. */
  method NewOwner(t: Target) returns (o: Owner)
    ensures o !in t.w.procs
  {
    ghost var witnessed := SomeFreshOwner(t.w.procs.Keys);
    assert witnessed !in t.w.procs;
    o :| o !in t.w.procs;
  }

  /** deliverToChannel with replaceUneditableCard: a card nothing can edit is forgotten, and the
      delivery starts over under a new claim. One Luck is one attempt; Replaced means all of them
      found such a card. */
  method DeliverToChannel(t: Target, lucks: seq<Luck>) returns (out: Outcome, o: Owner, k: nat)
    requires t.Valid() && lucks != []
    modifies t
    ensures t.Valid() && o in t.w.procs && t.w.procs[o] == Finished(out)
    ensures k < |lucks| && Explained(t.w, o, lucks[k], out)
    ensures out == Replaced ==> k == |lucks| - 1
  {
    k := 0;
    o := NewOwner(t);
    out := Attempt(t, o, lucks[0]);
    while out == Replaced && k + 1 < |lucks|
      invariant k < |lucks| && t.Valid() && o in t.w.procs && t.w.procs[o] == Finished(out)
      invariant Explained(t.w, o, lucks[k], out)
    {
      t.Others(o);
      o := NewOwner(t);
      k := k + 1;
      out := Attempt(t, o, lucks[k]);
    }
  }

  // Closing.

  /** Whether a close reports this target. A gone recipient whose row could not be forgotten is only logged. */
  predicate Reported(kind: Kind, luck: Luck, out: Outcome) {
    out != Closed && !(out == Dead && kind == Chat && luck.edit == Missing)
  }

  /** What a close may come to for one listed target. */
  ghost predicate CloseExplained(kind: Kind, listed: Pc, luck: Luck, out: Outcome) {
    && (listed.Finished? ==> out == listed.outcome)
    && (out == Dead ==> !luck.store)
    && (!listed.Finished? && NothingToSend(kind, luck) ==> out == Failed)
    && (listed.Closing? && luck.finds && kind == Chat && luck.edit == Missing ==> out == Closed || out == Dead)
    && (out == Failed ==> NothingToSend(kind, luck) || luck.edit != Accepts)
    && (out == Closed ==> listed == Finished(Closed) || listed.Doomed? || luck.edit == Accepts || (kind == Chat && luck.edit == Missing))
    && out in {Closed, InFlight, Failed, Dead}
  }

  /** The close has deleted a row only if it reports the target closed, or failed over a chat that refused for good. */
  ghost predicate Kept(w: World, o: Owner, luck: Luck, out: Outcome) {
    o in w.hist.forgot ==> out == Closed || (out == Failed && w.kind == Chat && luck.edit == Blocks && !NothingToSend(w.kind, luck))
  }

  ghost predicate Listed(pc: Pc) {
    pc == Finished(Closed) || pc == Finished(InFlight) || StillPreparing(pc)
  }

  /** Edit the listed card, or send the resolution to the listed chat. */
  method AnswerClosed(t: Target, o: Owner, luck: Luck)
    requires t.Valid() && o in t.w.procs && t.w.procs[o].Closing?
    modifies t
    ensures t.Valid() && t.w.kind == old(t.w.kind) && o in t.w.procs
    ensures var pc := t.w.procs[o];
            if luck.edit == Accepts || (luck.edit == Missing && t.w.kind == Chat) then pc.Doomed? && pc.after == Closed
            else if luck.edit == Blocks && t.w.kind == Chat then pc.Doomed? && pc.after == Failed
            else pc == Finished(Failed)
    ensures t.w.procs[o].Doomed? ==> t.w.procs[o].card == old(t.w.procs[o]).card
    ensures t.w.hist.forgot == old(t.w).hist.forgot
  {
    t.CallTeams(o, luck.edit);
  }

  /** One turn of the loops of closeChannelCards and closeChatMessages: find the delivery that
      renders the listed message, answer it as closed, then forget it. */
  method CloseOne(t: Target, o: Owner, luck: Luck) returns (out: Outcome)
    requires t.Valid() && o in t.w.procs && Listed(t.w.procs[o]) && o !in t.w.hist.forgot
    modifies t
    ensures t.Valid() && t.w.kind == old(t.w.kind) && o in t.w.procs && t.w.procs[o] == Finished(out)
    ensures CloseExplained(t.w.kind, old(t.w.procs[o]), luck, out) && Kept(t.w, o, luck, out)
    ensures out == Closed && HasCard(old(t.w.procs[o])) ==> !Names(t.w.row, old(t.w.procs[o]).card.messageId)
  {
    t.Others(o);
    if NothingToSend(t.w.kind, luck) { t.Do(Fail(o)); }
    if t.w.procs[o].Closing? {
      AnswerClosed(t, o, luck);
      t.Others(o);
    }
    if t.w.procs[o].Doomed? {
      out := FinishCard(t, o, luck);
    } else {
      out := t.w.procs[o].outcome;
    }
  }

  /** What a listed row is for a close: nothing to do, a claim in flight to report, a card nothing can edit to
      forget, or a message to answer. */
  ghost predicate ListedAs(w: World, pc: Pc) {
    if w.row.None? then pc == Finished(Closed)
    else if !w.row.value.posted then pc == Finished(InFlight)
    else if w.kind == Channel && w.row.value.conversationId == "" then pc == Doomed(w.row.value, Uneditable, Closed)
    else pc == Closing(w.row.value)
  }

  /** The target has just been listed, and pc is what the close saw there. */
  ghost predicate TookList(t: Target, before: World, o: Owner, pc: Pc)
    reads t
  {
    t.Valid() && t.w.kind == before.kind && o in t.w.procs && t.w.procs[o] == pc && ListedAs(before, pc) && Listed(pc)
    && o !in t.w.hist.forgot
  }

  /** An attempt that is yet to begin has removed nothing. */
  lemma NothingForgotten(kind: Kind, ttl: nat, clock: int, acts: seq<Action>, o: Owner)
    requires o !in Run(Init(kind, ttl, clock), acts).procs
    ensures o !in Run(Init(kind, ttl, clock), acts).hist.forgot
  {
    ClaimsInv.RunKeeps(Init(kind, ttl, clock), acts);
  }

  method ListOne(t: Target, o: Owner) returns (pc: Pc)
    requires t.Valid() && o !in t.w.procs
    modifies t
    ensures TookList(t, old(t.w), o, pc)
  {
    NothingForgotten(t.kind, t.ttl, t.startedAt, t.trace, o);
    t.Do(List(o));
    pc := t.w.procs[o];
  }

  /** ListActiveEvents: every row of the event at one moment. */
  method ListAll(ts: seq<Target>, os: seq<Owner>) returns (listed: seq<Pc>)
    requires |ts| == |os|
    requires forall i, j :: 0 <= i < j < |ts| ==> ts[i] != ts[j]
    requires forall i :: 0 <= i < |ts| ==> ts[i].Valid() && os[i] !in ts[i].w.procs
    modifies ts
    ensures |listed| == |ts|
    ensures forall i :: 0 <= i < |ts| ==> TookList(ts[i], old(ts[i].w), os[i], listed[i])
  {
    listed := [];
    for i := 0 to |ts|
      invariant |listed| == i
      invariant forall j :: 0 <= j < i ==> TookList(ts[j], old(ts[j].w), os[j], listed[j])
      invariant forall j :: i <= j < |ts| ==> ts[j].Valid() && ts[j].w == old(ts[j].w)
    {
      var pc := ListOne(ts[i], os[i]);
      listed := listed + [pc];
    }
  }

  /** The close of one target is over, with this outcome. */
  ghost predicate CloseDone(t: Target, o: Owner, listed: Pc, luck: Luck, out: Outcome)
    reads t
  {
    t.Valid() && o in t.w.procs && t.w.procs[o] == Finished(out) && CloseExplained(t.w.kind, listed, luck, out)
    && Kept(t.w, o, luck, out)
  }

  ghost predicate CloseReady(t: Target, o: Owner, listed: Pc)
    reads t
  {
    t.Valid() && o in t.w.procs && t.w.procs[o] == listed && Listed(listed) && o !in t.w.hist.forgot
  }

  /** The targets a close reports, in order. */
  function Failures(kind: Kind, lucks: seq<Luck>, outs: seq<Outcome>): seq<nat>
    requires |outs| <= |lucks|
  {
    if outs == [] then []
    else
      var n := |outs| - 1;
      Failures(kind, lucks, outs[..n]) + (if Reported(kind, lucks[n], outs[n]) then [n] else [])
  }

  lemma {:induction false} FailuresAreReported(kind: Kind, lucks: seq<Luck>, outs: seq<Outcome>)
    requires |outs| <= |lucks|
    ensures var fs := Failures(kind, lucks, outs);
            && (forall i :: i in fs <==> 0 <= i < |outs| && Reported(kind, lucks[i], outs[i]))
            && (forall a, b :: 0 <= a < b < |fs| ==> fs[a] < fs[b])
  {
    if outs != [] {
      var n := |outs| - 1;
      FailuresAreReported(kind, lucks, outs[..n]);
      assert forall a :: 0 <= a < |Failures(kind, lucks, outs[..n])| ==> Failures(kind, lucks, outs[..n])[a] in Failures(kind, lucks, outs[..n]);
      forall i | 0 <= i < n
        ensures outs[..n][i] == outs[i]
      {}
    }
  }

  /** The loops of closeChannelCards and closeChatMessages over the listed rows. */
  method CloseListed(ts: seq<Target>, os: seq<Owner>, listed: seq<Pc>, lucks: seq<Luck>)
      returns (outs: seq<Outcome>)
    requires |ts| == |os| == |lucks| == |listed|
    requires forall i, j :: 0 <= i < j < |ts| ==> ts[i] != ts[j]
    requires forall i :: 0 <= i < |ts| ==> CloseReady(ts[i], os[i], listed[i])
    modifies ts
    ensures |outs| == |ts|
    ensures forall i :: 0 <= i < |ts| ==> CloseDone(ts[i], os[i], listed[i], lucks[i], outs[i])
  {
    outs := [];
    for i := 0 to |ts|
      invariant |outs| == i
      invariant forall j :: 0 <= j < i ==> CloseDone(ts[j], os[j], listed[j], lucks[j], outs[j])
      invariant forall j :: i <= j < |ts| ==> CloseReady(ts[j], os[j], listed[j])
    {
      var out := CloseOne(ts[i], os[i], lucks[i]);
      outs := outs + [out];
    }
  }

  /** closeEvent over every row the open left: list them all at once, then close them one by one.
      One failure does not keep the others from being closed, and a target that is reported has kept
      its row unless its chat refused for good. */
  method CloseAll(kind: Kind, ts: seq<Target>, os: seq<Owner>, lucks: seq<Luck>)
      returns (listed: seq<Pc>, outs: seq<Outcome>, failures: seq<nat>)
    requires |ts| == |os| == |lucks|
    requires forall i, j :: 0 <= i < j < |ts| ==> ts[i] != ts[j]
    requires forall i :: 0 <= i < |ts| ==> ts[i].Valid() && os[i] !in ts[i].w.procs
    modifies ts
    ensures |outs| == |listed| == |ts|
    ensures forall i :: 0 <= i < |ts| ==> ListedAs(old(ts[i].w), listed[i])
    ensures forall i :: 0 <= i < |ts| ==> CloseDone(ts[i], os[i], listed[i], lucks[i], outs[i])
    ensures failures == Failures(kind, lucks, outs)
    ensures forall i :: i in failures && 0 <= i < |ts| && os[i] in ts[i].w.hist.forgot ==>
              outs[i] == Failed && ts[i].w.kind == Chat && lucks[i].edit == Blocks && !NothingToSend(ts[i].w.kind, lucks[i])
  {
    listed := ListAll(ts, os);
    outs := CloseListed(ts, os, listed, lucks);
    failures := Failures(kind, lucks, outs);
    FailuresAreReported(kind, lucks, outs);
    assert forall i :: 0 <= i < |ts| ==> CloseDone(ts[i], os[i], listed[i], lucks[i], outs[i]);
  }
}
