/** The claim protocol that keeps one card per channel, and one chat message per
    person, for one open event (internal/httpserver/webhooks.go).

    A World is the row of one target (an event key with a channel, or with a
    person), every attempt that works on it, and what happened so far. Attempts
    run on any number of replicas; an Action is one atomic statement, one Teams
    call or one crash, so a run is any sequence of actions. An action its attempt
    is not ready for changes nothing. */
module Claims {

  /** The uuid an attempt is made under. */
  type Owner = nat

  datatype Option<T> = None | Some(value: T)

  datatype Kind = Channel | Chat

  /** A row of active_events or active_event_recipients. posted tells a card from a claim in flight. */
  datatype Row = Row(owner: Owner, claimedAt: int, posted: bool, messageId: string, conversationId: string)

  /** What Teams answered, or that the chat's recipient is gone. */
  datatype Reply = Sent(messageId: string, conversationId: string) | Blocked | Refused | Gone

  /** Why a card is about to be forgotten. */
  datatype Reason = Uneditable | BlockedChat | RecipientGone | ClosedInTeams

  datatype Outcome = Recorded | Updated | InFlight | Lost | Failed | Replaced | Closed | Dead

  /** Where an attempt stands. at is the clock it read before claiming. */
  datatype Pc =
    | Ready(at: int)
    | Swept(at: int)
    | Conflicted
    | Won(at: int)
    | Posted(at: int, messageId: string, conversationId: string)
    | Unsent(at: int)
    | Found(card: Row)
    | Edited(card: Row)
    | Closing(card: Row)
    | Doomed(card: Row, why: Reason, after: Outcome)
    | Finished(outcome: Outcome)

  datatype Post = Post(owner: Owner, messageId: string, claimedAt: int)

  /** A row an attempt deleted, the card it meant to forget, and why. */
  datatype Removal = Removal(row: Row, card: Row, why: Reason)

  /** What happened so far. recorded: the message id each owner's row got. reaped: claims taken over,
      and when. swept: claims in flight removed by anything but their owner or a takeover. removals:
      cards forgotten. closed, blocked, gone: cards edited or answered as closed, cards whose chat
      refused for good, cards whose recipient was not found. forgot: the row each attempt deleted as
      a card to forget. ids: who posted each message id. */
  datatype History = History(
    posts: seq<Post>, recorded: map<Owner, string>, reaped: map<Owner, int>, swept: set<Owner>,
    dead: set<Owner>, removals: nat, closed: set<Row>, blocked: set<Row>, gone: set<Row>,
    forgot: map<Owner, Removal>, ids: map<string, Owner>)

  datatype World = World(kind: Kind, ttl: nat, clock: int, row: Option<Row>, procs: map<Owner, Pc>, hist: History)

  datatype Action =
    | Tick(d: nat)
    | Begin(o: Owner)
    | Reap(o: Owner)
    | Insert(o: Owner)
    | Look(o: Owner)
    | Call(o: Owner, reply: Reply)
    | Complete(o: Owner)
    | Release(o: Owner)
    | Restamp(o: Owner)
    | List(o: Owner)
    | Forget(o: Owner)
    | Fail(o: Owner)
    | Crash(o: Owner)
    | Unlink

  const NoHistory := History([], map[], map[], {}, {}, 0, {}, {}, {}, map[], map[])

  function Init(kind: Kind, ttl: nat, clock: int): World {
    World(kind, ttl, clock, None, map[], NoHistory)
  }

  function At(w: World, o: Owner, pc: Pc): World {
    w.(procs := w.procs[o := pc])
  }

  /** What a card found by a delivery is good for: an edit, a restamp or a replacement. */
  function FoundPc(kind: Kind, card: Row): Pc {
    if kind == Channel && card.conversationId == "" then Doomed(card, Uneditable, Replaced)
    else if kind == Chat && card.messageId == "" then Edited(card)
    else Found(card)
  }

  /** ReapStaleClaim: drops an unposted claim no newer than the cutoff. */
  function ReapStep(w: World, o: Owner, at: int): World {
    if w.row.Some? && !w.row.value.posted && w.row.value.claimedAt <= at - w.ttl then
      At(w, o, Swept(at)).(row := None, hist := w.hist.(reaped := w.hist.reaped[w.row.value.owner := w.clock]))
    else At(w, o, Swept(at))
  }

  /** ClaimActiveEvent: an insert that does nothing when a row is there. */
  function InsertStep(w: World, o: Owner, at: int): World {
    if w.row.None? then At(w, o, Won(at)).(row := Some(Row(o, at, false, "", "")))
    else At(w, o, Conflicted)
  }

  /** The read that turns a lost insert into a reason. */
  function LookStep(w: World, o: Owner): World {
    if w.row.Some? && w.row.value.posted then At(w, o, FoundPc(w.kind, w.row.value))
    else At(w, o, Finished(InFlight))
  }

  /** The Teams call under a won claim. A message id is never given twice, except the empty one. */
  function PostStep(w: World, o: Owner, at: int, reply: Reply): World {
    match reply
    case Sent(m, c) =>
      if m != "" && m in w.hist.ids then w
      else
        At(w, o, Posted(at, m, c)).(hist := w.hist.(
          posts := w.hist.posts + [Post(o, m, at)],
          ids := if m == "" then w.hist.ids else w.hist.ids[m := o]))
    case _ => At(w, o, Unsent(at))
  }

  /** A chat that refuses for good costs the card its row; any other refusal ends the attempt. */
  function RefusedStep(w: World, o: Owner, card: Row, reply: Reply): World {
    if w.kind == Chat && reply.Blocked? then
      At(w, o, Doomed(card, BlockedChat, Failed)).(hist := w.hist.(blocked := w.hist.blocked + {card}))
    else At(w, o, Finished(Failed))
  }

  function EditStep(w: World, o: Owner, card: Row, reply: Reply): World {
    if reply.Sent? then At(w, o, Edited(card)) else RefusedStep(w, o, card, reply)
  }

  function CloseStep(w: World, o: Owner, card: Row, reply: Reply): World {
    if reply.Sent? then
      At(w, o, Doomed(card, ClosedInTeams, Closed)).(hist := w.hist.(closed := w.hist.closed + {card}))
    else if w.kind == Chat && reply.Gone? then
      At(w, o, Doomed(card, RecipientGone, Closed)).(hist := w.hist.(gone := w.hist.gone + {card}))
    else RefusedStep(w, o, card, reply)
  }

  /** CompleteActiveEventClaim: inserts, or updates the owner's own unposted row. The channel
      table's CHECK refuses a posted row without a message id. */
  function CompleteStep(w: World, o: Owner, at: int, m: string, c: string): World {
    if w.kind == Channel && m == "" then
      At(w, o, Finished(Failed)).(hist := w.hist.(dead := w.hist.dead + {o}))
    else if w.row.None? || (!w.row.value.posted && w.row.value.owner == o) then
      At(w, o, Finished(Recorded)).(row := Some(Row(o, at, true, m, c)), hist := w.hist.(recorded := w.hist.recorded[o := m]))
    else At(w, o, Finished(Lost))
  }

  function ReleaseStep(w: World, o: Owner): World {
    var freed := if w.row.Some? && !w.row.value.posted && w.row.value.owner == o then w.(row := None) else w;
    At(freed, o, Finished(Failed))
  }

  /** What a close makes of the row it listed. */
  function ListedPc(w: World): Pc {
    if w.row.None? then Finished(Closed)
    else if !w.row.value.posted then Finished(InFlight)
    else if w.kind == Channel && w.row.value.conversationId == "" then Doomed(w.row.value, Uneditable, Closed)
    else Closing(w.row.value)
  }

  function ListStep(w: World, o: Owner): World { At(w, o, ListedPc(w)) }

  /** A row deleted by something other than its attempt: a card is counted, a claim is swept. */
  function Removed(w: World): World
    requires w.row.Some?
  {
    var h := if w.row.value.posted then w.hist.(removals := w.hist.removals + 1)
             else w.hist.(swept := w.hist.swept + {w.row.value.owner});
    w.(row := None, hist := h)
  }

  /** DeleteActiveEventCard and its chat twin: by message id alone. */
  function ForgetStep(w: World, o: Owner, card: Row, why: Reason, after: Outcome): World {
    if w.row.Some? && w.row.value.messageId == card.messageId then
      var v := Removed(w);
      At(v, o, Finished(after)).(hist := v.hist.(forgot := v.hist.forgot[o := Removal(w.row.value, card, why)]))
    else At(w, o, Finished(after))
  }

  /** A close that finds no delivery for a card it listed, or cannot render it, leaves it. */
  predicate StillPreparing(pc: Pc) { pc.Closing? || (pc.Doomed? && pc.why.Uneditable? && pc.after.Closed?) }

  function Step(w: World, a: Action): World {
    match a
    case Tick(d) => w.(clock := w.clock + d)
    case Unlink => if w.kind == Chat && w.row.Some? then Removed(w) else w
    case Begin(o) => if o in w.procs then w else At(w, o, Ready(w.clock))
    case List(o) => if o in w.procs then w else ListStep(w, o)
    case Crash(o) =>
      if o in w.procs && !w.procs[o].Finished? then
        At(w, o, Finished(Dead)).(hist := w.hist.(dead := w.hist.dead + {o}))
      else w
    case _ => if a.o in w.procs then Advance(w, a, w.procs[a.o]) else w
  }

  predicate OfBegun(a: Action) { !a.Tick? && !a.Unlink? && !a.Begin? && !a.List? && !a.Crash? }

  /** The steps of an attempt that has begun. */
  function Advance(w: World, a: Action, pc: Pc): World
    requires OfBegun(a)
  {
    match (a, pc)
    case (Reap(o), Ready(at)) => ReapStep(w, o, at)
    case (Insert(o), Swept(at)) => InsertStep(w, o, at)
    case (Look(o), Conflicted) => LookStep(w, o)
    case (Call(o, reply), Won(at)) => PostStep(w, o, at, reply)
    case (Call(o, reply), Found(card)) => EditStep(w, o, card, reply)
    case (Call(o, reply), Closing(card)) => CloseStep(w, o, card, reply)
    case (Complete(o), Posted(at, m, c)) => CompleteStep(w, o, at, m, c)
    case (Release(o), Unsent(_)) => ReleaseStep(w, o)
    case (Restamp(o), Edited(_)) => At(w, o, Finished(Updated))
    case (Forget(o), Doomed(card, why, after)) => ForgetStep(w, o, card, why, after)
    case (Fail(o), _) => if StillPreparing(pc) then At(w, o, Finished(Failed)) else w
    case _ => w
  }

  /** Whether an action is taken by the attempt. */
  predicate By(a: Action, o: Owner) { !a.Tick? && !a.Unlink? && a.o == o }

  function Run(w: World, acts: seq<Action>): World {
    if acts == [] then w else Step(Run(w, acts[..|acts| - 1]), acts[|acts| - 1])
  }

  lemma {:induction false} RunConcat(w: World, a: seq<Action>, b: seq<Action>)
    ensures Run(w, a + b) == Run(Run(w, a), b)
  {
    if b == [] {
      assert a + b == a;
    } else {
      var n := |b| - 1;
      assert (a + b)[..|a + b| - 1] == a + b[..n];
      RunConcat(w, a, b[..n]);
    }
  }

  // The invariant.

  /** The attempt won the claim and has not finished with it. */
  predicate Holding(pc: Pc) { pc.Won? || pc.Posted? || pc.Unsent? }

  predicate HasCard(pc: Pc) { pc.Found? || pc.Edited? || pc.Closing? || pc.Doomed? }

  /** What is known of a card an attempt has read. */
  ghost predicate CardOk(w: World, card: Row) {
    && card.posted
    && (w.kind == Channel ==> card.messageId != "")
    && (card.messageId != "" ==> card.messageId in w.hist.ids && w.hist.ids[card.messageId] == card.owner)
  }

  ghost predicate Justified(w: World, card: Row, why: Reason) {
    match why
    case Uneditable => w.kind == Channel && card.conversationId == ""
    case BlockedChat => w.kind == Chat && card in w.hist.blocked
    case RecipientGone => w.kind == Chat && card in w.hist.gone
    case ClosedInTeams => card in w.hist.closed
  }

  /** What is known of a claim in flight. */
  ghost predicate ClaimOk(w: World, row: Row)
    requires row.owner in w.procs
  {
    && row.messageId == "" && row.claimedAt <= w.clock
    && row.owner !in w.hist.reaped && row.owner !in w.hist.swept
    && !w.procs[row.owner].Ready? && !w.procs[row.owner].Swept?
    && (forall p :: p in w.hist.posts && p.owner == row.owner ==> p.claimedAt == row.claimedAt)
  }

  ghost predicate RowInv(w: World) {
    w.row.Some? ==>
      && w.row.value.owner in w.procs
      && (if w.row.value.posted then CardOk(w, w.row.value) else ClaimOk(w, w.row.value))
  }

  ghost predicate PcInv(w: World, o: Owner, pc: Pc) {
    && (pc.Ready? || pc.Swept? ==> pc.at <= w.clock && o !in w.hist.reaped && o !in w.hist.swept)
    && (Holding(pc) ==> o in w.hist.reaped || o in w.hist.swept || w.row == Some(Row(o, pc.at, false, "", "")))
    && (Holding(pc) && o in w.hist.reaped ==> w.hist.reaped[o] >= pc.at + w.ttl)
    && (pc.Posted? && pc.messageId != "" ==> pc.messageId in w.hist.ids && w.hist.ids[pc.messageId] == o)
    && (HasCard(pc) ==> CardOk(w, pc.card))
    && (pc.Doomed? ==> Justified(w, pc.card, pc.why) && Ends(pc.why, pc.after))
  }

  /** What an attempt that forgets a card reports. */
  predicate Ends(why: Reason, after: Outcome) {
    match why
    case BlockedChat => after == Failed
    case Uneditable => after == Replaced || after == Closed
    case _ => after == Closed
  }

  /** An attempt that deleted a row had a reason, meant a card with that message id, and is over. */
  ghost predicate ForgotInv(w: World, o: Owner, f: Removal) {
    && o in w.procs && w.procs[o].Finished? && Ends(f.why, w.procs[o].outcome)
    && Justified(w, f.card, f.why) && f.row.messageId == f.card.messageId
    && (f.row.messageId != "" ==> f.row.posted && f.row.owner == f.card.owner)
  }

  /** A post is recorded under its message id, or something the protocol cannot prevent happened to its claim, or it is about to be recorded. */
  ghost predicate Accounted(w: World, p: Post) {
    || (p.owner in w.hist.recorded && w.hist.recorded[p.owner] == p.messageId)
    || (p.owner in w.hist.reaped && w.hist.reaped[p.owner] >= p.claimedAt + w.ttl)
    || p.owner in w.hist.swept
    || p.owner in w.hist.dead
    || (p.owner in w.procs && w.procs[p.owner].Posted? && w.procs[p.owner].messageId == p.messageId
        && w.procs[p.owner].at == p.claimedAt)
  }

  ghost predicate PostInv(w: World, p: Post) {
    && p.owner in w.procs
    && !w.procs[p.owner].Ready? && !w.procs[p.owner].Swept? && !w.procs[p.owner].Won?
    && !w.procs[p.owner].Unsent?
    && Accounted(w, p)
  }

  /** The row, every attempt's place and every post. */
  ghost predicate Core(w: World) {
    && RowInv(w)
    && (w.kind == Channel ==> w.hist.swept == {})
    && (forall o :: o in w.hist.reaped || o in w.hist.swept || o in w.hist.dead ==> o in w.procs)
    && (forall o :: o in w.procs ==> PcInv(w, o, w.procs[o]))
    && (forall p :: p in w.hist.posts ==> PostInv(w, p))
  }

  /** What has been recorded and removed: only finished attempts did either, the row is the one
      recorded for its owner, and no attempt posted twice. */
  ghost predicate Records(w: World) {
    && (forall o :: o in w.hist.recorded ==> o in w.procs && w.procs[o].Finished?)
    && (forall o :: o in w.hist.forgot ==> ForgotInv(w, o, w.hist.forgot[o]))
    && OneEach(w.hist.posts)
    && (w.row.Some? && w.row.value.posted ==>
          w.row.value.owner in w.hist.recorded && w.hist.recorded[w.row.value.owner] == w.row.value.messageId)
  }

  predicate OneEach(posts: seq<Post>) {
    forall i, j :: 0 <= i < j < |posts| ==> posts[i].owner != posts[j].owner
  }

  ghost predicate Inv(w: World) { Core(w) && Records(w) }
}
