/** A chat message that Teams recorded without an id (internal/httpserver/webhooks.go): the run in
    which a close deletes somebody else's claim. */
module ClaimsIdless {
  import opened Claims

  ghost predicate Reachable(init: World, w: World) {
    exists acts :: Run(init, acts) == w
  }

  /** One more action at the end of a run. */
  lemma Extend(init: World, w: World, a: Action) returns (v: World)
    requires Reachable(init, w)
    ensures v == Step(w, a) && Reachable(init, v)
  {
    var acts :| Run(init, acts) == w;
    assert (acts + [a])[..|acts + [a]| - 1] == acts;
    v := Step(w, a);
    assert Run(init, acts + [a]) == v;
  }

  /** A free chat row, claimed and sent under a fresh attempt; Teams gives the message no id. */
  lemma SendIdless(init: World, w: World, o: Owner) returns (v: World)
    requires Reachable(init, w) && w.kind == Chat && w.row == None && o !in w.procs
    ensures Reachable(init, v)
    ensures v == At(w, o, Posted(w.clock, "", "")).(
              row := Some(Row(o, w.clock, false, "", "")),
              hist := w.hist.(posts := w.hist.posts + [Post(o, "", w.clock)]))
  {
    v := Extend(init, w, Begin(o));
    v := Extend(init, v, Reap(o));
    assert v == At(w, o, Swept(w.clock));
    v := Extend(init, v, Insert(o));
    v := Extend(init, v, Call(o, Sent("", "")));
  }

  /** A recorded chat message, listed by a close and answered as closed, but not yet forgotten. */
  lemma AnswerClosed(init: World, w: World, o: Owner) returns (v: World)
    requires Reachable(init, w) && w.kind == Chat && w.row.Some? && w.row.value.posted && o !in w.procs
    ensures Reachable(init, v)
    ensures v == At(w, o, Doomed(w.row.value, ClosedInTeams, Closed)).(
              hist := w.hist.(closed := w.hist.closed + {w.row.value}))
  {
    v := Extend(init, w, List(o));
    v := Extend(init, v, Call(o, Sent("", "")));
  }

  const Idless := Row(1, 0, true, "", "")

  /** What a close removed, meaning that message. */
  function ByClose(row: Row): Removal { Removal(row, Idless, ClosedInTeams) }

  /** A chat message recorded without an id, answered as closed by two closes. */
  lemma TwoAnswers() returns (w: World)
    ensures Reachable(Init(Chat, 30, 0), w)
    ensures w == World(Chat, 30, 0, Some(Idless),
                       map[1 := Finished(Recorded), 2 := Doomed(Idless, ClosedInTeams, Closed), 3 := Doomed(Idless, ClosedInTeams, Closed)],
                       History([Post(1, "", 0)], map[1 := ""], map[], {}, {}, 0, {Idless}, {}, {}, map[], map[]))
  {
    var init := Init(Chat, 30, 0);
    assert Run(init, []) == init;
    w := SendIdless(init, init, 1);
    w := Extend(init, w, Complete(1));
    assert w == World(Chat, 30, 0, Some(Idless), map[1 := Finished(Recorded)],
                      History([Post(1, "", 0)], map[1 := ""], map[], {}, {}, 0, {}, {}, {}, map[], map[]));
    w := AnswerClosed(init, w, 2);
    w := AnswerClosed(init, w, 3);
  }

  /** The first of the two forgets it. */
  lemma FirstCloseForgets() returns (w: World)
    ensures Reachable(Init(Chat, 30, 0), w) && w.kind == Chat && w.clock == 0
    ensures w.row == None && w.procs.Keys == {1, 2, 3} && w.procs[3] == Doomed(Idless, ClosedInTeams, Closed)
    ensures w.hist == History([Post(1, "", 0)], map[1 := ""], map[], {}, {}, 1, {Idless}, {}, {}, map[2 := ByClose(Idless)], map[])
  {
    w := TwoAnswers();
    w := Extend(Init(Chat, 30, 0), w, Forget(2));
  }

  /** What two closes racing one reopen leave: the reopen's claim (4) is gone, though its message is out. */
  lemma SecondCloseSweeps() returns (w: World)
    ensures Reachable(Init(Chat, 30, 0), w) && w.kind == Chat && w.clock == 0 && w.row == None && 5 !in w.procs
    ensures 4 in w.procs && w.procs[4] == Posted(0, "", "")
    ensures w.hist == History([Post(1, "", 0), Post(4, "", 0)], map[1 := ""], map[], {4}, {}, 1, {Idless}, {}, {},
                              map[2 := ByClose(Idless), 3 := ByClose(Row(4, 0, false, "", ""))], map[])
  {
    var init := Init(Chat, 30, 0);
    w := FirstCloseForgets();
    w := SendIdless(init, w, 4);
    w := Extend(init, w, Forget(3));
  }

  /** Where a chat differs: two closes of a message recorded without an id, and a reopen between
      them. The later close deletes the reopen's claim, another open claims afresh, and both send,
      though nothing was taken over and nothing died. */
  lemma EmptyIdCloseSweepsClaim() returns (w: World)
    ensures Reachable(Init(Chat, 30, 0), w)
    ensures 4 in w.procs && w.procs[4] == Finished(Lost)
    ensures w.hist.posts == [Post(1, "", 0), Post(4, "", 0), Post(5, "", 0)] && w.hist.removals == 1
    ensures w.hist.swept == {4} && w.hist.reaped == map[] && w.hist.dead == {}
  {
    var init := Init(Chat, 30, 0);
    w := SecondCloseSweeps();
    w := SendIdless(init, w, 5);
    w := Extend(init, w, Complete(5));
    w := Extend(init, w, Complete(4));
  }
}
