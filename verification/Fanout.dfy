/** The fan-out of one event (internal/httpserver/addressed.go): expandAddressed with its memo and
    install budget, and deliverEvent with its goroutines. */
module Fanout {
  import opened Text
  import opened Addressed
  import opened Places

  /** The people finder: Resolve finds a person, Ensure makes sure of their chat, installing the app
      when told to. */
  datatype Finder = Finder(resolve: string -> Answer, ensureChat: (User, bool) -> Answer)

  predicate Unrepeated(keys: seq<string>) { forall i, j :: 0 <= i < j < |keys| ==> keys[i] != keys[j] }

  /** What is remembered for the rest of the event. asked is every key the finder was asked about,
      installs how often it was told to install. */
  class Resolver {
    const fold: char -> char
    const finder: Finder
    const globalInstall: bool
    const start: int
    var resolved: Answers
    var budget: int
    ghost var asked: seq<string>
    ghost var installs: nat

    ghost predicate Valid()
      reads this
    {
      && Unrepeated(asked) && (forall key :: key in asked <==> key in resolved)
      && installs + budget == start && (installs > 0 ==> budget >= 0 && globalInstall)
    }

    constructor (fold: char -> char, finder: Finder, globalInstall: bool, start: int)
      ensures Valid() && this.fold == fold && this.finder == finder && this.globalInstall == globalInstall && this.start == start
      ensures resolved == map[] && asked == [] && installs == 0
    {
      this.fold, this.finder, this.globalInstall, this.start := fold, finder, globalInstall, start;
      resolved, budget, asked, installs := map[], start, [], 0;
    }

    /** The app is installed now: the person has no chat with it, there is budget left and the tenant allows it. */
    ghost predicate InstallsFor(u: User)
      reads this
    {
      !(u.installed && u.conversationId != "") && budget > 0 && globalInstall
    }

    /** resolvePerson. A person found for the first time is made sure of, and only who needs a chat takes from the budget. */
    method ResolvePerson(address: string) returns (answer: Answer)
      requires Valid()
      modifies this
      ensures Valid() && Extends(old(resolved), resolved)
      ensures Lower(fold, address) in resolved && answer == AnswerTo(resolved, fold, address)
      ensures resolved.Keys == old(resolved).Keys + {Lower(fold, address)}
      ensures asked == if Lower(fold, address) in old(resolved) then old(asked) else old(asked) + [Lower(fold, address)]
      ensures installs == old(installs) ||
              (installs == old(installs) + 1 && old(budget) > 0 && globalInstall && finder.resolve(address).Found?)
      ensures Lower(fold, address) in old(resolved) ==> installs == old(installs) && answer == old(resolved)[Lower(fold, address)]
      ensures Lower(fold, address) !in old(resolved) && !finder.resolve(address).Found? ==>
                installs == old(installs) && answer == finder.resolve(address)
      ensures Lower(fold, address) !in old(resolved) && finder.resolve(address).Found? ==>
                var u := finder.resolve(address).user;
                && installs == old(installs) + (if old(InstallsFor(u)) then 1 else 0)
                && answer == finder.ensureChat(u, old(InstallsFor(u)))
    {
      var key := Lower(fold, address);
      if key in resolved { return resolved[key]; }
      answer := finder.resolve(address);
      if answer.Found? {
        var u := answer.user;
        var needsChat := !u.installed || u.conversationId == "";
        var install := needsChat && budget > 0 && globalInstall;
        if install {
          budget := budget - 1;
          installs := installs + 1;
        }
        answer := finder.ensureChat(u, install);
      }
      resolved := resolved[key := answer];
      asked := asked + [key];
    }
  }

  /** No event installs for more people than its budget, and no address is looked up twice. */
  lemma WithinBudget(r: Resolver)
    requires r.Valid()
    ensures r.start >= 0 ==> r.installs <= r.start
    ensures r.start <= 0 ==> r.installs == 0
    ensures Unrepeated(r.asked)
  {}

  /** One address more has been looked up. */
  lemma OneMoreAnswer(before: Answers, after: Answers, fold: char -> char, d: Delivery, addresses: seq<string>, n: nat)
    requires n < |addresses| && Answered(before, fold, addresses, n) && Extends(before, after)
    requires Lower(fold, addresses[n]) in after
    ensures Answered(after, fold, addresses, n + 1)
    ensures Expanded(before, fold, d, addresses, n) == Expanded(after, fold, d, addresses, n)
    ensures People(before, fold, addresses, n) == People(after, fold, addresses, n)
    ensures Misses(before, fold, addresses, n) == Misses(after, fold, addresses, n)
    ensures Failures(before, fold, addresses, n) == Failures(after, fold, addresses, n)
  {
    SameSoFar(before, after, fold, addresses, n);
    SameExpanded(before, after, fold, d, addresses, n);
  }

  /** at: where each person's delivery sits. */
  ghost predicate Sits(at: map<string, nat>, people: seq<string>, offset: nat) {
    && (forall id :: id in at <==> id in people)
    && forall id :: id in at ==> offset <= at[id] < offset + |people| && people[at[id] - offset] == id
  }

  /** The turn of the inner loop that puts a resolved person into the plan. */
  method PlacePerson(d: Delivery, address: string, id: string, before: seq<Delivery>, at: map<string, nat>,
      ghost people: seq<string>, ghost offset: nat)
      returns (out: seq<Delivery>, places: map<string, nat>, anew: bool)
    requires Sits(at, people, offset) && |before| == offset + |people|
    ensures anew <==> id !in people
    ensures anew ==> out == before + [d.(personId := id, addresses := [address])] && Sits(places, people + [id], offset)
    ensures !anew ==> places == at && id in at && offset <= at[id] < |before| && people[at[id] - offset] == id &&
                      out == Readdressed(before, at[id], address)
  {
    places, anew := at, id !in at;
    if anew {
      places := at[id := |before|];
      out := before + [d.(personId := id, addresses := [address])];
    } else {
      out := Readdressed(before, at[id], address);
    }
  }

  /** a is the first of the first n addresses that names the person. */
  ghost predicate NamedFirst(answers: Answers, fold: char -> char, addresses: seq<string>, n: nat, id: string, a: string)
    requires n <= |addresses|
  {
    exists k :: 0 <= k < n && addresses[k] == a && Names(answers, fold, addresses[k], id)
                && forall i :: 0 <= i < k ==> !Names(answers, fold, addresses[i], id)
  }

  /** How many addresses have been looked up when the inner loop has done j, and was is what the outer one has named. */
  function LookedUp(was: map<string, string>, addresses: seq<string>, j: nat): nat {
    if was == map[] then j else |addresses|
  }

  /** addressOf after j addresses of one more delivery: the people named before and now, each by the
      first address that names them. */
  ghost predicate AddressOf(answers: Answers, fold: char -> char, addresses: seq<string>, j: nat, was: map<string, string>,
      named: map<string, string>)
    requires j <= |addresses|
  {
    && (forall id :: id in named <==> id in was || id in People(answers, fold, addresses, j))
    && forall id :: id in named ==> NamedFirst(answers, fold, addresses, LookedUp(was, addresses, j), id, named[id])
  }

  lemma NamedFirstLater(answers: Answers, more: Answers, fold: char -> char, addresses: seq<string>, n: nat, m: nat, id: string, a: string)
    requires n <= m <= |addresses| && Extends(answers, more) && Answered(answers, fold, addresses, n)
    requires NamedFirst(answers, fold, addresses, n, id, a)
    ensures NamedFirst(more, fold, addresses, m, id, a)
  {
    var k :| 0 <= k < n && addresses[k] == a && Names(answers, fold, addresses[k], id)
             && forall i :: 0 <= i < k ==> !Names(answers, fold, addresses[i], id);
    assert forall i :: 0 <= i <= k ==> Names(more, fold, addresses[i], id) == Names(answers, fold, addresses[i], id);
  }

  /** More answers leave the first addresses what they are. */
  lemma AddressOfLater(answers: Answers, more: Answers, fold: char -> char, addresses: seq<string>, j: nat,
      was: map<string, string>, named: map<string, string>)
    requires j <= |addresses| && Extends(answers, more)
    requires Answered(answers, fold, addresses, LookedUp(was, addresses, j)) && AddressOf(answers, fold, addresses, j, was, named)
    ensures AddressOf(more, fold, addresses, j, was, named)
  {
    if j <= LookedUp(was, addresses, j) { SameSoFar(answers, more, fold, addresses, j); }
    forall id | id in named
      ensures NamedFirst(more, fold, addresses, LookedUp(was, addresses, j), id, named[id])
    {
      var n := LookedUp(was, addresses, j);
      NamedFirstLater(answers, more, fold, addresses, n, n, id, named[id]);
    }
  }

  lemma NewIsNamedFirst(answers: Answers, fold: char -> char, addresses: seq<string>, j: nat, n: nat, id: string)
    requires j < n <= |addresses| && Names(answers, fold, addresses[j], id) && id !in People(answers, fold, addresses, j)
    ensures NamedFirst(answers, fold, addresses, n, id, addresses[j])
  {
    PeopleOnce(answers, fold, addresses, j);
    assert NamesExactly(answers, fold, addresses, j, id, People(answers, fold, addresses, j));
  }

  /** The next address names somebody new, somebody known, or nobody. */
  lemma AddressOfMore(answers: Answers, fold: char -> char, addresses: seq<string>, j: nat, was: map<string, string>,
      named: map<string, string>, anew: bool, id: string)
    requires j < |addresses| && Answered(answers, fold, addresses, LookedUp(was, addresses, j))
    requires AddressOf(answers, fold, addresses, j, was, named)
    requires anew ==> Names(answers, fold, addresses[j], id) && id !in People(answers, fold, addresses, j)
    requires People(answers, fold, addresses, j + 1) == People(answers, fold, addresses, j) + if anew then [id] else []
    ensures AddressOf(answers, fold, addresses, j + 1, was, if anew then named[id := addresses[j]] else named)
  {
    var n, m := LookedUp(was, addresses, j), LookedUp(was, addresses, j + 1);
    forall q | q in named
      ensures NamedFirst(answers, fold, addresses, m, q, named[q])
    {
      NamedFirstLater(answers, answers, fold, addresses, n, m, q, named[q]);
    }
    if anew { NewIsNamedFirst(answers, fold, addresses, j, m, id); }
  }

  /** Where the inner loop stands after j addresses. */
  datatype Progress = Progress(
    out: seq<Delivery>, at: map<string, nat>, named: map<string, string>, misses: seq<Miss>, failures: seq<string>)

  ghost predicate Stands(answers: Answers, fold: char -> char, d: Delivery, addresses: seq<string>, j: nat,
      before: seq<Delivery>, p: Progress)
    requires j <= |addresses|
  {
    && p.out == before + Expanded(answers, fold, d, addresses, j)
    && Sits(p.at, People(answers, fold, addresses, j), |before|)
    && p.misses == Misses(answers, fold, addresses, j) && p.failures == Failures(answers, fold, addresses, j)
  }

  /** addressOf[u.AADObjectID] = address, where the person is new to the delivery. */
  function NamedNow(answer: Answer, at: map<string, nat>, named: map<string, string>, address: string): map<string, string> {
    if answer.Found? && answer.user.objectId !in at then named[answer.user.objectId := address] else named
  }

  /** One turn of the inner loop. */
  method Turn(ghost answers: Answers, fold: char -> char, d: Delivery, addresses: seq<string>, j: nat,
      ghost before: seq<Delivery>, p: Progress, answer: Answer)
      returns (q: Progress)
    requires j < |addresses| && Stands(answers, fold, d, addresses, j, before, p)
    requires answer == AnswerTo(answers, fold, addresses[j])
    ensures Stands(answers, fold, d, addresses, j + 1, before, q)
    ensures q.named == NamedNow(answer, p.at, p.named, addresses[j])
  {
    ExpandedMore(answers, fold, d, addresses, j);
    match answer {
      case Unreachable(reason) => q := p.(misses := p.misses + [Miss(addresses[j], reason)]);
      case Failing => q := p.(failures := p.failures + [addresses[j]]);
      case Found(u) =>
        ghost var people := People(answers, fold, addresses, j);
        var out, at, anew := PlacePerson(d, addresses[j], u.objectId, p.out, p.at, people, |before|);
        q := p.(out := out, at := at, named := NamedNow(answer, p.at, p.named, addresses[j]));
        PersonPlaced(answers, fold, d, addresses, j, before, p, q, u.objectId, anew);
    }
  }

  lemma PersonPlaced(answers: Answers, fold: char -> char, d: Delivery, addresses: seq<string>, j: nat,
      before: seq<Delivery>, p: Progress, q: Progress, id: string, anew: bool)
    requires j < |addresses| && Stands(answers, fold, d, addresses, j, before, p)
    requires Names(answers, fold, addresses[j], id)
    requires anew <==> id !in People(answers, fold, addresses, j)
    requires anew ==> q.out == p.out + [d.(personId := id, addresses := [addresses[j]])] &&
                      Sits(q.at, People(answers, fold, addresses, j) + [id], |before|)
    requires !anew ==> q.at == p.at && id in p.at && q.out == Readdressed(p.out, p.at[id], addresses[j])
    requires q.misses == p.misses && q.failures == p.failures
    ensures Stands(answers, fold, d, addresses, j + 1, before, q)
  {
    ExpandedMore(answers, fold, d, addresses, j);
    var people := People(answers, fold, addresses, j);
    var earlier := Expanded(answers, fold, d, addresses, j);
    if anew {
      assert People(answers, fold, addresses, j + 1) == people + [id];
      assert p.out + [d.(personId := id, addresses := [addresses[j]])] == before + (earlier + [d.(personId := id, addresses := [addresses[j]])]);
    } else {
      assert People(answers, fold, addresses, j + 1) == people;
      var i := p.at[id] - |before|;
      assert people[i] == id;
      assert Readdressed(p.out, p.at[id], addresses[j]) == before + Readdressed(earlier, i, addresses[j]);
    }
  }

  /** The inner loop: an addressed delivery becomes one per person, and each person is reported under
      the first address that names them. */
  method ExpandOne(r: Resolver, d: Delivery, addresses: seq<string>, before: seq<Delivery>, was: map<string, string>)
      returns (out: seq<Delivery>, named: map<string, string>, misses: seq<Miss>, failures: seq<string>)
    requires r.Valid()
    requires was != map[] ==> Answered(r.resolved, r.fold, addresses, |addresses|)
    requires AddressOf(r.resolved, r.fold, addresses, 0, was, was)
    modifies r
    ensures r.Valid() && Extends(old(r.resolved), r.resolved)
    ensures Answered(r.resolved, r.fold, addresses, |addresses|)
    ensures out == before + Expanded(r.resolved, r.fold, d, addresses, |addresses|)
    ensures misses == Misses(r.resolved, r.fold, addresses, |addresses|)
    ensures failures == Failures(r.resolved, r.fold, addresses, |addresses|)
    ensures AddressOf(r.resolved, r.fold, addresses, |addresses|, was, named)
  {
    var p := Progress(before, map[], was, [], []);
    StandsAtStart(r.resolved, r.fold, d, addresses, before, was);
    for j := 0 to |addresses|
      invariant r.Valid() && Extends(old(r.resolved), r.resolved) && Answered(r.resolved, r.fold, addresses, j)
      invariant Stands(r.resolved, r.fold, d, addresses, j, before, p)
      invariant Answered(r.resolved, r.fold, addresses, LookedUp(was, addresses, j))
      invariant AddressOf(r.resolved, r.fold, addresses, j, was, p.named)
    {
      p := NextAddress(r, d, addresses, j, before, was, p);
    }
    out, named, misses, failures := p.out, p.named, p.misses, p.failures;
  }

  lemma StandsAtStart(answers: Answers, fold: char -> char, d: Delivery, addresses: seq<string>, before: seq<Delivery>,
      was: map<string, string>)
    ensures Stands(answers, fold, d, addresses, 0, before, Progress(before, map[], was, [], []))
  {
    assert before + Expanded(answers, fold, d, addresses, 0) == before;
  }

  /** One address: resolved, and put where it belongs. */
  method NextAddress(r: Resolver, d: Delivery, addresses: seq<string>, j: nat, ghost before: seq<Delivery>,
      ghost was: map<string, string>, p: Progress)
      returns (q: Progress)
    requires r.Valid() && j < |addresses| && Answered(r.resolved, r.fold, addresses, j)
    requires Stands(r.resolved, r.fold, d, addresses, j, before, p)
    requires Answered(r.resolved, r.fold, addresses, LookedUp(was, addresses, j))
    requires AddressOf(r.resolved, r.fold, addresses, j, was, p.named)
    modifies r
    ensures r.Valid() && Extends(old(r.resolved), r.resolved) && Answered(r.resolved, r.fold, addresses, j + 1)
    ensures Stands(r.resolved, r.fold, d, addresses, j + 1, before, q)
    ensures Answered(r.resolved, r.fold, addresses, LookedUp(was, addresses, j + 1))
    ensures AddressOf(r.resolved, r.fold, addresses, j + 1, was, q.named)
  {
    ghost var earlier := r.resolved;
    var answer := r.ResolvePerson(addresses[j]);
    OneMoreAnswer(earlier, r.resolved, r.fold, d, addresses, j);
    q := Turn(r.resolved, r.fold, d, addresses, j, before, p, answer);
    NamedAfter(earlier, r.resolved, r.fold, addresses, j, was, p.at, p.named, answer, |before|);
  }

  lemma NamedAfter(earlier: Answers, answers: Answers, fold: char -> char, addresses: seq<string>, j: nat, was: map<string, string>,
      at: map<string, nat>, named: map<string, string>, answer: Answer, offset: nat)
    requires j < |addresses| && Extends(earlier, answers) && answer == AnswerTo(answers, fold, addresses[j])
    requires Answered(earlier, fold, addresses, LookedUp(was, addresses, j)) && AddressOf(earlier, fold, addresses, j, was, named)
    requires Answered(answers, fold, addresses, j + 1) && Sits(at, People(answers, fold, addresses, j), offset)
    ensures Answered(answers, fold, addresses, LookedUp(was, addresses, j + 1))
    ensures AddressOf(answers, fold, addresses, j + 1, was, NamedNow(answer, at, named, addresses[j]))
  {
    AddressOfLater(earlier, answers, fold, addresses, j, was, named);
    AddressOfMore(answers, fold, addresses, j, was, named,
      answer.Found? && answer.user.objectId !in at, if answer.Found? then answer.user.objectId else "");
  }

  // The whole plan.

  function ConcatMap<A, B>(f: A -> seq<B>, xs: seq<A>, n: nat): seq<B>
    requires n <= |xs|
  {
    if n == 0 then [] else ConcatMap(f, xs, n - 1) + f(xs[n - 1])
  }

  function All<A, B>(g: A -> seq<B>, xs: seq<A>): seq<B> { ConcatMap(g, xs, |xs|) }

  lemma {:induction false} SameConcat<A, B>(f: A -> seq<B>, g: A -> seq<B>, xs: seq<A>, n: nat)
    requires n <= |xs| && forall i :: 0 <= i < n ==> f(xs[i]) == g(xs[i])
    ensures ConcatMap(f, xs, n) == ConcatMap(g, xs, n)
  {
    if n > 0 { SameConcat(f, g, xs, n - 1); }
  }

  lemma OneMore<A, B>(f: A -> seq<B>, xs: seq<A>, n: nat)
    requires n < |xs|
    ensures ConcatMap(f, xs, n + 1) == ConcatMap(f, xs, n) + f(xs[n])
  {}

  /** What a delivery of the plan becomes; without a people finder every one stays. */
  function Parts(answers: Answers, fold: char -> char, finds: bool, addresses: seq<string>): Delivery -> seq<Delivery> {
    (d: Delivery) => if !d.addressed || !finds then [d] else Expanded(answers, fold, d, addresses, |addresses|)
  }

  function MissParts(answers: Answers, fold: char -> char, finds: bool, addresses: seq<string>): Delivery -> seq<Miss> {
    (d: Delivery) =>
      if !d.addressed || !finds then []
      else if addresses == [] then [Miss("", NoRecipient)]
      else Misses(answers, fold, addresses, |addresses|)
  }

  function FailParts(answers: Answers, fold: char -> char, finds: bool, addresses: seq<string>): Delivery -> seq<string> {
    (d: Delivery) => if !d.addressed || !finds then [] else Failures(answers, fold, addresses, |addresses|)
  }

  predicate HasAddressed(finds: bool, plan: seq<Delivery>, m: nat)
    requires m <= |plan|
  {
    finds && exists i :: 0 <= i < m && plan[i].addressed
  }

  lemma SamePlan(before: Answers, after: Answers, fold: char -> char, finds: bool, plan: seq<Delivery>,
      addresses: seq<string>, m: nat)
    requires m <= |plan| && Extends(before, after)
    requires HasAddressed(finds, plan, m) ==> Answered(before, fold, addresses, |addresses|)
    ensures ConcatMap(Parts(before, fold, finds, addresses), plan, m) == ConcatMap(Parts(after, fold, finds, addresses), plan, m)
    ensures ConcatMap(MissParts(before, fold, finds, addresses), plan, m) == ConcatMap(MissParts(after, fold, finds, addresses), plan, m)
    ensures ConcatMap(FailParts(before, fold, finds, addresses), plan, m) == ConcatMap(FailParts(after, fold, finds, addresses), plan, m)
  {
    forall i | 0 <= i < m
      ensures Parts(before, fold, finds, addresses)(plan[i]) == Parts(after, fold, finds, addresses)(plan[i])
      ensures MissParts(before, fold, finds, addresses)(plan[i]) == MissParts(after, fold, finds, addresses)(plan[i])
      ensures FailParts(before, fold, finds, addresses)(plan[i]) == FailParts(after, fold, finds, addresses)(plan[i])
    {
      if plan[i].addressed && finds {
        SameSoFar(before, after, fold, addresses, |addresses|);
        SameExpanded(before, after, fold, plan[i], addresses, |addresses|);
      }
    }
    SameConcat(Parts(before, fold, finds, addresses), Parts(after, fold, finds, addresses), plan, m);
    SameConcat(MissParts(before, fold, finds, addresses), MissParts(after, fold, finds, addresses), plan, m);
    SameConcat(FailParts(before, fold, finds, addresses), FailParts(after, fold, finds, addresses), plan, m);
  }

  /** Everything the outer loop has collected from the first m deliveries. */
  ghost predicate Collected(answers: Answers, fold: char -> char, finds: bool, plan: seq<Delivery>, addresses: seq<string>, m: nat,
      out: seq<Delivery>, misses: seq<Miss>, failures: seq<string>)
    requires m <= |plan|
  {
    && out == ConcatMap(Parts(answers, fold, finds, addresses), plan, m)
    && misses == ConcatMap(MissParts(answers, fold, finds, addresses), plan, m)
    && failures == ConcatMap(FailParts(answers, fold, finds, addresses), plan, m)
  }

  /** addressOf after m deliveries: everyone some address names, by the first that does, once an
      addressed delivery has been expanded. */
  ghost predicate Named(answers: Answers, fold: char -> char, finds: bool, plan: seq<Delivery>, addresses: seq<string>, m: nat,
      named: map<string, string>)
    requires m <= |plan|
  {
    if HasAddressed(finds, plan, m) then AddressOf(answers, fold, addresses, |addresses|, map[], named) else named == map[]
  }

  lemma NamedNext(before: Answers, after: Answers, fold: char -> char, finds: bool, plan: seq<Delivery>, addresses: seq<string>,
      m: nat, was: map<string, string>, named: map<string, string>)
    requires m < |plan| && Named(before, fold, finds, plan, addresses, m, was)
    requires if plan[m].addressed && finds then AddressOf(after, fold, addresses, |addresses|, was, named)
             else named == was && after == before
    requires HasAddressed(finds, plan, m) ==> Extends(before, after) && Answered(before, fold, addresses, |addresses|)
    ensures Named(after, fold, finds, plan, addresses, m + 1, named)
  {
    if plan[m].addressed && finds && HasAddressed(finds, plan, m) {
      SameSoFar(before, after, fold, addresses, |addresses|);
    }
  }

  lemma NamedAtStart(answers: Answers, fold: char -> char, finds: bool, plan: seq<Delivery>, addresses: seq<string>, m: nat,
      was: map<string, string>)
    requires m <= |plan| && Named(answers, fold, finds, plan, addresses, m, was)
    ensures AddressOf(answers, fold, addresses, 0, was, was)
  {}

  /** Without a finder the plan stays. */
  lemma {:induction false} NothingToFind(answers: Answers, fold: char -> char, plan: seq<Delivery>, addresses: seq<string>, m: nat)
    requires m <= |plan|
    ensures ConcatMap(Parts(answers, fold, false, addresses), plan, m) == plan[..m]
    ensures ConcatMap(MissParts(answers, fold, false, addresses), plan, m) == []
    ensures ConcatMap(FailParts(answers, fold, false, addresses), plan, m) == []
  {
    if m > 0 {
      NothingToFind(answers, fold, plan, addresses, m - 1);
      assert plan[..m] == plan[..m - 1] + [plan[m - 1]];
    }
  }

  function AddressedPlaces(plan: seq<Delivery>, m: nat): set<nat>
    requires m <= |plan|
  {
    set i: nat | i < m && plan[i].addressed
  }

  lemma OnePlaceMore(plan: seq<Delivery>, m: nat)
    requires m < |plan|
    ensures |AddressedPlaces(plan, m + 1)| == |AddressedPlaces(plan, m)| + if plan[m].addressed then 1 else 0
  {
    assert AddressedPlaces(plan, m + 1) == AddressedPlaces(plan, m) + if plan[m].addressed then {m} else {};
  }

  lemma {:induction false} NothingOf<A, B>(f: A -> seq<B>, xs: seq<A>, n: nat)
    requires n <= |xs| && forall i :: 0 <= i < n ==> f(xs[i]) == []
    ensures ConcatMap(f, xs, n) == []
  {
    if n > 0 { NothingOf(f, xs, n - 1); }
  }

  /** What an addressed delivery comes to when the event names nobody. */
  function OneMiss(d: Delivery): seq<Miss> { if d.addressed then [Miss("", "no-recipient")] else [] }

  lemma PartsOfNone(answers: Answers, fold: char -> char, d: Delivery)
    ensures Parts(answers, fold, true, [])(d) == Plain(d)
    ensures MissParts(answers, fold, true, [])(d) == OneMiss(d)
    ensures FailParts(answers, fold, true, [])(d) == []
  {
    assert Expanded(answers, fold, d, [], 0) == [];
  }

  ghost predicate OneEach(misses: seq<Miss>, n: nat) { |misses| == n && forall i :: 0 <= i < n ==> misses[i] == Miss("", "no-recipient") }

  lemma {:induction false} OneMissEach(plan: seq<Delivery>, m: nat)
    requires m <= |plan|
    ensures OneEach(ConcatMap(OneMiss, plan, m), |AddressedPlaces(plan, m)|)
  {
    if m > 0 {
      OneMissEach(plan, m - 1);
      OnePlaceMore(plan, m - 1);
    } else {
      assert AddressedPlaces(plan, 0) == {};
    }
  }

  /** An event that names nobody is reported once for each addressed delivery, and those go. */
  lemma {:induction false} NobodyNamed(answers: Answers, fold: char -> char, plan: seq<Delivery>)
    ensures All(Parts(answers, fold, true, []), plan) == Others(plan)
    ensures OneEach(All(MissParts(answers, fold, true, []), plan), |AddressedPlaces(plan, |plan|)|)
    ensures All(FailParts(answers, fold, true, []), plan) == []
  {
    forall i | 0 <= i < |plan|
      ensures Parts(answers, fold, true, [])(plan[i]) == Plain(plan[i]) && MissParts(answers, fold, true, [])(plan[i]) == OneMiss(plan[i])
      ensures FailParts(answers, fold, true, [])(plan[i]) == []
    {
      PartsOfNone(answers, fold, plan[i]);
    }
    SameConcat(Parts(answers, fold, true, []), Plain, plan, |plan|);
    SameConcat(MissParts(answers, fold, true, []), OneMiss, plan, |plan|);
    NothingOf(FailParts(answers, fold, true, []), plan, |plan|);
    OneMissEach(plan, |plan|);
  }

  /** expandAddressed. */
  method ExpandAddressed(r: Resolver, finds: bool, plan: seq<Delivery>, addresses: seq<string>)
      returns (out: seq<Delivery>, addressOf: map<string, string>, misses: seq<Miss>, failures: seq<string>)
    requires r.Valid()
    modifies r
    ensures r.Valid() && Extends(old(r.resolved), r.resolved)
    ensures HasAddressed(finds, plan, |plan|) ==> Answered(r.resolved, r.fold, addresses, |addresses|)
    ensures Collected(r.resolved, r.fold, finds, plan, addresses, |plan|, out, misses, failures)
    ensures Named(r.resolved, r.fold, finds, plan, addresses, |plan|, addressOf)
    ensures (r.start >= 0 ==> r.installs <= r.start) && (r.start <= 0 ==> r.installs == 0) && Unrepeated(r.asked)
    ensures Others(out) == Others(plan)
    ensures !finds ==> out == plan && misses == [] && failures == []
    ensures finds && addresses == [] ==>
              && out == Others(plan) && failures == []
              && OneEach(misses, |AddressedPlaces(plan, |plan|)|)
  {
    out, addressOf, misses, failures := [], map[], [], [];
    for m := 0 to |plan|
      invariant r.Valid() && Extends(old(r.resolved), r.resolved)
      invariant HasAddressed(finds, plan, m) ==> Answered(r.resolved, r.fold, addresses, |addresses|)
      invariant Collected(r.resolved, r.fold, finds, plan, addresses, m, out, misses, failures)
      invariant Named(r.resolved, r.fold, finds, plan, addresses, m, addressOf)
    {
      out, addressOf, misses, failures := NextDelivery(r, finds, plan, addresses, m, out, addressOf, misses, failures);
    }
    WithinBudget(r);
    OthersKeepTheirOrder(r.resolved, r.fold, finds, plan, addresses);
    NothingToFind(r.resolved, r.fold, plan, addresses, |plan|);
    NobodyNamed(r.resolved, r.fold, plan);
  }

  /** One turn of the outer loop. */
  method NextDelivery(r: Resolver, finds: bool, plan: seq<Delivery>, addresses: seq<string>, m: nat,
      before: seq<Delivery>, was: map<string, string>, missed: seq<Miss>, failed: seq<string>)
      returns (out: seq<Delivery>, addressOf: map<string, string>, misses: seq<Miss>, failures: seq<string>)
    requires r.Valid() && m < |plan|
    requires HasAddressed(finds, plan, m) ==> Answered(r.resolved, r.fold, addresses, |addresses|)
    requires Collected(r.resolved, r.fold, finds, plan, addresses, m, before, missed, failed)
    requires Named(r.resolved, r.fold, finds, plan, addresses, m, was)
    modifies r
    ensures r.Valid() && Extends(old(r.resolved), r.resolved)
    ensures HasAddressed(finds, plan, m + 1) ==> Answered(r.resolved, r.fold, addresses, |addresses|)
    ensures Collected(r.resolved, r.fold, finds, plan, addresses, m + 1, out, misses, failures)
    ensures Named(r.resolved, r.fold, finds, plan, addresses, m + 1, addressOf)
  {
    ghost var earlier := r.resolved;
    out, addressOf, misses, failures := before, was, missed, failed;
    if !plan[m].addressed || !finds {
      out := out + [plan[m]];
    } else if addresses == [] {
      misses := misses + [Miss("", NoRecipient)];
    } else {
      var ms, fs;
      NamedAtStart(r.resolved, r.fold, finds, plan, addresses, m, was);
      out, addressOf, ms, fs := ExpandOne(r, plan[m], addresses, out, was);
      misses, failures := misses + ms, failures + fs;
    }
    NamedNext(earlier, r.resolved, r.fold, finds, plan, addresses, m, was, addressOf);
    SamePlan(earlier, r.resolved, r.fold, finds, plan, addresses, m);
    OneMore(Parts(r.resolved, r.fold, finds, addresses), plan, m);
    OneMore(MissParts(r.resolved, r.fold, finds, addresses), plan, m);
    OneMore(FailParts(r.resolved, r.fold, finds, addresses), plan, m);
  }

  /** A delivery that is not addressed. */
  function Plain(d: Delivery): seq<Delivery> { if d.addressed then [] else [d] }

  function Others(ds: seq<Delivery>): seq<Delivery> { All(Plain, ds) }

  lemma {:induction false} ConcatPrefix<A, B>(g: A -> seq<B>, xs: seq<A>, ys: seq<A>, n: nat)
    requires n <= |xs|
    ensures ConcatMap(g, xs + ys, n) == ConcatMap(g, xs, n)
  {
    if n > 0 { ConcatPrefix(g, xs, ys, n - 1); }
  }

  lemma {:induction false} ConcatAppend<A, B>(g: A -> seq<B>, xs: seq<A>, ys: seq<A>, n: nat)
    requires n <= |ys|
    ensures ConcatMap(g, xs + ys, |xs| + n) == ConcatMap(g, xs, |xs|) + ConcatMap(g, ys, n)
  {
    if n > 0 { ConcatAppend(g, xs, ys, n - 1); } else { ConcatPrefix(g, xs, ys, |xs|); }
  }

  ghost predicate Absorbs<A>(g: A -> seq<A>, f: A -> seq<A>, x: A) { All(g, f(x)) == g(x) }

  /** A map that keeps what another keeps of each item keeps it of the list. */
  lemma {:induction false} ConcatAbsorbs<A>(g: A -> seq<A>, f: A -> seq<A>, xs: seq<A>, n: nat)
    requires n <= |xs| && forall i :: 0 <= i < n ==> Absorbs(g, f, xs[i])
    ensures All(g, ConcatMap(f, xs, n)) == ConcatMap(g, xs, n)
  {
    if n > 0 {
      ConcatAbsorbs(g, f, xs, n - 1);
      assert Absorbs(g, f, xs[n - 1]);
      AllAppend(g, ConcatMap(f, xs, n - 1), f(xs[n - 1]));
    }
  }

  lemma AllAppend<A, B>(g: A -> seq<B>, xs: seq<A>, ys: seq<A>)
    ensures All(g, xs + ys) == All(g, xs) + All(g, ys)
  {
    ConcatAppend(g, xs, ys, |ys|);
    assert |xs + ys| == |xs| + |ys|;
  }

  lemma {:induction false} NothingPlain(ds: seq<Delivery>, n: nat)
    requires n <= |ds| && forall i :: 0 <= i < |ds| ==> ds[i].addressed
    ensures ConcatMap(Plain, ds, n) == []
  {
    if n > 0 { NothingPlain(ds, n - 1); }
  }

  lemma PartsAbsorbed(answers: Answers, fold: char -> char, finds: bool, d: Delivery, addresses: seq<string>)
    ensures Absorbs(Plain, Parts(answers, fold, finds, addresses), d)
  {
    var part := Parts(answers, fold, finds, addresses)(d);
    if d.addressed { NothingPlain(part, |part|); } else { OneMore(Plain, part, 0); }
  }

  /** The deliveries that are not addressed stay, in their order. */
  lemma {:induction false} OthersKeepTheirOrder(answers: Answers, fold: char -> char, finds: bool, plan: seq<Delivery>, addresses: seq<string>)
    ensures Others(ConcatMap(Parts(answers, fold, finds, addresses), plan, |plan|)) == Others(plan)
  {
    forall i | 0 <= i < |plan|
      ensures Absorbs(Plain, Parts(answers, fold, finds, addresses), plan[i])
    {
      PartsAbsorbed(answers, fold, finds, plan[i], addresses);
    }
    ConcatAbsorbs(Plain, Parts(answers, fold, finds, addresses), plan, |plan|);
  }

  // Delivering.

  /** How sending one delivery ends. */
  datatype Sent = Arrived | BlockedBot | Failed

  /** What it counts as: a person who blocked the bot is reported, everyone else's trouble is a failure. */
  datatype Fate = Delivered | Undelivered | Failure

  function FateOf(d: Delivery, sent: Sent): Fate {
    match sent
    case Arrived => Delivered
    case BlockedBot => if d.personId != "" then Undelivered else Failure
    case Failed => Failure
  }

  /** report, with the failures: those undelivered are reported by the address they were named by. */
  datatype Report = Report(delivered: nat, undelivered: multiset<Miss>, failures: nat)

  function MissOf(d: Delivery, addressOf: string -> string): Miss { Miss(addressOf(d.personId), Blocked) }

  /** The tally of the first n deliveries of a plan, as one after the other would give it. */
  function Tally(plan: seq<Delivery>, sent: seq<Sent>, addressOf: string -> string, n: nat): Report
    requires n <= |plan| == |sent|
  {
    if n == 0 then Report(0, multiset{}, 0)
    else Plus(Tally(plan, sent, addressOf, n - 1), plan[n - 1], sent[n - 1], addressOf)
  }

  function Plus(rep: Report, d: Delivery, sent: Sent, addressOf: string -> string): Report {
    match FateOf(d, sent)
    case Delivered => rep.(delivered := rep.delivered + 1)
    case Undelivered => rep.(undelivered := rep.undelivered + multiset{MissOf(d, addressOf)})
    case Failure => rep.(failures := rep.failures + 1)
  }

  /** Every delivery of the plan is in exactly one of the three. */
  lemma {:induction false} EveryDeliveryCounts(plan: seq<Delivery>, sent: seq<Sent>, addressOf: string -> string, n: nat)
    requires n <= |plan| == |sent|
    ensures var rep := Tally(plan, sent, addressOf, n); rep.delivered + |rep.undelivered| + rep.failures == n
  {
    if n > 0 { EveryDeliveryCounts(plan, sent, addressOf, n - 1); }
  }

  /** A person's delivery that found the bot blocked. */
  predicate FoundBlocked(d: Delivery, sent: Sent) { sent.BlockedBot? && d.personId != "" }

  function ArrivedPlaces(sent: seq<Sent>, n: nat): set<nat>
    requires n <= |sent|
  {
    set i: nat | i < n && sent[i].Arrived?
  }

  /** What neither arrived nor found a person's bot blocked. */
  function FailedPlaces(plan: seq<Delivery>, sent: seq<Sent>, n: nat): set<nat>
    requires n <= |plan| == |sent|
  {
    set i: nat | i < n && (sent[i].Failed? || (sent[i].BlockedBot? && plan[i].personId == ""))
  }

  lemma ArrivedNext(sent: seq<Sent>, n: nat)
    requires n < |sent|
    ensures |ArrivedPlaces(sent, n + 1)| == |ArrivedPlaces(sent, n)| + if sent[n].Arrived? then 1 else 0
  {
    assert ArrivedPlaces(sent, n + 1) == ArrivedPlaces(sent, n) + if sent[n].Arrived? then {n} else {};
  }

  lemma FailedNext(plan: seq<Delivery>, sent: seq<Sent>, n: nat)
    requires n < |plan| == |sent|
    ensures |FailedPlaces(plan, sent, n + 1)| ==
            |FailedPlaces(plan, sent, n)| + if sent[n].Arrived? || FoundBlocked(plan[n], sent[n]) then 0 else 1
  {
    assert FailedPlaces(plan, sent, n + 1) ==
           FailedPlaces(plan, sent, n) + if sent[n].Arrived? || FoundBlocked(plan[n], sent[n]) then {} else {n};
  }

  /** The people at the given places, each by the address they are known by. */
  function MissesAt(plan: seq<Delivery>, addressOf: string -> string, at: seq<nat>): (ms: seq<Miss>)
    requires Below(at, |plan|)
    ensures |ms| == |at| && forall i :: 0 <= i < |at| ==> ms[i] == Miss(addressOf(plan[at[i]].personId), "blocked")
  {
    seq(|at|, i requires 0 <= i < |at| => Miss(addressOf(plan[at[i]].personId), "blocked"))
  }

  /** The places of the people who blocked the bot. */
  ghost predicate BlockedAt(plan: seq<Delivery>, sent: seq<Sent>, n: nat, at: seq<nat>)
    requires n <= |plan| == |sent|
  {
    Increasing(at) && Below(at, n) && forall k :: 0 <= k < n ==> (k in at <==> FoundBlocked(plan[k], sent[k]))
  }

  /** What a report says of the first n deliveries: those that arrived are delivered, the people who
      blocked the bot are reported by their addresses, and the rest failed. */
  ghost predicate Reports(plan: seq<Delivery>, sent: seq<Sent>, addressOf: string -> string, n: nat, rep: Report, at: seq<nat>)
    requires n <= |plan| == |sent|
  {
    && rep.delivered == |ArrivedPlaces(sent, n)| && rep.failures == |FailedPlaces(plan, sent, n)|
    && BlockedAt(plan, sent, n, at) && rep.undelivered == multiset(MissesAt(plan, addressOf, at))
  }

  lemma {:induction false} BlockedNext(plan: seq<Delivery>, sent: seq<Sent>, n: nat, before: seq<nat>, at: seq<nat>)
    requires n < |plan| == |sent| && BlockedAt(plan, sent, n, before)
    requires at == if FoundBlocked(plan[n], sent[n]) then before + [n] else before
    ensures BlockedAt(plan, sent, n + 1, at)
  {
    LastPlace(before, n);
  }

  lemma {:induction false} MissesNext(plan: seq<Delivery>, addressOf: string -> string, at: seq<nat>, n: nat)
    requires n < |plan| && Below(at, n)
    ensures Below(at + [n], |plan|)
    ensures MissesAt(plan, addressOf, at + [n]) == MissesAt(plan, addressOf, at) + [Miss(addressOf(plan[n].personId), "blocked")]
  {}

  lemma {:induction false} ReportsNext(plan: seq<Delivery>, sent: seq<Sent>, addressOf: string -> string, n: nat, rep: Report,
      before: seq<nat>) returns (at: seq<nat>)
    requires n < |plan| == |sent| && Reports(plan, sent, addressOf, n, rep, before)
    ensures Reports(plan, sent, addressOf, n + 1, Plus(rep, plan[n], sent[n], addressOf), at)
  {
    ArrivedNext(sent, n);
    FailedNext(plan, sent, n);
    at := if FoundBlocked(plan[n], sent[n]) then before + [n] else before;
    BlockedNext(plan, sent, n, before, at);
    MissesNext(plan, addressOf, before, n);
  }

  lemma {:induction false} NothingReported(plan: seq<Delivery>, sent: seq<Sent>, addressOf: string -> string) returns (at: seq<nat>)
    requires |plan| == |sent|
    ensures Reports(plan, sent, addressOf, 0, Report(0, multiset{}, 0), at)
  {
    at := [];
    assert ArrivedPlaces(sent, 0) == {} && FailedPlaces(plan, sent, 0) == {} && MissesAt(plan, addressOf, at) == [];
  }

  lemma {:induction false} TallyReports(plan: seq<Delivery>, sent: seq<Sent>, addressOf: string -> string, n: nat) returns (at: seq<nat>)
    requires n <= |plan| == |sent|
    ensures Reports(plan, sent, addressOf, n, Tally(plan, sent, addressOf, n), at)
  {
    if n == 0 {
      at := NothingReported(plan, sent, addressOf);
    } else {
      var before := TallyReports(plan, sent, addressOf, n - 1);
      at := ReportsNext(plan, sent, addressOf, n - 1, Tally(plan, sent, addressOf, n - 1), before);
    }
  }

  /** The tally of the deliveries whose place is in a set. */
  ghost function TallyIn(plan: seq<Delivery>, sent: seq<Sent>, addressOf: string -> string, places: set<nat>, n: nat): Report
    requires n <= |plan| == |sent|
  {
    if n == 0 then Report(0, multiset{}, 0)
    else
      var before := TallyIn(plan, sent, addressOf, places, n - 1);
      if n - 1 in places then Plus(before, plan[n - 1], sent[n - 1], addressOf) else before
  }

  /** Adding one place adds its delivery, wherever it is in the plan. */
  lemma {:induction false} TallyMore(plan: seq<Delivery>, sent: seq<Sent>, addressOf: string -> string, places: set<nat>, k: nat, n: nat)
    requires n <= |plan| == |sent| && k !in places
    ensures TallyIn(plan, sent, addressOf, places + {k}, n) ==
            if k < n then Plus(TallyIn(plan, sent, addressOf, places, n), plan[k], sent[k], addressOf)
            else TallyIn(plan, sent, addressOf, places, n)
  {
    if n > 0 {
      TallyMore(plan, sent, addressOf, places, k, n - 1);
      var before := TallyIn(plan, sent, addressOf, places, n - 1);
      if k == n - 1 {
        assert TallyIn(plan, sent, addressOf, places + {k}, n) == Plus(before, plan[k], sent[k], addressOf);
      } else {
        assert n - 1 in places + {k} <==> n - 1 in places;
        if k < n - 1 { PlusCommutes(before, plan[k], sent[k], plan[n - 1], sent[n - 1], addressOf); }
      }
    }
  }

  lemma PlusCommutes(rep: Report, d: Delivery, s: Sent, e: Delivery, t: Sent, addressOf: string -> string)
    ensures Plus(Plus(rep, d, s, addressOf), e, t, addressOf) == Plus(Plus(rep, e, t, addressOf), d, s, addressOf)
  {}

  lemma {:induction false} TallyAll(plan: seq<Delivery>, sent: seq<Sent>, addressOf: string -> string, places: set<nat>, n: nat)
    requires n <= |plan| == |sent| && forall k :: 0 <= k < n ==> k in places
    ensures TallyIn(plan, sent, addressOf, places, n) == Tally(plan, sent, addressOf, n)
  {
    if n > 0 { TallyAll(plan, sent, addressOf, places, n - 1); }
  }

  lemma {:induction false} TallyNone(plan: seq<Delivery>, sent: seq<Sent>, addressOf: string -> string, n: nat)
    requires n <= |plan| == |sent|
    ensures TallyIn(plan, sent, addressOf, {}, n) == Report(0, multiset{}, 0)
  {
    if n > 0 { TallyNone(plan, sent, addressOf, n - 1); }
  }

  /** deliverEvent: channels and linked chats one after the other, then the people in whatever order
      their goroutines take the lock. It comes to the same tally in any order. */
  method DeliverEvent(plan: seq<Delivery>, sent: seq<Sent>, addressOf: string -> string) returns (rep: Report, ghost at: seq<nat>)
    requires |plan| == |sent|
    ensures Reports(plan, sent, addressOf, |plan|, rep, at)
    ensures rep == Tally(plan, sent, addressOf, |plan|)
    ensures rep.delivered + |rep.undelivered| + rep.failures == |plan|
  {
    rep := Report(0, multiset{}, 0);
    var persons: set<nat> := {};
    ghost var counted: set<nat> := {};
    TallyNone(plan, sent, addressOf, |plan|);
    for i := 0 to |plan|
      invariant rep == TallyIn(plan, sent, addressOf, counted, |plan|)
      invariant forall k: nat :: k in counted || k in persons <==> k < i
      invariant counted !! persons && forall k :: k in persons ==> plan[k].personId != ""
    {
      if plan[i].personId != "" {
        persons := persons + {i};
      } else {
        TallyMore(plan, sent, addressOf, counted, i, |plan|);
        rep := Plus(rep, plan[i], sent[i], addressOf);
        counted := counted + {i};
      }
    }
    while persons != {}
      invariant rep == TallyIn(plan, sent, addressOf, counted, |plan|)
      invariant forall k: nat :: k in counted || k in persons <==> k < |plan|
      invariant counted !! persons
      decreases |persons|
    {
      var k :| k in persons;
      TallyMore(plan, sent, addressOf, counted, k, |plan|);
      rep := Plus(rep, plan[k], sent[k], addressOf);
      counted := counted + {k};
      persons := persons - {k};
    }
    TallyAll(plan, sent, addressOf, counted, |plan|);
    EveryDeliveryCounts(plan, sent, addressOf, |plan|);
    at := TallyReports(plan, sent, addressOf, |plan|);
  }
}
