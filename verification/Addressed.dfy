/** Addressed deliveries (internal/httpserver/addressed.go): each is replaced by one per person the
    event names, every address is resolved once, and the people are delivered to in parallel. */
module Addressed {
  import opened Text

  /** A directory user, as far as it decides about installing the app. */
  datatype User = User(objectId: string, installed: bool, conversationId: string)

  /** What the people finder makes of an address: a person, one who cannot be reached for good and
      why, or an error a retry may fix. */
  datatype Answer = Found(user: User) | Unreachable(reason: string) | Failing

  datatype Delivery = Delivery(route: string, addressed: bool, personId: string, addresses: seq<string>)

  /** undelivered: one person a message could not reach, and why. */
  datatype Miss = Miss(recipient: string, reason: string)

  const NoRecipient := "no-recipient"
  const Blocked := "blocked"

  // Who an event names.

  /** The addresses among the first n entries: trimmed, and each once but for case. */
  function AddressesIn(fold: char -> char, raw: seq<string>, n: nat): seq<string>
    requires n <= |raw|
  {
    if n == 0 then []
    else
      var before := AddressesIn(fold, raw, n - 1);
      var address := Trim(raw[n - 1]);
      before + if address == "" || Lower(fold, address) in Keys(fold, before) then [] else [address]
  }

  function Keys(fold: char -> char, addresses: seq<string>): set<string> { set a | a in addresses :: Lower(fold, a) }

  /** AddressesOf. */
  method AddressesOf(fold: char -> char, raw: seq<string>) returns (out: seq<string>)
    ensures out == AddressesIn(fold, raw, |raw|)
  {
    var seen: set<string> := {};
    out := [];
    for i := 0 to |raw|
      invariant out == AddressesIn(fold, raw, i) && seen == Keys(fold, out)
    {
      var address := Trim(raw[i]);
      var key := Lower(fold, address);
      if address == "" || key in seen { continue; }
      seen := seen + {key};
      out := out + [address];
    }
  }

  /** Trimmed and not blank, and no two alike but for case. */
  predicate Distinct(fold: char -> char, out: seq<string>) {
    && (forall i :: 0 <= i < |out| ==> out[i] != "" && Trim(out[i]) == out[i])
    && forall i, j :: 0 <= i < j < |out| ==> Lower(fold, out[i]) != Lower(fold, out[j])
  }

  lemma DistinctMore(fold: char -> char, out: seq<string>, address: string)
    requires Distinct(fold, out) && address != "" && Trim(address) == address && Lower(fold, address) !in Keys(fold, out)
    ensures Distinct(fold, out + [address])
  {
    assert forall i :: 0 <= i < |out| ==> out[i] in out && Lower(fold, out[i]) in Keys(fold, out);
  }

  lemma KeysMore(fold: char -> char, out: seq<string>, address: string)
    ensures Keys(fold, out + [address]) == Keys(fold, out) + {Lower(fold, address)}
  {
    assert forall a :: a in out + [address] <==> a in out || a == address;
  }

  /** No two addresses are alike but for case, and every entry that is not blank is among them. */
  lemma {:induction false} AddressesAreDistinct(fold: char -> char, raw: seq<string>, n: nat)
    requires n <= |raw|
    ensures Distinct(fold, AddressesIn(fold, raw, n))
    ensures Covered(fold, raw, n, AddressesIn(fold, raw, n))
  {
    if n > 0 {
      AddressesAreDistinct(fold, raw, n - 1);
      TrimTrims(raw[n - 1]);
      var before := AddressesIn(fold, raw, n - 1);
      var address := Trim(raw[n - 1]);
      KeysMore(fold, before, address);
      if address != "" && Lower(fold, address) !in Keys(fold, before) { DistinctMore(fold, before, address); }
      Covers(fold, raw, n - 1, before, AddressesIn(fold, raw, n));
    }
  }

  predicate Covered(fold: char -> char, raw: seq<string>, n: nat, out: seq<string>)
    requires n <= |raw|
  {
    forall k :: 0 <= k < n && Trim(raw[k]) != "" ==> Lower(fold, Trim(raw[k])) in Keys(fold, out)
  }

  lemma Covers(fold: char -> char, raw: seq<string>, n: nat, before: seq<string>, after: seq<string>)
    requires n < |raw| && Covered(fold, raw, n, before) && Keys(fold, before) <= Keys(fold, after)
    requires Trim(raw[n]) != "" ==> Lower(fold, Trim(raw[n])) in Keys(fold, after)
    ensures Covered(fold, raw, n + 1, after)
  {}

  // What one addressed delivery comes to, given what each address resolved to.

  type Answers = map<string, Answer>

  function AnswerTo(answers: Answers, fold: char -> char, address: string): Answer {
    var key := Lower(fold, address);
    if key in answers then answers[key] else Failing
  }

  predicate Names(answers: Answers, fold: char -> char, address: string, id: string) {
    var answer := AnswerTo(answers, fold, address);
    answer.Found? && answer.user.objectId == id
  }

  /** The people the first n addresses name, each once, in order. */
  function People(answers: Answers, fold: char -> char, addresses: seq<string>, n: nat): seq<string>
    requires n <= |addresses|
  {
    if n == 0 then []
    else
      var before := People(answers, fold, addresses, n - 1);
      match AnswerTo(answers, fold, addresses[n - 1])
      case Found(u) => if u.objectId in before then before else before + [u.objectId]
      case _ => before
  }

  /** The addresses that name one person. */
  function NamedBy(answers: Answers, fold: char -> char, addresses: seq<string>, n: nat, id: string): seq<string>
    requires n <= |addresses|
  {
    if n == 0 then []
    else NamedBy(answers, fold, addresses, n - 1, id) +
         if Names(answers, fold, addresses[n - 1], id) then [addresses[n - 1]] else []
  }

  function Misses(answers: Answers, fold: char -> char, addresses: seq<string>, n: nat): seq<Miss>
    requires n <= |addresses|
  {
    if n == 0 then []
    else
      Misses(answers, fold, addresses, n - 1) +
      match AnswerTo(answers, fold, addresses[n - 1])
      case Unreachable(reason) => [Miss(addresses[n - 1], reason)]
      case _ => []
  }

  function Failures(answers: Answers, fold: char -> char, addresses: seq<string>, n: nat): seq<string>
    requires n <= |addresses|
  {
    if n == 0 then []
    else Failures(answers, fold, addresses, n - 1) + if AnswerTo(answers, fold, addresses[n - 1]).Failing? then [addresses[n - 1]] else []
  }

  /** One delivery per person, with all the addresses that name them. */
  function Expanded(answers: Answers, fold: char -> char, d: Delivery, addresses: seq<string>, n: nat): seq<Delivery>
    requires n <= |addresses|
  {
    ForPeople(answers, fold, d, addresses, n, People(answers, fold, addresses, n))
  }

  function ForPeople(answers: Answers, fold: char -> char, d: Delivery, addresses: seq<string>, n: nat, people: seq<string>): seq<Delivery>
    requires n <= |addresses|
  {
    seq(|people|, i requires 0 <= i < |people| =>
      d.(personId := people[i], addresses := NamedBy(answers, fold, addresses, n, people[i])))
  }

  predicate Unlike(ids: seq<string>) { forall i, j :: 0 <= i < j < |ids| ==> ids[i] != ids[j] }

  predicate NamesExactly(answers: Answers, fold: char -> char, addresses: seq<string>, n: nat, id: string, ids: seq<string>)
    requires n <= |addresses|
  {
    id in ids <==> exists k :: 0 <= k < n && Names(answers, fold, addresses[k], id)
  }

  /** Each person is there once, and exactly those some address was resolved to. */
  lemma {:induction false} PeopleOnce(answers: Answers, fold: char -> char, addresses: seq<string>, n: nat)
    requires n <= |addresses|
    ensures Unlike(People(answers, fold, addresses, n))
    ensures forall id :: NamesExactly(answers, fold, addresses, n, id, People(answers, fold, addresses, n))
  {
    if n > 0 {
      PeopleOnce(answers, fold, addresses, n - 1);
      var before, people := People(answers, fold, addresses, n - 1), People(answers, fold, addresses, n);
      forall id
        ensures NamesExactly(answers, fold, addresses, n, id, people)
      {
        assert NamesExactly(answers, fold, addresses, n - 1, id, before);
        assert id in people <==> id in before || Names(answers, fold, addresses[n - 1], id);
      }
    }
  }

  /** Those not named have no addresses. */
  lemma {:induction false} NotNamed(answers: Answers, fold: char -> char, addresses: seq<string>, n: nat, id: string)
    requires n <= |addresses| && id !in People(answers, fold, addresses, n)
    ensures NamedBy(answers, fold, addresses, n, id) == []
  {
    if n > 0 { NotNamed(answers, fold, addresses, n - 1, id); }
  }

  /** One address more that names a person gives them a delivery, or their delivery one address more. */
  lemma ExpandedMore(answers: Answers, fold: char -> char, d: Delivery, addresses: seq<string>, n: nat)
    requires n < |addresses|
    ensures GrownBy(AnswerTo(answers, fold, addresses[n]), d, addresses[n], People(answers, fold, addresses, n),
                    Expanded(answers, fold, d, addresses, n), Expanded(answers, fold, d, addresses, n + 1))
  {
    PeopleOnce(answers, fold, addresses, n);
    var answer := AnswerTo(answers, fold, addresses[n]);
    var people := People(answers, fold, addresses, n);
    SameNamed(answers, fold, addresses, n);
    if !answer.Found? {
      NobodyMore(answers, fold, d, addresses, n);
    } else if answer.user.objectId in people {
      forall i | 0 <= i < |people| && people[i] == answer.user.objectId
        ensures Expanded(answers, fold, d, addresses, n + 1) == Readdressed(Expanded(answers, fold, d, addresses, n), i, addresses[n])
      {
        SamePersonAgain(answers, fold, d, addresses, n, i);
      }
    } else {
      NewPerson(answers, fold, d, addresses, n);
    }
  }

  /** An address that names none of some people changes nothing about their deliveries. */
  lemma NoneOfThese(answers: Answers, fold: char -> char, d: Delivery, addresses: seq<string>, n: nat, people: seq<string>)
    requires n < |addresses| && forall i :: 0 <= i < |people| ==> !Names(answers, fold, addresses[n], people[i])
    ensures ForPeople(answers, fold, d, addresses, n + 1, people) == ForPeople(answers, fold, d, addresses, n, people)
  {
    SameNamed(answers, fold, addresses, n);
    var before, after := ForPeople(answers, fold, d, addresses, n, people), ForPeople(answers, fold, d, addresses, n + 1, people);
    assert forall i :: 0 <= i < |people| ==> after[i] == before[i];
  }

  /** One that names exactly one of them readdresses that one. */
  lemma OneOfThese(answers: Answers, fold: char -> char, d: Delivery, addresses: seq<string>, n: nat, people: seq<string>, i: nat)
    requires n < |addresses| && i < |people|
    requires forall j :: 0 <= j < |people| ==> (Names(answers, fold, addresses[n], people[j]) <==> j == i)
    ensures ForPeople(answers, fold, d, addresses, n + 1, people) ==
            Readdressed(ForPeople(answers, fold, d, addresses, n, people), i, addresses[n])
  {
    SameNamed(answers, fold, addresses, n);
    var before, after := ForPeople(answers, fold, d, addresses, n, people), ForPeople(answers, fold, d, addresses, n + 1, people);
    assert forall j :: 0 <= j < |people| && j != i ==> after[j] == before[j];
  }

  lemma OnePersonMore(answers: Answers, fold: char -> char, d: Delivery, addresses: seq<string>, n: nat, people: seq<string>, id: string)
    requires n <= |addresses|
    ensures ForPeople(answers, fold, d, addresses, n, people + [id]) ==
            ForPeople(answers, fold, d, addresses, n, people) +
            [d.(personId := id, addresses := NamedBy(answers, fold, addresses, n, id))]
  {}

  lemma NobodyMore(answers: Answers, fold: char -> char, d: Delivery, addresses: seq<string>, n: nat)
    requires n < |addresses| && !AnswerTo(answers, fold, addresses[n]).Found?
    ensures Expanded(answers, fold, d, addresses, n + 1) == Expanded(answers, fold, d, addresses, n)
  {
    NoneOfThese(answers, fold, d, addresses, n, People(answers, fold, addresses, n));
  }

  lemma SamePersonAgain(answers: Answers, fold: char -> char, d: Delivery, addresses: seq<string>, n: nat, i: nat)
    requires n < |addresses| && i < |People(answers, fold, addresses, n)|
    requires Names(answers, fold, addresses[n], People(answers, fold, addresses, n)[i])
    requires Unlike(People(answers, fold, addresses, n))
    ensures Expanded(answers, fold, d, addresses, n + 1) == Readdressed(Expanded(answers, fold, d, addresses, n), i, addresses[n])
  {
    OneOfThese(answers, fold, d, addresses, n, People(answers, fold, addresses, n), i);
  }

  lemma NewInPeople(answers: Answers, fold: char -> char, addresses: seq<string>, n: nat)
    requires n < |addresses| && AnswerTo(answers, fold, addresses[n]).Found?
    requires AnswerTo(answers, fold, addresses[n]).user.objectId !in People(answers, fold, addresses, n)
    ensures People(answers, fold, addresses, n + 1) ==
            People(answers, fold, addresses, n) + [AnswerTo(answers, fold, addresses[n]).user.objectId]
  {}

  lemma NewPerson(answers: Answers, fold: char -> char, d: Delivery, addresses: seq<string>, n: nat)
    requires n < |addresses| && AnswerTo(answers, fold, addresses[n]).Found?
    requires AnswerTo(answers, fold, addresses[n]).user.objectId !in People(answers, fold, addresses, n)
    ensures Expanded(answers, fold, d, addresses, n + 1) ==
            Expanded(answers, fold, d, addresses, n) +
            [d.(personId := AnswerTo(answers, fold, addresses[n]).user.objectId, addresses := [addresses[n]])]
  {
    var id, people := AnswerTo(answers, fold, addresses[n]).user.objectId, People(answers, fold, addresses, n);
    NotNamed(answers, fold, addresses, n, id);
    NoneOfThese(answers, fold, d, addresses, n, people);
    OnePersonMore(answers, fold, d, addresses, n + 1, people, id);
    SameNamed(answers, fold, addresses, n);
    NewInPeople(answers, fold, addresses, n);
    assert NamedBy(answers, fold, addresses, n + 1, id) == [addresses[n]];
  }

  /** The last address joins those of the person it names, and of nobody else. */
  lemma SameNamed(answers: Answers, fold: char -> char, addresses: seq<string>, n: nat)
    requires n < |addresses|
    ensures forall id :: NamedBy(answers, fold, addresses, n + 1, id) ==
              NamedBy(answers, fold, addresses, n, id) + (if Names(answers, fold, addresses[n], id) then [addresses[n]] else [])
  {}

  ghost predicate GrownBy(answer: Answer, d: Delivery, address: string, people: seq<string>, before: seq<Delivery>, after: seq<Delivery>) {
    |before| == |people| &&
    if !answer.Found? then after == before
    else if answer.user.objectId in people then
      forall i :: 0 <= i < |people| && people[i] == answer.user.objectId ==> after == Readdressed(before, i, address)
    else after == before + [d.(personId := answer.user.objectId, addresses := [address])]
  }

  /** A delivery gets one address more. */
  function Readdressed(ds: seq<Delivery>, i: nat, address: string): seq<Delivery>
    requires i < |ds|
  {
    ds[i := ds[i].(addresses := ds[i].addresses + [address])]
  }

  // Conservation.

  /** The addresses of the first k deliveries. */
  function Carried(ds: seq<Delivery>, k: nat): multiset<string>
    requires k <= |ds|
  {
    if k == 0 then multiset{} else Carried(ds, k - 1) + multiset(ds[k - 1].addresses)
  }

  lemma {:induction false} CarriedUpdate(ds: seq<Delivery>, i: nat, address: string, k: nat)
    requires i < |ds| && k <= |ds|
    ensures Carried(Readdressed(ds, i, address), k) == Carried(ds, k) + if i < k then multiset{address} else multiset{}
  {
    if k > 0 {
      CarriedUpdate(ds, i, address, k - 1);
      var more := Readdressed(ds, i, address);
      assert multiset(more[k - 1].addresses) ==
             multiset(ds[k - 1].addresses) + (if i == k - 1 then multiset{address} else multiset{});
    }
  }

  lemma {:induction false} CarriedAppend(ds: seq<Delivery>, d: Delivery, k: nat)
    requires k <= |ds|
    ensures Carried(ds + [d], k) == Carried(ds, k)
  {
    if k > 0 { CarriedAppend(ds, d, k - 1); }
  }

  function Recipients(ms: seq<Miss>): seq<string> { seq(|ms|, i requires 0 <= i < |ms| => ms[i].recipient) }

  /** Where the first n addresses have landed: with a person, among the misses, or among the failures. */
  function Landed(answers: Answers, fold: char -> char, d: Delivery, addresses: seq<string>, n: nat): multiset<string>
    requires n <= |addresses|
  {
    var ds := Expanded(answers, fold, d, addresses, n);
    Carried(ds, |ds|) + multiset(Recipients(Misses(answers, fold, addresses, n))) + multiset(Failures(answers, fold, addresses, n))
  }

  lemma LandedMore(answers: Answers, fold: char -> char, d: Delivery, addresses: seq<string>, n: nat)
    requires n < |addresses|
    ensures Landed(answers, fold, d, addresses, n + 1) == Landed(answers, fold, d, addresses, n) + multiset{addresses[n]}
  {
    CarriedMore(answers, fold, d, addresses, n);
    MissedMore(answers, fold, addresses, n);
    FailedMore(answers, fold, addresses, n);
  }

  /** Every address the event names lands in exactly one place: a person's delivery, the misses, or
      the failures. */
  lemma {:induction false} EveryAddressOnce(answers: Answers, fold: char -> char, d: Delivery, addresses: seq<string>, n: nat)
    requires n <= |addresses|
    ensures Landed(answers, fold, d, addresses, n) == multiset(addresses[..n])
  {
    if n > 0 {
      EveryAddressOnce(answers, fold, d, addresses, n - 1);
      LandedMore(answers, fold, d, addresses, n - 1);
      OneMoreAddress(addresses, n - 1);
    } else {
      NoneLanded(answers, fold, d, addresses);
    }
  }

  lemma OneMoreAddress(addresses: seq<string>, n: nat)
    requires n < |addresses|
    ensures multiset(addresses[..n + 1]) == multiset(addresses[..n]) + multiset{addresses[n]}
  {
    assert addresses[..n + 1] == addresses[..n] + [addresses[n]];
  }

  lemma NoneLanded(answers: Answers, fold: char -> char, d: Delivery, addresses: seq<string>)
    ensures Landed(answers, fold, d, addresses, 0) == multiset(addresses[..0])
  {
    assert Expanded(answers, fold, d, addresses, 0) == [] && Recipients([]) == [] && addresses[..0] == [];
  }

  lemma FailedMore(answers: Answers, fold: char -> char, addresses: seq<string>, n: nat)
    requires n < |addresses|
    ensures multiset(Failures(answers, fold, addresses, n + 1)) ==
            multiset(Failures(answers, fold, addresses, n))
            + if AnswerTo(answers, fold, addresses[n]).Failing? then multiset{addresses[n]} else multiset{}
  {}

  lemma MissedMore(answers: Answers, fold: char -> char, addresses: seq<string>, n: nat)
    requires n < |addresses|
    ensures multiset(Recipients(Misses(answers, fold, addresses, n + 1))) ==
            multiset(Recipients(Misses(answers, fold, addresses, n)))
            + if AnswerTo(answers, fold, addresses[n]).Unreachable? then multiset{addresses[n]} else multiset{}
  {
    var ms := Misses(answers, fold, addresses, n);
    var answer := AnswerTo(answers, fold, addresses[n]);
    if answer.Unreachable? {
      assert Misses(answers, fold, addresses, n + 1) == ms + [Miss(addresses[n], answer.reason)];
      assert Recipients(ms + [Miss(addresses[n], answer.reason)]) == Recipients(ms) + [addresses[n]];
    } else {
      assert Misses(answers, fold, addresses, n + 1) == ms;
    }
  }

  lemma CarriedMore(answers: Answers, fold: char -> char, d: Delivery, addresses: seq<string>, n: nat)
    requires n < |addresses|
    ensures var before, after := Expanded(answers, fold, d, addresses, n), Expanded(answers, fold, d, addresses, n + 1);
            Carried(after, |after|) ==
            Carried(before, |before|) + if AnswerTo(answers, fold, addresses[n]).Found? then multiset{addresses[n]} else multiset{}
  {
    PeopleOnce(answers, fold, addresses, n);
    ExpandedMore(answers, fold, d, addresses, n);
    GrownCarries(AnswerTo(answers, fold, addresses[n]), d, addresses[n], People(answers, fold, addresses, n),
                 Expanded(answers, fold, d, addresses, n), Expanded(answers, fold, d, addresses, n + 1));
  }

  lemma GrownCarries(answer: Answer, d: Delivery, address: string, people: seq<string>, before: seq<Delivery>, after: seq<Delivery>)
    requires GrownBy(answer, d, address, people, before, after)
    ensures Carried(after, |after|) == Carried(before, |before|) + if answer.Found? then multiset{address} else multiset{}
  {
    if answer.Found? {
      if answer.user.objectId in people {
        var i :| 0 <= i < |people| && people[i] == answer.user.objectId;
        CarriedUpdate(before, i, address, |before|);
      } else {
        CarriedAppend(before, d.(personId := answer.user.objectId, addresses := [address]), |before|);
      }
    }
  }

  /** A delivery carries an address exactly when that address was resolved to its person. */
  lemma {:induction false} CarriesItsOwn(answers: Answers, fold: char -> char, addresses: seq<string>, n: nat, id: string)
    requires n <= |addresses|
    ensures forall a :: a in NamedBy(answers, fold, addresses, n, id) <==> a in addresses[..n] && Names(answers, fold, a, id)
  {
    if n > 0 {
      CarriesItsOwn(answers, fold, addresses, n - 1, id);
      assert addresses[..n] == addresses[..n - 1] + [addresses[n - 1]];
    }
  }

  // More answers do not change what was already answered.

  predicate Extends(answers: Answers, more: Answers) { forall key :: key in answers ==> key in more && more[key] == answers[key] }

  predicate Answered(answers: Answers, fold: char -> char, addresses: seq<string>, n: nat)
    requires n <= |addresses|
  {
    forall i :: 0 <= i < n ==> Lower(fold, addresses[i]) in answers
  }

  lemma {:induction false} SameSoFar(answers: Answers, more: Answers, fold: char -> char, addresses: seq<string>, n: nat)
    requires n <= |addresses| && Extends(answers, more) && Answered(answers, fold, addresses, n)
    ensures People(answers, fold, addresses, n) == People(more, fold, addresses, n)
    ensures Misses(answers, fold, addresses, n) == Misses(more, fold, addresses, n)
    ensures Failures(answers, fold, addresses, n) == Failures(more, fold, addresses, n)
    ensures forall id :: NamedBy(answers, fold, addresses, n, id) == NamedBy(more, fold, addresses, n, id)
  {
    if n > 0 { SameSoFar(answers, more, fold, addresses, n - 1); }
  }

  lemma SameExpanded(answers: Answers, more: Answers, fold: char -> char, d: Delivery, addresses: seq<string>, n: nat)
    requires n <= |addresses| && Extends(answers, more) && Answered(answers, fold, addresses, n)
    ensures Expanded(answers, fold, d, addresses, n) == Expanded(more, fold, d, addresses, n)
  {
    SameSoFar(answers, more, fold, addresses, n);
  }
}
