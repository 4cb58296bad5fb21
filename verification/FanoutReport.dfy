/** What one event's delivery comes to as a whole (internal/httpserver/webhooks.go, addressed.go): the
    plan is expanded, what came of it is delivered, and the two reports are added. */
module FanoutReport {
  import opened Text
  import opened Addressed
  import opened Fanout
  import opened Places

  /** The plan after the expansion, and what the expansion itself reports. */
  function Out(r: Answers, fold: char -> char, finds: bool, plan: seq<Delivery>, addresses: seq<string>): seq<Delivery> {
    All(Parts(r, fold, finds, addresses), plan)
  }

  function AllMisses(r: Answers, fold: char -> char, finds: bool, plan: seq<Delivery>, addresses: seq<string>): seq<Miss> {
    All(MissParts(r, fold, finds, addresses), plan)
  }

  function AllFailures(r: Answers, fold: char -> char, finds: bool, plan: seq<Delivery>, addresses: seq<string>): seq<string> {
    All(FailParts(r, fold, finds, addresses), plan)
  }

  /** addressOf[id], which is empty for an id that is not there. */
  function Lookup(addressOf: map<string, string>): string -> string {
    (id: string) => if id in addressOf then addressOf[id] else ""
  }

  lemma {:induction false} InConcat<A, B>(f: A -> seq<B>, xs: seq<A>, n: nat, y: B)
    requires n <= |xs| && y in ConcatMap(f, xs, n)
    ensures exists i :: 0 <= i < n && y in f(xs[i])
  {
    if y !in f(xs[n - 1]) { InConcat(f, xs, n - 1, y); }
  }

  /** Whom a delivery of the expanded plan is for was named by an address, and is known by the first that does. */
  lemma {:induction false} PersonIsNamed(r: Answers, fold: char -> char, finds: bool, plan: seq<Delivery>, addresses: seq<string>,
      addressOf: map<string, string>, d: Delivery)
    requires forall p :: p in plan ==> p.personId == ""
    requires Named(r, fold, finds, plan, addresses, |plan|, addressOf)
    requires d in Out(r, fold, finds, plan, addresses) && d.personId != ""
    ensures d.personId in addressOf && NamedFirst(r, fold, addresses, |addresses|, d.personId, addressOf[d.personId])
    ensures addressOf[d.personId] in d.addresses
  {
    InConcat(Parts(r, fold, finds, addresses), plan, |plan|, d);
    var i :| 0 <= i < |plan| && d in Parts(r, fold, finds, addresses)(plan[i]);
    assert plan[i] in plan && plan[i].addressed && finds;
    var people := People(r, fold, addresses, |addresses|);
    var k :| 0 <= k < |people| && d == plan[i].(personId := people[k], addresses := NamedBy(r, fold, addresses, |addresses|, people[k]));
    assert people[k] in people;
    CarriesItsOwn(r, fold, addresses, |addresses|, d.personId);
    assert addresses[..|addresses|] == addresses;
  }

  /** A recipient the report may name. */
  ghost predicate MayReport(addresses: seq<string>, m: Miss) {
    m.recipient in addresses || m == Miss("", NoRecipient)
  }

  lemma {:induction false} MissesAreOurs(r: Answers, fold: char -> char, addresses: seq<string>, n: nat)
    requires n <= |addresses|
    ensures forall m :: m in Misses(r, fold, addresses, n) ==> MayReport(addresses, m)
  {
    if n > 0 { MissesAreOurs(r, fold, addresses, n - 1); }
  }

  lemma {:induction false} AllMissesAreOurs(r: Answers, fold: char -> char, finds: bool, plan: seq<Delivery>, addresses: seq<string>, m: Miss)
    requires m in AllMisses(r, fold, finds, plan, addresses)
    ensures MayReport(addresses, m)
  {
    InConcat(MissParts(r, fold, finds, addresses), plan, |plan|, m);
    MissesAreOurs(r, fold, addresses, |addresses|);
  }

  lemma {:induction false} TalliedAreOurs(out: seq<Delivery>, sent: seq<Sent>, addressOf: string -> string, addresses: seq<string>, n: nat)
    requires n <= |out| == |sent|
    requires forall d :: d in out && d.personId != "" ==> addressOf(d.personId) in addresses
    ensures forall m :: m in Fanout.Tally(out, sent, addressOf, n).undelivered ==> MayReport(addresses, m)
  {
    if n > 0 {
      TalliedAreOurs(out, sent, addressOf, addresses, n - 1);
      assert out[n - 1] in out;
    }
  }

  lemma {:induction false} TallyIsOurs(r: Answers, fold: char -> char, finds: bool, plan: seq<Delivery>, addresses: seq<string>,
      addressOf: map<string, string>, sent: seq<Sent>)
    requires forall p :: p in plan ==> p.personId == ""
    requires Named(r, fold, finds, plan, addresses, |plan|, addressOf) && |Out(r, fold, finds, plan, addresses)| == |sent|
    ensures forall m :: m in Tally(Out(r, fold, finds, plan, addresses), sent, Lookup(addressOf), |sent|).undelivered ==>
              MayReport(addresses, m)
  {
    var out := Out(r, fold, finds, plan, addresses);
    forall d | d in out && d.personId != ""
      ensures Lookup(addressOf)(d.personId) in addresses
    {
      PersonIsNamed(r, fold, finds, plan, addresses, addressOf, d);
    }
    TalliedAreOurs(out, sent, Lookup(addressOf), addresses, |out|);
  }

  /** The end of processEvent: expand, deliver, add the two reports and join the errors. sends says how the delivery at each
      place of the expanded plan ends. Every delivery, miss and failure of the expansion is counted
      once, and the report names nobody but by an address of the event. */
  method DeliverPlan(r: Resolver, finds: bool, plan: seq<Delivery>, addresses: seq<string>, sends: nat -> Sent)
      returns (rep: Report, ghost addressOf: map<string, string>, ghost at: seq<nat>)
    requires r.Valid()
    modifies r
    ensures r.Valid() && Extends(old(r.resolved), r.resolved)
    ensures Named(r.resolved, r.fold, finds, plan, addresses, |plan|, addressOf)
    ensures var out := Out(r.resolved, r.fold, finds, plan, addresses);
            var misses := AllMisses(r.resolved, r.fold, finds, plan, addresses);
            var failures := AllFailures(r.resolved, r.fold, finds, plan, addresses);
            var sent := seq(|out|, sends);
            && rep.delivered == |ArrivedPlaces(sent, |out|)| && rep.failures == |failures| + |FailedPlaces(out, sent, |out|)|
            && BlockedAt(out, sent, |out|, at)
            && rep.undelivered == multiset(misses) + multiset(MissesAt(out, Lookup(addressOf), at))
            && rep.delivered + |rep.undelivered| + rep.failures == |out| + |misses| + |failures|
    ensures (forall p :: p in plan ==> p.personId == "") ==> forall m :: m in rep.undelivered ==> MayReport(addresses, m)
  {
    var out, named, misses, failures := ExpandAddressed(r, finds, plan, addresses);
    var sent := seq(|out|, sends);
    addressOf := named;
    rep, at := DeliverEvent(out, sent, Lookup(named));
    if forall p :: p in plan ==> p.personId == "" {
      TallyIsOurs(r.resolved, r.fold, finds, plan, addresses, named, sent);
      forall m | m in misses
        ensures MayReport(addresses, m)
      {
        AllMissesAreOurs(r.resolved, r.fold, finds, plan, addresses, m);
      }
    }
    rep := Report(rep.delivered, multiset(misses) + rep.undelivered, |failures| + rep.failures);
  }
}
