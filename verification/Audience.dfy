/** Who a broadcast reaches: broadcastAudience (internal/httpserver/broadcast.go). */
module Audience {
  import opened Order
  import opened Text
  import Broadcast

  /** directoryPage: how many directory users are read at once. */
  const PAGE := 500

  const PERSON := "aad:"
  const LINKED := "rcp:"

  datatype Recipient = Recipient(id: string, conversationId: string, aadObjectId: string)

  datatype Member = Member(key: string, personId: string, recipientId: string)

  function PersonOf(oid: string): Member { Member(PERSON + oid, oid, "") }

  function LinkedOf(r: Recipient): Member { Member(LINKED + r.id, "", r.id) }

  /** A linked recipient with a chat whom the directory does not know. */
  predicate Unknown(fold: char -> char, dir: seq<string>, r: Recipient) {
    && r.conversationId != ""
    && (r.aadObjectId == "" || forall i :: 0 <= i < |dir| ==> Lower(fold, dir[i]) != Lower(fold, r.aadObjectId))
  }

  /** ListReachableDirectoryUsers: a page of the reachable users after an id, in order. */
  function Page(dir: seq<string>, after: string): seq<string> {
    var k := Broadcast.Start(dir, after);
    dir[k..if k + PAGE < |dir| then k + PAGE else |dir|]
  }

  /** The page after the k-th user starts behind it. */
  lemma StartAfter(dir: seq<string>, k: nat)
    requires Broadcast.Ordered(dir) && k <= |dir|
    ensures Broadcast.Start(dir, if k == 0 then "" else dir[k - 1]) == k
  {
    var after := if k == 0 then "" else dir[k - 1];
    var i := Broadcast.Start(dir, after);
    assert k < |dir| ==> Before(after, dir[k]);
    if i < k {
      if i == k - 1 { Irreflexive(after); } else { Asymmetric(dir[i], after); }
    }
  }

  function Key(m: Member): string { m.key }

  function People(dir: seq<string>): seq<Member> { seq(|dir|, i requires 0 <= i < |dir| => PersonOf(dir[i])) }

  function FoldedIds(fold: char -> char, dir: seq<string>): set<string> { set u | u in dir :: Lower(fold, u) }

  /** m is one of the linked recipients a broadcast adds. */
  ghost predicate IsLinked(fold: char -> char, dir: seq<string>, recipients: seq<Recipient>, m: Member) {
    exists r :: r in recipients && Unknown(fold, dir, r) && m == LinkedOf(r)
  }

  function KeysOf(ms: seq<Member>): seq<string> { seq(|ms|, i requires 0 <= i < |ms| => ms[i].key) }

  ghost predicate IsDirectoryUser(dir: seq<string>, m: Member) {
    exists u :: u in dir && m == Member("aad:" + u, u, "")
  }

  /** A linked recipient with a chat, whose directory id is none or nobody's in the directory but for case. */
  ghost predicate IsUnknownRecipient(fold: char -> char, dir: seq<string>, recipients: seq<Recipient>, m: Member) {
    exists r :: r in recipients && m == Member("rcp:" + r.id, "", r.id) && r.conversationId != "" &&
                (r.aadObjectId == "" || forall u :: u in dir ==> Lower(fold, u) != Lower(fold, r.aadObjectId))
  }

  lemma MembersAre(fold: char -> char, dir: seq<string>, recipients: seq<Recipient>, m: Member)
    ensures m in People(dir) <==> IsDirectoryUser(dir, m)
    ensures IsLinked(fold, dir, recipients, m) <==> IsUnknownRecipient(fold, dir, recipients, m)
  {
    if IsDirectoryUser(dir, m) {
      var u :| u in dir && m == Member("aad:" + u, u, "");
      var i :| 0 <= i < |dir| && dir[i] == u;
      assert People(dir)[i] == m;
    }
    if IsLinked(fold, dir, recipients, m) {
      var r :| r in recipients && Unknown(fold, dir, r) && m == LinkedOf(r);
      assert m == Member("rcp:" + r.id, "", r.id);
    }
    if IsUnknownRecipient(fold, dir, recipients, m) {
      var r :| r in recipients && m == Member("rcp:" + r.id, "", r.id) && r.conversationId != "" &&
               (r.aadObjectId == "" || forall u :: u in dir ==> Lower(fold, u) != Lower(fold, r.aadObjectId));
      assert Unknown(fold, dir, r) && m == LinkedOf(r);
    }
  }

  /** Every reachable directory user, and every linked recipient with a chat the directory does
      not know, each once, in key order: an audience the runner can walk. */
  method BroadcastAudience(fold: char -> char, dir: seq<string>, recipients: seq<Recipient>) returns (out: seq<Member>)
    requires Broadcast.Ordered(dir)
    requires forall i, j :: 0 <= i < j < |recipients| ==> recipients[i].id != recipients[j].id
    ensures Broadcast.Ordered(KeysOf(out))
    ensures forall m :: m in out <==> IsDirectoryUser(dir, m) || IsUnknownRecipient(fold, dir, recipients, m)
  {
    var seen: set<string>;
    out, seen := ReadDirectory(fold, dir);
    out := AddLinked(fold, dir, recipients, out, seen);
    SortSorts(Key, out);
    SortKeeps(Key, out);
    ghost var unsorted := out;
    out := Sort(Key, out);
    forall i | 0 <= i < |out|
      ensures out[i].key != ""
    {
      assert out[i] in unsorted;
    }
    forall m
      ensures m in out <==> IsDirectoryUser(dir, m) || IsUnknownRecipient(fold, dir, recipients, m)
    {
      MembersAre(fold, dir, recipients, m);
    }
  }

  lemma PeoplePush(fold: char -> char, dir: seq<string>, n: nat)
    requires n < |dir|
    ensures People(dir[..n + 1]) == People(dir[..n]) + [PersonOf(dir[n])]
    ensures FoldedIds(fold, dir[..n + 1]) == FoldedIds(fold, dir[..n]) + {Lower(fold, dir[n])}
  {
    assert dir[..n + 1] == dir[..n] + [dir[n]];
  }

  /** The inner loop: one page joins the people read so far, dir[..k]. */
  method AddPage(fold: char -> char, dir: seq<string>, ghost k: nat, users: seq<string>, people: seq<Member>, known: set<string>)
      returns (out: seq<Member>, seen: set<string>)
    requires k + |users| <= |dir| && users == dir[k..k + |users|]
    requires people == People(dir[..k]) && known == FoldedIds(fold, dir[..k])
    ensures out == People(dir[..k + |users|]) && seen == FoldedIds(fold, dir[..k + |users|])
  {
    out, seen := people, known;
    for j := 0 to |users|
      invariant out == People(dir[..k + j]) && seen == FoldedIds(fold, dir[..k + j])
    {
      PeoplePush(fold, dir, k + j);
      out := out + [PersonOf(users[j])];
      seen := seen + {Lower(fold, users[j])};
    }
  }

  /** The paged loop over the directory. */
  method ReadDirectory(fold: char -> char, dir: seq<string>) returns (out: seq<Member>, seen: set<string>)
    requires Broadcast.Ordered(dir)
    ensures out == People(dir) && seen == FoldedIds(fold, dir)
  {
    out, seen := [], {};
    var after := "";
    ghost var k := 0;
    while true
      invariant k <= |dir| && out == People(dir[..k]) && seen == FoldedIds(fold, dir[..k])
      invariant after == if k == 0 then "" else dir[k - 1]
      decreases |dir| - k
    {
      StartAfter(dir, k);
      var users := Page(dir, after);
      out, seen := AddPage(fold, dir, k, users, out, seen);
      k := k + |users|;
      if |users| < PAGE { break; }
      after := users[|users| - 1];
    }
    assert dir[..k] == dir;
  }

  /** The loop over the linked recipients. */
  method AddLinked(fold: char -> char, dir: seq<string>, recipients: seq<Recipient>, people: seq<Member>, seen: set<string>)
      returns (out: seq<Member>)
    requires Broadcast.Ordered(dir) && people == People(dir) && seen == FoldedIds(fold, dir)
    requires forall i, j :: 0 <= i < j < |recipients| ==> recipients[i].id != recipients[j].id
    ensures Distinct(Key, out) && forall m :: m in out ==> m.key != ""
    ensures forall m :: m in out <==> m in People(dir) || IsLinked(fold, dir, recipients, m)
  {
    out := people;
    PeopleDistinct(dir);
    for k := 0 to |recipients|
      invariant Distinct(Key, out) && forall m :: m in out ==> m.key != ""
      invariant forall m :: m in out <==> m in People(dir) || IsLinked(fold, dir, recipients[..k], m)
    {
      var r := recipients[k];
      assert recipients[..k + 1] == recipients[..k] + [r];
      assert Unknown(fold, dir, r) <==> !(r.conversationId == "" || (r.aadObjectId != "" && Lower(fold, r.aadObjectId) in seen));
      if !(r.conversationId == "" || (r.aadObjectId != "" && Lower(fold, r.aadObjectId) in seen)) {
        NewKey(fold, dir, recipients, k, out);
        out := out + [LinkedOf(r)];
      }
    }
    assert recipients[..|recipients|] == recipients;
  }

  lemma NewKey(fold: char -> char, dir: seq<string>, recipients: seq<Recipient>, k: nat, out: seq<Member>)
    requires k < |recipients|
    requires forall i, j :: 0 <= i < j < |recipients| ==> recipients[i].id != recipients[j].id
    requires forall m :: m in out <==> m in People(dir) || IsLinked(fold, dir, recipients[..k], m)
    ensures forall i :: 0 <= i < |out| ==> out[i].key != LinkedOf(recipients[k]).key
  {
    var key := LinkedOf(recipients[k]).key;
    forall i | 0 <= i < |out|
      ensures out[i].key != key
    {
      var m := out[i];
      assert m in out;
      if m in People(dir) {
        assert m.key[0] == 'a' && key[0] == 'r';
      } else {
        var r :| r in recipients[..k] && Unknown(fold, dir, r) && m == LinkedOf(r);
        assert m.key[|LINKED|..] == r.id && key[|LINKED|..] == recipients[k].id;
      }
    }
  }

  lemma PeopleDistinct(dir: seq<string>)
    requires Broadcast.Ordered(dir)
    ensures Distinct(Key, People(dir))
  {
    var people := People(dir);
    forall i, j | 0 <= i < j < |people|
      ensures people[i].key != people[j].key
    {
      Asymmetric(dir[i], dir[j]);
      assert people[i].key[|PERSON|..] == dir[i] && people[j].key[|PERSON|..] == dir[j];
    }
  }
}
