/** The order of strings that sort.Slice, slices.Sort and the database's text columns use here. */
module Order {

  /** a comes before b, comparing code units from the left. */
  predicate Before(a: string, b: string) {
    b != "" && (a == "" || a[0] < b[0] || (a[0] == b[0] && Before(a[1..], b[1..])))
  }

  lemma {:induction false} Irreflexive(a: string)
    ensures !Before(a, a)
  {
    if a != "" { Irreflexive(a[1..]); }
  }

  lemma {:induction false} Transitive(a: string, b: string, c: string)
    requires Before(a, b) && Before(b, c)
    ensures Before(a, c)
  {
    if a != "" && a[0] == b[0] && b[0] == c[0] { Transitive(a[1..], b[1..], c[1..]); }
  }

  lemma {:induction false} Total(a: string, b: string)
    ensures Before(a, b) || Before(b, a) || a == b
  {
    if a != "" && b != "" && a[0] == b[0] {
      Total(a[1..], b[1..]);
      assert a == [a[0]] + a[1..] && b == [b[0]] + b[1..];
    }
  }

  lemma Asymmetric(a: string, b: string)
    requires Before(a, b)
    ensures !Before(b, a) && a != b
  {
    Irreflexive(a);
    if Before(b, a) { Transitive(a, b, a); }
  }

  /** Before, then not after: before. */
  lemma BeforeThenNotAfter(a: string, b: string, c: string)
    requires Before(a, b) && !Before(c, b)
    ensures Before(a, c)
  {
    Total(b, c);
    if Before(b, c) { Transitive(a, b, c); }
  }

  // Sorting by a key.

  predicate Sorted<T(!new)>(key: T -> string, xs: seq<T>) {
    forall i, j :: 0 <= i < j < |xs| ==> Before(key(xs[i]), key(xs[j]))
  }

  predicate Distinct<T(!new)>(key: T -> string, xs: seq<T>) {
    forall i, j :: 0 <= i < j < |xs| ==> key(xs[i]) != key(xs[j])
  }

  function Insert<T>(key: T -> string, x: T, xs: seq<T>): (r: seq<T>)
    ensures multiset(r) == multiset(xs) + multiset{x}
  {
    if xs == [] then [x]
    else if Before(key(xs[0]), key(x)) then
      assert xs == [xs[0]] + xs[1..];
      [xs[0]] + Insert(key, x, xs[1..])
    else [x] + xs
  }

  lemma {:induction false} InsertSorts<T(!new)>(key: T -> string, x: T, xs: seq<T>)
    requires Sorted(key, xs) && forall i :: 0 <= i < |xs| ==> key(xs[i]) != key(x)
    ensures Sorted(key, Insert(key, x, xs))
  {
    if xs == [] {
    } else if Before(key(xs[0]), key(x)) {
      var rest := Insert(key, x, xs[1..]);
      InsertSorts(key, x, xs[1..]);
      forall j | 0 <= j < |rest|
        ensures Before(key(xs[0]), key(rest[j]))
      {
        assert rest[j] in multiset(rest);
        assert rest[j] == x || rest[j] in xs[1..];
      }
    } else {
      Total(key(xs[0]), key(x));
      forall j | 0 <= j < |xs|
        ensures Before(key(x), key(xs[j]))
      {
        if j > 0 { Transitive(key(x), key(xs[0]), key(xs[j])); }
      }
    }
  }

  function Sort<T>(key: T -> string, xs: seq<T>): (r: seq<T>)
    ensures multiset(r) == multiset(xs)
  {
    if xs == [] then []
    else
      assert xs == [xs[0]] + xs[1..];
      Insert(key, xs[0], Sort(key, xs[1..]))
  }

  lemma SortKeeps<T(!new)>(key: T -> string, xs: seq<T>)
    ensures forall x :: x in Sort(key, xs) <==> x in xs
  {
    forall x
      ensures x in Sort(key, xs) <==> x in xs
    {
      assert x in multiset(Sort(key, xs)) <==> x in multiset(xs);
    }
  }

  lemma {:induction false} SortSorts<T(!new)>(key: T -> string, xs: seq<T>)
    requires Distinct(key, xs)
    ensures Sorted(key, Sort(key, xs))
  {
    if xs != [] {
      SortSorts(key, xs[1..]);
      var rest := Sort(key, xs[1..]);
      forall i | 0 <= i < |rest|
        ensures key(rest[i]) != key(xs[0])
      {
        SortKeeps(key, xs[1..]);
        assert rest[i] in xs[1..];
        var j :| 0 <= j < |xs[1..]| && xs[1..][j] == rest[i];
        assert xs[j + 1] == rest[i];
      }
      InsertSorts(key, xs[0], rest);
    }
  }
}
