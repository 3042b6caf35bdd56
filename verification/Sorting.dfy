/** Insertion into lists ordered by a descending key. */
module Sorting {

  /** Places `x` before the elements with the same key. */
  function Insert<T>(key: T -> real, x: T, xs: seq<T>): (r: seq<T>)
    ensures |r| == |xs| + 1
  {
    if xs == [] || key(x) >= key(xs[0]) then [x] + xs else [xs[0]] + Insert(key, x, xs[1..])
  }

  ghost predicate Descending<T>(key: T -> real, xs: seq<T>) {
    forall i, j | 0 <= i < j < |xs| :: key(xs[i]) >= key(xs[j])
  }

  lemma HeadAndTail<T>(xs: seq<T>)
    requires xs != []
    ensures multiset(xs) == multiset(xs[1..]) + multiset{xs[0]}
  {
    assert xs == [xs[0]] + xs[1..];
  }

  lemma {:induction false} InsertMembers<T>(key: T -> real, x: T, xs: seq<T>)
    ensures multiset(Insert(key, x, xs)) == multiset(xs) + multiset{x}
  {
    if xs != [] && key(x) < key(xs[0]) {
      InsertMembers(key, x, xs[1..]);
      assert xs == [xs[0]] + xs[1..];
    }
  }

  lemma {:induction false} InsertAt<T>(key: T -> real, x: T, xs: seq<T>) returns (p: nat)
    ensures p <= |xs| && Insert(key, x, xs) == xs[..p] + [x] + xs[p..]
    ensures forall i | 0 <= i < p :: key(xs[i]) > key(x)
    ensures p < |xs| ==> key(x) >= key(xs[p])
  {
    if xs == [] || key(x) >= key(xs[0]) {
      p := 0;
    } else {
      var q := InsertAt(key, x, xs[1..]);
      p := q + 1;
    }
  }

  lemma InsertedFrom<T>(key: T -> real, x: T, xs: seq<T>, y: T)
    requires y in Insert(key, x, xs)
    ensures y == x || y in xs
  {
    InsertMembers(key, x, xs);
    assert y in multiset(Insert(key, x, xs));
  }

  lemma {:induction false} InsertDescending<T>(key: T -> real, x: T, xs: seq<T>)
    requires Descending(key, xs)
    ensures Descending(key, Insert(key, x, xs))
  {
    if xs != [] && key(x) < key(xs[0]) {
      InsertDescending(key, x, xs[1..]);
      var r := Insert(key, x, xs[1..]);
      forall i | 0 <= i < |r| ensures key(xs[0]) >= key(r[i]) {
        InsertedFrom(key, x, xs[1..], r[i]);
      }
    }
  }
}
