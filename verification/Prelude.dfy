/** Small shared vocabulary: optional values, sorting by a key, and set cardinalities. */
module Prelude {

  datatype Option<+T> = None | Some(value: T)

  /** A subset is no larger than its superset. */
  lemma {:induction false} SubsetCardinality<T>(a: set<T>, b: set<T>)
    requires a <= b
    ensures |a| <= |b|
  {
    if a != {} {
      var x :| x in a;
      SubsetCardinality(a - {x}, b - {x});
    }
  }

  /** A number above all used ones. */
  lemma {:induction false} FreshNumber(used: set<nat>) returns (id: nat)
    ensures forall q :: q in used ==> q < id
  {
    id := 0;
    if used != {} {
      var q :| q in used;
      var bound := FreshNumber(used - {q});
      id := if q < bound then bound else q + 1;
      assert used == (used - {q}) + {q};
    }
  }

  ghost predicate SortedBy<T>(key: T -> int, xs: seq<T>) {
    forall i, j :: 0 <= i < j < |xs| ==> key(xs[i]) <= key(xs[j])
  }

  /** Puts `x` behind the last element whose key is not larger. */
  function Insert<T>(key: T -> int, ys: seq<T>, x: T): seq<T> {
    if ys == [] || key(ys[|ys| - 1]) <= key(x) then ys + [x]
    else Insert(key, ys[..|ys| - 1], x) + [ys[|ys| - 1]]
  }

  lemma {:induction false} InsertKeepsElements<T>(key: T -> int, ys: seq<T>, x: T)
    ensures multiset(Insert(key, ys, x)) == multiset(ys) + multiset{x}
  {
    if ys != [] && key(ys[|ys| - 1]) > key(x) {
      InsertKeepsElements(key, ys[..|ys| - 1], x);
      assert ys == ys[..|ys| - 1] + [ys[|ys| - 1]];
    }
  }

  lemma {:induction false} InsertKeepsOrder<T>(key: T -> int, ys: seq<T>, x: T)
    requires SortedBy(key, ys)
    ensures SortedBy(key, Insert(key, ys, x))
  {
    if ys != [] && key(ys[|ys| - 1]) > key(x) {
      var front := ys[..|ys| - 1];
      var r := Insert(key, front, x);
      InsertKeepsOrder(key, front, x);
      InsertKeepsElements(key, front, x);
      forall i | 0 <= i < |r| ensures key(r[i]) <= key(ys[|ys| - 1]) {
        assert r[i] in multiset(r);
        assert r[i] in multiset(front) || r[i] == x;
      }
    }
  }

  /** Sorts by an integer key; what `sort.Slice` is used for. Ties may end up in any order. */
  method SortByKey<T>(key: T -> int, xs: seq<T>) returns (ys: seq<T>)
    ensures SortedBy(key, ys)
    ensures multiset(ys) == multiset(xs)
  {
    ys := [];
    for n := 0 to |xs|
      invariant SortedBy(key, ys)
      invariant multiset(ys) == multiset(xs[..n])
    {
      assert xs[..n + 1] == xs[..n] + [xs[n]];
      InsertKeepsOrder(key, ys, xs[n]);
      InsertKeepsElements(key, ys, xs[n]);
      ys := Insert(key, ys, xs[n]);
    }
    assert xs[..|xs|] == xs;
  }

  lemma SameMembers<T>(xs: seq<T>, ys: seq<T>)
    requires multiset(xs) == multiset(ys)
    ensures |xs| == |ys|
    ensures forall x :: x in xs <==> x in ys
  {
    assert |xs| == |multiset(xs)| && |ys| == |multiset(ys)|;
    forall x ensures x in xs <==> x in ys {
      assert x in multiset(xs) <==> x in multiset(ys);
    }
  }
}
