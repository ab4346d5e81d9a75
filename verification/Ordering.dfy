/** Sorting by keys: lexicographic order on sequences, and the sorted list of a set. */
module Ordering {

  ghost predicate Injective<T(!new)>(rank: T -> int) {
    forall x, y :: rank(x) == rank(y) ==> x == y
  }

  /** Text is ordered by code point. */
  function Rank(c: char): int {
    c as int
  }

  lemma RankInjective()
    ensures Injective(Rank)
  {
  }

  predicate Less<T>(a: seq<T>, b: seq<T>, rank: T -> int) {
    b != []
    && (a == [] || rank(a[0]) < rank(b[0])
        || (rank(a[0]) == rank(b[0]) && Less(a[1..], b[1..], rank)))
  }

  lemma {:induction false} LessTotal<T(!new)>(a: seq<T>, b: seq<T>, rank: T -> int)
    requires Injective(rank)
    ensures a != b ==> Less(a, b, rank) || Less(b, a, rank)
    ensures !(Less(a, b, rank) && Less(b, a, rank))
  {
    if a != [] && b != [] {
      LessTotal(a[1..], b[1..], rank);
      if rank(a[0]) == rank(b[0]) && a[1..] == b[1..] {
        assert a == [a[0]] + a[1..] && b == [b[0]] + b[1..];
      }
    }
  }

  lemma {:induction false} LessTransitive<T>(a: seq<T>, b: seq<T>, c: seq<T>, rank: T -> int)
    requires Less(a, b, rank) && Less(b, c, rank)
    ensures Less(a, c, rank)
  {
    if a != [] && rank(a[0]) == rank(b[0]) == rank(c[0]) {
      LessTransitive(a[1..], b[1..], c[1..], rank);
    }
  }

  ghost predicate IsLeast<T(!new)>(key: seq<T>, keys: set<seq<T>>, rank: T -> int) {
    key in keys && forall other | other in keys :: other == key || Less(key, other, rank)
  }

  lemma LeastExists<T(!new)>(keys: set<seq<T>>, rank: T -> int)
    requires Injective(rank) && keys != {}
    ensures exists key :: IsLeast(key, keys, rank)
  {
    var key :| key in keys;
    var rest := keys - {key};
    if rest == {} {
      assert keys == {key};
      assert IsLeast(key, keys, rank);
    } else {
      LeastExists(rest, rank);
      var least :| IsLeast(least, rest, rank);
      LessTotal(key, least, rank);
      if Less(key, least, rank) {
        forall other | other in keys && other != key
          ensures Less(key, other, rank)
        {
          if other != least {
            LessTransitive(key, least, other, rank);
          }
        }
        assert IsLeast(key, keys, rank);
      } else {
        assert IsLeast(least, keys, rank);
      }
    }
  }

  lemma LeastIsOne<T(!new)>(a: seq<T>, b: seq<T>, keys: set<seq<T>>, rank: T -> int)
    requires Injective(rank) && IsLeast(a, keys, rank) && IsLeast(b, keys, rank)
    ensures a == b
  {
    LessTotal(a, b, rank);
  }

  /** The first key in sorted order. */
  ghost function Least<T(!new)>(keys: set<seq<T>>, rank: T -> int): (key: seq<T>)
    requires Injective(rank) && keys != {}
    ensures IsLeast(key, keys, rank)
  {
    LeastExists(keys, rank);
    var key :| IsLeast(key, keys, rank);
    key
  }

  ghost function SortedKeys<T(!new)>(keys: set<seq<T>>, rank: T -> int): (sorted: seq<seq<T>>)
    requires Injective(rank)
    ensures forall key :: key in sorted <==> key in keys
    ensures |sorted| == |keys|
  {
    if keys == {} then []
    else
      var first := Least(keys, rank);
      [first] + SortedKeys(keys - {first}, rank)
  }

  /** The first name in sorted order. */
  method FindLeast(names: set<string>) returns (best: string)
    requires names != {}
    ensures IsLeast(best, names, Rank)
  {
    RankInjective();
    best :| best in names;
    var rest := names - {best};
    while rest != {}
      invariant rest <= names && best in names && best !in rest
      invariant forall name | name in names && name !in rest :: name == best || Less(best, name, Rank)
      decreases rest
    {
      var name :| name in rest;
      rest := rest - {name};
      LessTotal(best, name, Rank);
      if Less(name, best, Rank) {
        forall other | other in names && other !in rest && other != name
          ensures Less(name, other, Rank)
        {
          if other != best {
            LessTransitive(name, best, other, Rank);
          }
        }
        best := name;
      }
    }
  }

  lemma SortedUnfolds<T(!new)>(first: seq<T>, keys: set<seq<T>>, rank: T -> int)
    requires Injective(rank) && IsLeast(first, keys, rank)
    ensures SortedKeys(keys, rank) == [first] + SortedKeys(keys - {first}, rank)
  {
    LeastIsOne(first, Least(keys, rank), keys, rank);
  }

  lemma Shift<T>(a: seq<T>, x: T, b: seq<T>)
    ensures a + ([x] + b) == (a + [x]) + b
  {
  }

  /** The names in sorted order. */
  method Sort(names: set<string>) returns (sorted: seq<string>)
    ensures Injective(Rank) && sorted == SortedKeys(names, Rank)
  {
    RankInjective();
    sorted := [];
    var rest := names;
    while rest != {}
      invariant sorted + SortedKeys(rest, Rank) == SortedKeys(names, Rank)
      decreases rest
    {
      var first := FindLeast(rest);
      SortedUnfolds(first, rest, Rank);
      Shift(sorted, first, SortedKeys(rest - {first}, Rank));
      sorted, rest := sorted + [first], rest - {first};
    }
    assert sorted == sorted + SortedKeys(rest, Rank);
  }
}
