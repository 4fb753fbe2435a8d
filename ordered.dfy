/**
 * Ascending enumeration of finite key sets: the iteration order of `std::set`
 * and `std::map` that the engine relies on.
 */
module Ordered {
  predicate Increasing(s: seq<int>)
  {
    forall i, j :: 0 <= i < j < |s| ==> s[i] < s[j]
  }

  predicate IsLeast(m: int, s: set<int>)
  {
    m in s && forall x :: x in s ==> m <= x
  }

  lemma {:induction false} LeastExists(s: set<int>)
    requires s != {}
    ensures exists m :: IsLeast(m, s)
    decreases |s|
  {
    if forall x :: x !in s {
      assert false;
    }
    var y :| y in s;
    if s == {y} {
      assert IsLeast(y, s);
    } else {
      var t := s - {y};
      LeastExists(t);
      var m :| IsLeast(m, t);
      var lo := if y < m then y else m;
      forall x | x in s
        ensures lo <= x
      {
        if x != y {
          assert x in t;
        }
      }
      assert IsLeast(lo, s);
    }
  }

  /** The elements of `s` in ascending order, as a `std::set<size_t>` yields them. */
  function SortedInts(s: set<int>): (r: seq<int>)
    ensures |r| == |s|
    decreases |s|
  {
    if s == {} then []
    else
      LeastExists(s);
      var m :| IsLeast(m, s);
      [m] + SortedInts(s - {m})
  }

  /** The list of `s` in ascending order holds exactly the elements of `s`. */
  lemma SortedIntsMembers(s: set<int>)
    ensures forall x :: x in SortedInts(s) <==> x in s
    ensures forall k :: 0 <= k < |SortedInts(s)| ==> SortedInts(s)[k] in s
  {
    SortedIntsFacts(s);
  }

  /** An element below every element of an ascending list can be put in front of it. */
  lemma IntsPrepend(m: int, rest: seq<int>)
    requires Increasing(rest) && forall k :: 0 <= k < |rest| ==> m < rest[k]
    ensures Increasing([m] + rest)
  {
    var r := [m] + rest;
    forall i, j | 0 <= i < j < |r|
      ensures r[i] < r[j]
    {
      assert r[j] == rest[j - 1];
      if i > 0 {
        assert r[i] == rest[i - 1];
      }
    }
  }

  /** The enumeration ascends and lists exactly the elements of the set. */
  lemma {:induction false} SortedIntsFacts(s: set<int>)
    ensures Increasing(SortedInts(s))
    ensures forall x :: x in SortedInts(s) <==> x in s
    decreases |s|
  {
    if s != {} {
      LeastExists(s);
      var m :| IsLeast(m, s);
      forall a, b | IsLeast(a, s) && IsLeast(b, s)
        ensures a == b
      {
      }
      var rest := SortedInts(s - {m});
      assert SortedInts(s) == [m] + rest;
      SortedIntsFacts(s - {m});
      forall k | 0 <= k < |rest|
        ensures m < rest[k]
      {
        assert rest[k] in s - {m};
      }
      IntsPrepend(m, rest);
    }
  }

  /** Lexicographic order on the `(block, port)` keys of `std::map<std::pair<size_t, size_t>, …>`. */
  predicate PairLess(a: (nat, nat), b: (nat, nat))
  {
    a.0 < b.0 || (a.0 == b.0 && a.1 < b.1)
  }

  predicate PairsIncreasing(s: seq<(nat, nat)>)
  {
    forall i, j :: 0 <= i < j < |s| ==> PairLess(s[i], s[j])
  }

  predicate IsLeastPair(m: (nat, nat), s: set<(nat, nat)>)
  {
    m in s && forall x :: x in s && x != m ==> PairLess(m, x)
  }

  lemma {:induction false} LeastPairExists(s: set<(nat, nat)>)
    requires s != {}
    ensures exists m :: IsLeastPair(m, s)
    decreases |s|
  {
    if forall x :: x !in s {
      assert false;
    }
    var y :| y in s;
    if s == {y} {
      assert IsLeastPair(y, s);
    } else {
      var t := s - {y};
      LeastPairExists(t);
      var m :| IsLeastPair(m, t);
      var lo := if PairLess(y, m) then y else m;
      forall x | x in s && x != lo
        ensures PairLess(lo, x)
      {
        if x != y {
          assert x in t;
        }
      }
      assert IsLeastPair(lo, s);
    }
  }

  /** The keys of `s` in ascending lexicographic order. */
  function SortedPairs(s: set<(nat, nat)>): (r: seq<(nat, nat)>)
    ensures |r| == |s|
    decreases |s|
  {
    if s == {} then []
    else
      LeastPairExists(s);
      var m :| IsLeastPair(m, s);
      [m] + SortedPairs(s - {m})
  }

  /** A key below every key of an ascending enumeration can be put in front of it. */
  lemma PairsPrepend(m: (nat, nat), rest: seq<(nat, nat)>)
    requires PairsIncreasing(rest) && forall k :: 0 <= k < |rest| ==> PairLess(m, rest[k])
    ensures PairsIncreasing([m] + rest)
  {
    var r := [m] + rest;
    forall i, j | 0 <= i < j < |r|
      ensures PairLess(r[i], r[j])
    {
      assert r[j] == rest[j - 1];
      if i > 0 {
        assert r[i] == rest[i - 1];
      }
    }
  }

  /** The enumeration ascends and lists exactly the keys of the set. */
  lemma {:induction false} SortedPairsFacts(s: set<(nat, nat)>)
    ensures PairsIncreasing(SortedPairs(s))
    ensures forall x :: x in SortedPairs(s) <==> x in s
    decreases |s|
  {
    if s != {} {
      LeastPairExists(s);
      var m :| IsLeastPair(m, s);
      forall a, b | IsLeastPair(a, s) && IsLeastPair(b, s)
        ensures a == b
      {
      }
      var rest := SortedPairs(s - {m});
      assert SortedPairs(s) == [m] + rest;
      SortedPairsFacts(s - {m});
      forall k | 0 <= k < |rest|
        ensures PairLess(m, rest[k])
      {
        assert rest[k] in s - {m};
      }
      PairsPrepend(m, rest);
    }
  }
}
