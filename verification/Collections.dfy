/** Facts about sequences and finite sets that several modules use. */
module Collections {

  function Elements<T>(s: seq<T>): set<T> {
    set x | x in s
  }

  ghost predicate Distinct<T>(s: seq<T>) {
    forall i, j | 0 <= i < j < |s| :: s[i] != s[j]
  }

  lemma {:induction false} DistinctElements<T>(s: seq<T>)
    requires Distinct(s)
    ensures |Elements(s)| == |s|
  {
    if s != [] {
      var front, last := s[..|s| - 1], s[|s| - 1];
      DistinctElements(front);
      assert s == front + [last] && last !in Elements(front);
      assert Elements(s) == Elements(front) + {last};
    }
  }

  lemma SubsetIsSmaller<T>(a: set<T>, b: set<T>)
    requires a <= b
    ensures |a| <= |b|
    ensures |a| == |b| ==> a == b
  {
    assert b == a + (b - a);
  }

  /** Some element of a nonempty set. */
  ghost function Pick<T>(s: set<T>): (x: T)
    requires s != {}
    ensures x in s
  {
    var x :| x in s;
    x
  }

  /** Some element of a that b does not have. */
  ghost function PickMissing<T>(a: set<T>, b: set<T>): (x: T)
    requires !(a <= b)
    ensures x in a && x !in b
  {
    var x :| x in a && x !in b;
    x
  }

  lemma EmptyDifference<T>(a: set<T>, b: set<T>)
    ensures a - b == {} <==> a <= b
  {
    if a - b == {} {
      forall x | x in a
        ensures x in b
      {
        assert x !in a - b;
      }
    }
  }

  lemma Reassociate<T>(a: seq<T>, b: seq<T>, c: seq<T>)
    ensures (a + b) + c == a + (b + c)
  {
  }

  /** The least element of a nonempty finite set, as a heap would pop it. */
  function Least(s: set<int>): (least: int)
    requires s != {}
    ensures least in s && forall x | x in s :: least <= x
  {
    LeastExists(s);
    var least :| least in s && forall x | x in s :: least <= x;
    least
  }

  lemma {:induction false} LeastExists(s: set<int>)
    requires s != {}
    ensures exists least :: least in s && forall x | x in s :: least <= x
  {
    var some := Pick(s);
    var rest := s - {some};
    if rest == {} {
      assert s == {some};
    } else {
      LeastExists(rest);
      var least :| least in rest && forall x | x in rest :: least <= x;
      var m := if some <= least then some else least;
      assert m in s;
      forall x | x in s
        ensures m <= x
      {
        assert x == some || x in rest;
      }
    }
  }

  lemma PrependElement<T>(x: T, rest: seq<T>)
    ensures Elements([x] + rest) == {x} + Elements(rest)
  {
  }

  lemma AppendElement<T>(front: seq<T>, x: T)
    ensures Elements(front + [x]) == Elements(front) + {x}
  {
  }

  lemma RemovePutBack<T>(s: set<T>, x: T)
    requires x in s
    ensures {x} + (s - {x}) == s && |s - {x}| < |s|
  {
  }

  ghost predicate Increasing(s: seq<int>) {
    forall i, j | 0 <= i < j < |s| :: s[i] < s[j]
  }

  lemma PrependLeast(least: int, rest: seq<int>)
    requires Increasing(rest) && forall x | x in Elements(rest) :: least < x
    ensures Increasing([least] + rest)
  {
    var all := [least] + rest;
    forall i, j | 0 <= i < j < |all|
      ensures all[i] < all[j]
    {
      assert rest[j - 1] in Elements(rest);
    }
  }

  /** The elements of a finite set in increasing order. */
  function Ascending(s: set<int>): (r: seq<int>)
    ensures Elements(r) == s && Increasing(r)
    decreases |s|
  {
    if s == {} then []
    else
      var least := Least(s);
      assert |s - {least}| < |s| by { RemovePutBack(s, least); }
      var rest := Ascending(s - {least});
      assert Increasing([least] + rest) by { PrependLeast(least, rest); }
      assert Elements([least] + rest) == s by {
        RemovePutBack(s, least);
        PrependElement(least, rest);
      }
      [least] + rest
  }
}
