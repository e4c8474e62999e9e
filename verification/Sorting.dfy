/** Sorting a finite set of ids by a key, ties broken by the id, as the drive listings and the change log do. */
module Sorting {

  predicate Before(key: nat -> real, a: nat, b: nat) {
    key(a) < key(b) || (key(a) == key(b) && a < b)
  }

  predicate IsLeast(key: nat -> real, s: set<nat>, m: nat) {
    m in s && forall x | x in s :: m == x || Before(key, m, x)
  }

  predicate IsSorted(key: nat -> real, r: seq<nat>) {
    forall i, j :: 0 <= i < j < |r| ==> Before(key, r[i], r[j])
  }

  lemma LeastExists(key: nat -> real, s: set<nat>) returns (m: nat)
    requires s != {}
    ensures IsLeast(key, s, m)
  {
    var first :| first in s;
    var rest := s - {first};
    m := first;
    if rest != {} {
      var n := LeastExists(key, rest);
      m := if Before(key, n, first) then n else first;
      forall x | x in s ensures m == x || Before(key, m, x) {
        assert x == first || (x in rest && (n == x || Before(key, n, x)));
      }
    } else {
      assert s == {first};
    }
  }

  lemma HasLeast(key: nat -> real, s: set<nat>)
    requires s != {}
    ensures exists m :: IsLeast(key, s, m)
  {
    var m := LeastExists(key, s);
  }

  function Sorted(key: nat -> real, s: set<nat>): (r: seq<nat>)
    ensures |r| == |s|
    ensures forall x :: x in r <==> x in s
    ensures forall i :: 0 <= i < |r| ==> r[i] in s
    ensures IsSorted(key, r)
  {
    if s == {} then []
    else
      HasLeast(key, s);
      var m :| IsLeast(key, s, m);
      [m] + Sorted(key, s - {m})
  }

  lemma HeadIn(r: seq<nat>)
    requires r != []
    ensures r[0] in r
  {
  }

  /** There is only one sorted listing, even under another key that agrees on the listed ids. */
  lemma {:induction false} SortedOnce(key: nat -> real, other: nat -> real, a: seq<nat>, b: seq<nat>)
    requires IsSorted(key, a) && IsSorted(other, b)
    requires forall x :: x in a <==> x in b
    requires forall x :: x in a ==> key(x) == other(x)
    ensures a == b
    decreases |a|
  {
    if a == [] {
      if b != [] { HeadIn(b); assert false; }
    } else {
      HeadIn(a);
      HeadIn(b);
      var i :| 0 <= i < |a| && a[i] == b[0];
      var j :| 0 <= j < |b| && b[j] == a[0];
      assert i == 0 || Before(key, a[0], b[0]);
      assert j == 0 || Before(other, b[0], a[0]);
      forall x ensures x in a[1..] <==> x in b[1..] {
        assert x in a <==> x == a[0] || x in a[1..];
        assert x in b <==> x == b[0] || x in b[1..];
      }
      SortedOnce(key, other, a[1..], b[1..]);
    }
  }

  lemma SortedHasNoRepeats(key: nat -> real, r: seq<nat>)
    requires IsSorted(key, r)
    ensures forall i, j :: 0 <= i < j < |r| ==> r[i] != r[j]
  {
    forall i, j | 0 <= i < j < |r| ensures r[i] != r[j] {
      assert Before(key, r[i], r[j]);
    }
  }
}
