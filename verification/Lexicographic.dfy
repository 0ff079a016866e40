/** The order in which Go compares strings, and `sort.Strings` over it. */
module Lexicographic {

  predicate Leq(a: string, b: string) {
    if a == [] then true
    else if b == [] then false
    else a[0] < b[0] || (a[0] == b[0] && Leq(a[1..], b[1..]))
  }

  lemma LeqTotal(a: string, b: string)
    ensures Leq(a, b) || Leq(b, a)
  {}

  lemma LeqAntisymmetric(a: string, b: string)
    requires Leq(a, b) && Leq(b, a)
    ensures a == b
  {
    if a != [] && b != [] {
      LeqAntisymmetric(a[1..], b[1..]);
      assert a == [a[0]] + a[1..] && b == [b[0]] + b[1..];
    }
  }

  lemma LeqTransitive(a: string, b: string, c: string)
    requires Leq(a, b) && Leq(b, c)
    ensures Leq(a, c)
  {}

  /** The first character in which two strings differ decides. */
  lemma {:induction false} FirstDifferenceDecides(p: string, x: char, y: char, s: string, t: string)
    requires x != y
    ensures Leq(p + [x] + s, p + [y] + t) <==> x < y
  {
    var a, b := p + [x] + s, p + [y] + t;
    if p == [] {
      assert a[0] == x && b[0] == y;
    } else {
      assert a[0] == b[0] == p[0] && a[1..] == p[1..] + [x] + s && b[1..] == p[1..] + [y] + t;
      FirstDifferenceDecides(p[1..], x, y, s, t);
    }
  }

  /** A string comes before its extensions. */
  lemma {:induction false} PrefixComesFirst(p: string, s: string)
    ensures Leq(p, p + s)
    ensures s != [] ==> !Leq(p + s, p)
  {
    if p != [] {
      assert (p + s)[0] == p[0] && (p + s)[1..] == p[1..] + s;
      PrefixComesFirst(p[1..], s);
    }
  }

  ghost predicate Sorted(s: seq<string>) {
    forall i, j :: 0 <= i < j < |s| ==> Leq(s[i], s[j])
  }

  /** `s` lists every member of `elems` exactly once. */
  ghost predicate Lists(s: seq<string>, elems: set<string>) {
    && (forall x :: x in elems <==> x in s)
    && forall i, j :: 0 <= i < j < |s| ==> s[i] != s[j]
  }

  lemma {:induction false} ListsToMultiset(s: seq<string>, elems: set<string>)
    requires Lists(s, elems)
    ensures multiset(s) == multiset(elems)
  {
    if s == [] {
      assert elems == {};
    } else {
      var t, x := s[..|s|-1], s[|s|-1];
      assert s == t + [x];
      assert Lists(t, elems - {x}) by {
        forall y ensures y in elems - {x} <==> y in t {
          assert y in s <==> y in t || y == x;
        }
      }
      ListsToMultiset(t, elems - {x});
      assert multiset(elems) == multiset(elems - {x}) + multiset{x};
    }
  }

  lemma MultisetToLists(s: seq<string>, elems: set<string>)
    requires multiset(s) == multiset(elems)
    ensures Lists(s, elems)
  {
    forall x ensures x in elems <==> x in s {
      assert x in s <==> x in multiset(s);
    }
    forall i, j | 0 <= i < j < |s| ensures s[i] != s[j] {
      assert s == s[..j] + [s[j]] + s[j+1..];
      assert multiset(s)[s[j]] <= 1;
      assert multiset(s[..j])[s[i]] >= 1;
    }
  }

  function Insert(x: string, s: seq<string>): (r: seq<string>)
    requires Sorted(s)
    ensures multiset(r) == multiset(s) + multiset{x}
    ensures Sorted(r)
  {
    if s == [] then [x]
    else if Leq(x, s[0]) then
      assert forall i | 0 <= i < |s| :: Leq(x, s[i]) by {
        forall i | 0 < i < |s| ensures Leq(x, s[i]) { LeqTransitive(x, s[0], s[i]); }
      }
      [x] + s
    else
      var t := Insert(x, s[1..]);
      assert s == [s[0]] + s[1..];
      assert forall y | y in t :: Leq(s[0], y) by {
        LeqTotal(x, s[0]);
        forall y | y in t ensures Leq(s[0], y) {
          assert y in multiset(t);
          assert y in multiset(s[1..]) || y == x;
        }
      }
      [s[0]] + t
  }

  /** `sort.Strings`. */
  function Sort(s: seq<string>): (r: seq<string>)
    ensures multiset(r) == multiset(s)
    ensures Sorted(r)
  {
    if s == [] then []
    else
      assert s == s[..|s|-1] + [s[|s|-1]];
      Insert(s[|s|-1], Sort(s[..|s|-1]))
  }

  lemma HeadIsLeast(s: seq<string>, x: string)
    requires s != [] && Sorted(s) && x in multiset(s)
    ensures Leq(s[0], x)
  {
    var i :| 0 <= i < |s| && s[i] == x;
    LeqTotal(x, x);
  }

  lemma TailMultiset(s: seq<string>)
    requires s != []
    ensures multiset(s[1..]) == multiset(s) - multiset{s[0]}
  {
    assert s == [s[0]] + s[1..];
  }

  lemma SameMultisetSameLength(a: seq<string>, b: seq<string>)
    requires multiset(a) == multiset(b)
    ensures |a| == |b|
  {
    assert |multiset(a)| == |multiset(b)|;
  }

  lemma SameHead(a: seq<string>, b: seq<string>)
    requires Sorted(a) && Sorted(b) && multiset(a) == multiset(b) && |a| == |b| > 0
    ensures a[0] == b[0]
  {
    hide Leq, Sorted;
    assert b[0] in multiset(b) && a[0] in multiset(a);
    HeadIsLeast(a, b[0]);
    HeadIsLeast(b, a[0]);
    LeqAntisymmetric(a[0], b[0]);
  }

  lemma TailSorted(s: seq<string>)
    requires Sorted(s) && s != []
    ensures Sorted(s[1..])
  {
    hide Leq;
  }

  /** Sorting forgets everything but how often each string occurs. */
  lemma {:induction false} SortedUnique(a: seq<string>, b: seq<string>)
    requires Sorted(a) && Sorted(b) && multiset(a) == multiset(b)
    ensures a == b
  {
    hide Leq, Sorted;
    SameMultisetSameLength(a, b);
    if a != [] {
      SameHead(a, b);
      TailMultiset(a);
      TailMultiset(b);
      TailSorted(a);
      TailSorted(b);
      SortedUnique(a[1..], b[1..]);
      assert a == [a[0]] + a[1..] && b == [b[0]] + b[1..];
    }
  }

  lemma {:induction false} ListingExists(s: set<string>) returns (r: seq<string>)
    ensures Lists(r, s) && Sorted(r)
  {
    if s == {} {
      r := [];
    } else {
      var x :| x in s;
      assert multiset(s) == multiset(s - {x}) + multiset{x};
      var t := ListingExists(s - {x});
      r := Insert(x, t);
      ListsToMultiset(t, s - {x});
      MultisetToLists(r, s);
    }
  }

  /** The members of a set in sorted order. */
  ghost function Enumerate(s: set<string>): (r: seq<string>)
    ensures Lists(r, s) && Sorted(r)
  {
    assert exists r :: Lists(r, s) && Sorted(r) by { var r := ListingExists(s); }
    var r :| Lists(r, s) && Sorted(r);
    r
  }

  /** Sorting any listing of a set gives the one enumeration of it. */
  lemma SortIsEnumerate(s: seq<string>, elems: set<string>)
    requires Lists(s, elems)
    ensures Sort(s) == Enumerate(elems) && Lists(Sort(s), elems)
  {
    ListsToMultiset(s, elems);
    MultisetToLists(Sort(s), elems);
    ListsToMultiset(Enumerate(elems), elems);
    SortedUnique(Sort(s), Enumerate(elems));
  }

  lemma ListsSize(s: seq<string>, elems: set<string>)
    requires Lists(s, elems)
    ensures |s| == |elems|
  {
    ListsToMultiset(s, elems);
    assert |multiset(s)| == |multiset(elems)|;
  }
}
