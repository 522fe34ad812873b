/**
 * `Array.from(new Set(xs)).sort(...)`: the distinct values of a list in
 * sorted order.  The selectors sort years numerically, newest first, and
 * mediums with JavaScript's default string order.
 */
module Ordering {
  import opened Text

  predicate Descending(s: seq<int>) { forall i, j :: 0 <= i < j < |s| ==> s[i] > s[j] }

  predicate Ascending(s: seq<string>) { forall i, j :: 0 <= i < j < |s| ==> StrLess(s[i], s[j]) }

  /** Putting a value in front keeps a list descending when it is above every value of the list. */
  lemma DescendingCons(x: int, s: seq<int>)
    requires Descending(s)
    requires forall z :: z in s ==> x > z
    ensures Descending([x] + s)
  {
    var r := [x] + s;
    forall i, j | 0 <= i < j < |r| ensures r[i] > r[j] {
      assert r[j] == s[j - 1] && s[j - 1] in s;
      if i > 0 {
        assert r[i] == s[i - 1];
      }
    }
  }

  function InsertDescending(s: seq<int>, y: int): (r: seq<int>)
    requires Descending(s)
    ensures Descending(r)
    ensures forall z :: z in r <==> z in s || z == y
  {
    if s == [] then [y]
    else if y == s[0] then s
    else if y > s[0] then
      DescendingCons(y, s);
      [y] + s
    else
      var rest := InsertDescending(s[1..], y);
      DescendingCons(s[0], rest);
      [s[0]] + rest
  }

  /** The distinct values of xs, largest first. */
  function DistinctDescending(xs: seq<int>): (r: seq<int>)
    ensures Descending(r)
    ensures forall z :: z in r <==> z in xs
  {
    if xs == [] then [] else InsertDescending(DistinctDescending(xs[..|xs| - 1]), xs[|xs| - 1])
  }

  /** A value of a list other than its first is in the rest. */
  lemma InTail<T>(z: T, s: seq<T>)
    requires z in s && z != s[0]
    ensures z in s[1..]
  {
    var k :| 0 <= k < |s| && s[k] == z;
    assert s[1..][k - 1] == z;
  }

  /** The first value of a descending list is its largest. */
  lemma FirstIsLargest(s: seq<int>)
    requires Descending(s) && s != []
    ensures forall z :: z in s ==> z <= s[0]
  {
  }

  /** There is only one descending list with a given set of values, so any way of sorting gives this one. */
  lemma {:induction false} DescendingUnique(a: seq<int>, b: seq<int>)
    requires Descending(a) && Descending(b)
    requires forall z :: z in a <==> z in b
    ensures a == b
  {
    assert a != [] ==> b != [] by {
      if a != [] {
        var w := a[0];
        assert w in a;
        assert w in b;
      }
    }
    assert b != [] ==> a != [] by {
      if b != [] {
        var w := b[0];
        assert w in b;
        assert w in a;
      }
    }
    if a != [] {
      FirstIsLargest(a);
      FirstIsLargest(b);
      var x, y := a[0], b[0];
      assert x in a && x in b && y in b && y in a;
      assert x == y;
      forall z ensures z in a[1..] <==> z in b[1..] {
        if z in a[1..] {
          var i :| 0 <= i < |a[1..]| && a[1..][i] == z;
          assert a[i + 1] == z && z < a[0];
          InTail(z, b);
        }
        if z in b[1..] {
          var i :| 0 <= i < |b[1..]| && b[1..][i] == z;
          assert b[i + 1] == z && z < b[0];
          InTail(z, a);
        }
      }
      DescendingUnique(a[1..], b[1..]);
      assert a == [a[0]] + a[1..] && b == [b[0]] + b[1..];
    }
  }

  /** A descending list never repeats a value. */
  lemma DescendingDistinct(s: seq<int>)
    requires Descending(s)
    ensures forall i, j :: 0 <= i < |s| && 0 <= j < |s| && i != j ==> s[i] != s[j]
  {
  }

  /** Putting a value in front keeps a list ascending when it is below every value of the list. */
  lemma AscendingCons(x: string, s: seq<string>)
    requires Ascending(s)
    requires forall z :: z in s ==> StrLess(x, z)
    ensures Ascending([x] + s)
  {
    var r := [x] + s;
    forall i, j | 0 <= i < j < |r| ensures StrLess(r[i], r[j]) {
      assert r[j] == s[j - 1] && s[j - 1] in s;
      if i > 0 {
        assert r[i] == s[i - 1];
      }
    }
  }

  /** Below the first value of an ascending list is below all of it. */
  lemma BelowFirst(y: string, s: seq<string>)
    requires Ascending(s) && s != [] && StrLess(y, s[0])
    ensures forall z :: z in s ==> StrLess(y, z)
  {
    forall z | z in s ensures StrLess(y, z) {
      var k :| 0 <= k < |s| && s[k] == z;
      if k > 0 {
        StrLessTransitive(y, s[0], z);
      }
    }
  }

  function InsertAscending(s: seq<string>, y: string): (r: seq<string>)
    requires Ascending(s)
    ensures Ascending(r)
    ensures forall z :: z in r <==> z in s || z == y
  {
    if s == [] then [y]
    else if y == s[0] then s
    else if StrLess(y, s[0]) then
      BelowFirst(y, s);
      AscendingCons(y, s);
      [y] + s
    else
      StrLessTotal(y, s[0]);
      var rest := InsertAscending(s[1..], y);
      assert forall z :: z in s[1..] ==> StrLess(s[0], z) by {
        forall z | z in s[1..] ensures StrLess(s[0], z) {
          var k :| 0 <= k < |s[1..]| && s[1..][k] == z;
          assert s[k + 1] == z;
        }
      }
      AscendingCons(s[0], rest);
      [s[0]] + rest
  }

  /** The distinct values of xs in JavaScript's default string order. */
  function DistinctAscending(xs: seq<string>): (r: seq<string>)
    ensures Ascending(r)
    ensures forall z :: z in r <==> z in xs
  {
    if xs == [] then [] else InsertAscending(DistinctAscending(xs[..|xs| - 1]), xs[|xs| - 1])
  }
}
