/** The order in which automatic routing lists targets: by alias, whatever order the catalog is kept in. */
module Aliases {
  import opened Prelude

  /** Python's order on strings. */
  predicate StringLess(a: string, b: string) {
    if b == "" then false
    else if a == "" then true
    else a[0] < b[0] || (a[0] == b[0] && StringLess(a[1..], b[1..]))
  }

  /** The strings agree up to some position, where the first ends or has the smaller character. */
  lemma {:induction false} StringLessExactly(a: string, b: string)
    ensures StringLess(a, b) <==>
      exists k :: 0 <= k <= |a| && k < |b| && a[..k] == b[..k] && (k == |a| || a[k] < b[k])
  {
    if a != "" && b != "" && a[0] == b[0] {
      var x, y := a[1..], b[1..];
      StringLessExactly(x, y);
      if StringLess(x, y) {
        var k :| 0 <= k <= |x| && k < |y| && x[..k] == y[..k] && (k == |x| || x[k] < y[k]);
        assert a[..k + 1] == [a[0]] + x[..k] && b[..k + 1] == [b[0]] + y[..k];
        assert k + 1 == |a| || a[k + 1] < b[k + 1];
      }
      if k :| 0 <= k <= |a| && k < |b| && a[..k] == b[..k] && (k == |a| || a[k] < b[k]) {
        assert k > 0;
        assert x[..k - 1] == a[..k][1..] && y[..k - 1] == b[..k][1..];
        assert k - 1 == |x| || x[k - 1] < y[k - 1];
      }
    } else if StringLess(a, b) {
      assert a[..0] == b[..0];
    } else if k :| 0 <= k <= |a| && k < |b| && a[..k] == b[..k] && (k == |a| || a[k] < b[k]) {
      if k > 0 {
        assert a[..k][0] == b[..k][0];
      }
    }
  }

  lemma StringLessIrreflexive(a: string)
    ensures !StringLess(a, a)
  {}

  lemma StringLessTotal(a: string, b: string)
    ensures a == b || StringLess(a, b) || StringLess(b, a)
  {
    if a != "" && b != "" && a[0] == b[0] {
      StringLessTotal(a[1..], b[1..]);
      assert a == [a[0]] + a[1..] && b == [b[0]] + b[1..];
    }
  }

  lemma StringLessTransitive(a: string, b: string, c: string)
    requires StringLess(a, b) && StringLess(b, c)
    ensures StringLess(a, c)
  {
    if a != "" && b != "" && c != "" && a[0] == b[0] == c[0] {
      StringLessTransitive(a[1..], b[1..], c[1..]);
    }
  }

  predicate StrictlySorted(xs: seq<string>) {
    forall i, j | 0 <= i < j < |xs| :: StringLess(xs[i], xs[j])
  }

  ghost predicate IsLeast(s: set<string>, m: string) {
    m in s && forall x | x in s && x != m :: StringLess(m, x)
  }

  lemma LeastWith(s: set<string>, m: string, y: string)
    requires y in s && IsLeast(s - {y}, m)
    ensures IsLeast(s, if StringLess(y, m) then y else m)
  {
    StringLessTotal(m, y);
    forall x | x in s - {y} && StringLess(y, m)
      ensures StringLess(y, x)
    {
      if x != m { StringLessTransitive(y, m, x); }
    }
  }

  lemma {:induction false} HasLeast(s: set<string>) returns (m: string)
    requires s != {}
    ensures IsLeast(s, m)
    decreases |s|
  {
    var y :| y in s;
    if s == {y} {
      m := y;
    } else {
      assert s - {y} != {};
      m := HasLeast(s - {y});
      LeastWith(s, m, y);
      m := if StringLess(y, m) then y else m;
    }
  }

  ghost function Least(s: set<string>): (m: string)
    requires s != {}
    ensures IsLeast(s, m)
  {
    LeastExists(s);
    var m :| IsLeast(s, m);
    m
  }

  lemma LeastExists(s: set<string>)
    requires s != {}
    ensures exists m :: IsLeast(s, m)
  {
    var m := HasLeast(s);
  }

  /** The elements of a set in order. */
  ghost function InOrder(s: set<string>): (xs: seq<string>)
    ensures forall x :: x in xs <==> x in s
    decreases |s|
  {
    if s == {} then [] else [Least(s)] + InOrder(s - {Least(s)})
  }

  lemma {:induction false} InOrderIsSorted(s: set<string>)
    ensures StrictlySorted(InOrder(s))
    decreases |s|
  {
    if s != {} {
      InOrderIsSorted(s - {Least(s)});
      var rest := InOrder(s - {Least(s)});
      forall i, j | 0 <= i < j < |InOrder(s)|
        ensures StringLess(InOrder(s)[i], InOrder(s)[j])
      {
        if i == 0 { assert InOrder(s)[j] == rest[j - 1] && rest[j - 1] in rest; }
      }
    }
  }

  lemma LeastIsUnique(s: set<string>, m: string)
    requires IsLeast(s, m)
    ensures m == Least(s)
  {
    if m != Least(s) {
      StringLessTransitive(m, Least(s), m);
      StringLessIrreflexive(m);
    }
  }

  /** A strictly sorted list is determined by its elements. */
  lemma {:induction false} SortedIsInOrder(xs: seq<string>)
    requires StrictlySorted(xs)
    ensures xs == InOrder(set x | x in xs)
    decreases |xs|
  {
    if xs != [] {
      var s := set x | x in xs;
      var m := xs[0];
      forall x | x in s && x != m ensures StringLess(m, x) {
        var i :| 0 <= i < |xs| && xs[i] == x;
        assert i > 0;
      }
      LeastIsUnique(s, m);
      StringLessIrreflexive(m);
      assert m !in xs[1..];
      assert (set x | x in xs[1..]) == s - {m};
      SortedIsInOrder(xs[1..]);
      assert xs == [m] + xs[1..];
    } else {
      assert (set x | x in xs) == {};
    }
  }

  /** A smaller set lists fewer elements in the same order. */
  lemma {:induction false} InOrderMonotone(s: set<string>, t: set<string>)
    requires s <= t
    ensures Subsequence(InOrder(s), InOrder(t))
    decreases |t|
  {
    if s != {} {
      assert t != {};
      var m := Least(t);
      var rest := InOrder(t - {m});
      assert InOrder(t)[1..] == rest;
      if m in s {
        LeastIsUnique(s, m);
        InOrderMonotone(s - {m}, t - {m});
        assert InOrder(s)[1..] == InOrder(s - {m});
      } else {
        InOrderMonotone(s, t - {m});
      }
    }
  }
}
