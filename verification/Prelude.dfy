/** Small datatypes and sequence facts shared by every component of the model. */
module Prelude {

  datatype Option<+T> = None | Some(value: T)

  datatype Result<+T, +E> = Ok(value: T) | Err(error: E)
  {
    predicate IsFailure() { Err? }
    function PropagateFailure<U>(): Result<U, E>
      requires Err?
    {
      Err(error)
    }
    function Extract(): T
      requires Ok?
    {
      value
    }
  }

  /** An instant or a duration, in seconds. */
  type Time = real

  function MinReal(x: real, y: real): real {
    if x <= y then x else y
  }

  function MaxReal(x: real, y: real): real {
    if x <= y then y else x
  }

  /** `math.ceil`. */
  function Ceiling(x: real): int {
    -((-x).Floor)
  }

  lemma ConcatAssociates<T>(a: seq<T>, b: seq<T>, c: seq<T>)
    ensures a + (b + c) == (a + b) + c
  {}

  lemma PrefixAfter<T>(x: T, a: seq<T>, b: seq<T>)
    ensures a <= b <==> [x] + a <= [x] + b
  {
    assert forall i | 0 <= i < |a| :: ([x] + a)[i + 1] == a[i];
    assert forall i | 0 <= i < |b| :: ([x] + b)[i + 1] == b[i];
  }

  /** xs can be read off ys by skipping elements, keeping their order. */
  ghost predicate Subsequence<T>(xs: seq<T>, ys: seq<T>) {
    if xs == [] then true
    else if ys == [] then false
    else (xs[0] == ys[0] && Subsequence(xs[1..], ys[1..])) || Subsequence(xs, ys[1..])
  }

  lemma SubsequenceSelf<T>(xs: seq<T>)
    ensures Subsequence(xs, xs)
  {}

  lemma {:induction false} SubsequenceAppend<T>(a: seq<T>, b: seq<T>, c: seq<T>, d: seq<T>)
    requires Subsequence(a, b) && Subsequence(c, d)
    ensures Subsequence(a + c, b + d)
    decreases |b|
  {
    if b == [] {
      assert a + c == c && b + d == d;
    } else {
      assert (b + d)[1..] == b[1..] + d;
      if a != [] && a[0] == b[0] && Subsequence(a[1..], b[1..]) {
        SubsequenceAppend(a[1..], b[1..], c, d);
        assert (a + c)[1..] == a[1..] + c;
      } else {
        assert Subsequence(a, b[1..]);
        SubsequenceAppend(a, b[1..], c, d);
        if a + c == [] {
        } else {
          assert Subsequence(a + c, (b + d)[1..]);
        }
      }
    }
  }

  lemma {:induction false} SubsequenceTransitive<T>(a: seq<T>, b: seq<T>, c: seq<T>)
    requires Subsequence(a, b) && Subsequence(b, c)
    ensures Subsequence(a, c)
    decreases |b| + |c|
  {
    if a == [] || c == [] {
    } else if b[0] == c[0] && Subsequence(b[1..], c[1..]) {
      if a[0] == b[0] && Subsequence(a[1..], b[1..]) {
        SubsequenceTransitive(a[1..], b[1..], c[1..]);
      } else {
        SubsequenceTransitive(a, b[1..], c[1..]);
      }
    } else {
      SubsequenceTransitive(a, b, c[1..]);
    }
  }

  lemma {:induction false} SubsequenceMembers<T>(a: seq<T>, b: seq<T>)
    requires Subsequence(a, b)
    ensures forall x | x in a :: x in b
    decreases |b|
  {
    if a != [] && b != [] {
      if a[0] == b[0] && Subsequence(a[1..], b[1..]) {
        SubsequenceMembers(a[1..], b[1..]);
        assert a == [a[0]] + a[1..];
      } else {
        SubsequenceMembers(a, b[1..]);
      }
    }
  }

  /** Related pairs of a list stay related in every subsequence of it. */
  lemma {:induction false} SubsequencePairs<T>(a: seq<T>, b: seq<T>, related: (T, T) -> bool)
    requires Subsequence(a, b)
    requires forall i, j | 0 <= i < j < |b| :: related(b[i], b[j])
    ensures forall i, j | 0 <= i < j < |a| :: related(a[i], a[j])
    decreases |b|
  {
    if a != [] && b != [] {
      if a[0] == b[0] && Subsequence(a[1..], b[1..]) {
        SubsequencePairs(a[1..], b[1..], related);
        SubsequenceMembers(a[1..], b[1..]);
        forall j | 0 < j < |a|
          ensures related(a[0], a[j])
        {
          assert a[j] == a[1..][j - 1] && a[1..][j - 1] in b[1..];
          var k :| 0 <= k < |b[1..]| && b[1..][k] == a[j];
          assert related(b[0], b[k + 1]);
        }
        forall i, j | 0 < i < j < |a|
          ensures related(a[i], a[j])
        {
          assert related(a[1..][i - 1], a[1..][j - 1]);
        }
      } else {
        SubsequencePairs(a, b[1..], related);
      }
    }
  }
}
