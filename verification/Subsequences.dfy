/** The order-preserving "is obtained by deleting elements" relation. */
module Subsequences {

  /** `a` is obtained from `b` by deleting elements. */
  ghost predicate Subsequence<T>(a: seq<T>, b: seq<T>)
    decreases |b|
  {
    if a == [] then true
    else if b == [] then false
    else (a[0] == b[0] && Subsequence(a[1..], b[1..])) || Subsequence(a, b[1..])
  }

  lemma {:induction false} Reflexive<T>(a: seq<T>)
    ensures Subsequence(a, a)
  {
    if a != [] {
      Reflexive(a[1..]);
    }
  }

  lemma SkipHead<T>(a: seq<T>, b: seq<T>)
    requires b != [] && Subsequence(a, b[1..])
    ensures Subsequence(a, b)
  {
  }

  lemma {:induction false} Append<T>(a: seq<T>, b: seq<T>, c: seq<T>, d: seq<T>)
    requires Subsequence(a, b) && Subsequence(c, d)
    ensures Subsequence(a + c, b + d)
    decreases |b|
  {
    if b == [] {
      assert a + c == c && b + d == d;
    } else if a == [] {
      Append(a, b[1..], c, d);
      assert (b + d)[1..] == b[1..] + d;
      SkipHead(a + c, b + d);
    } else {
      assert (a + c)[1..] == a[1..] + c;
      assert (b + d)[1..] == b[1..] + d;
      if a[0] == b[0] && Subsequence(a[1..], b[1..]) {
        Append(a[1..], b[1..], c, d);
      } else {
        Append(a, b[1..], c, d);
        SkipHead(a + c, b + d);
      }
    }
  }

  lemma {:induction false} NotLonger<T>(a: seq<T>, b: seq<T>)
    requires Subsequence(a, b)
    ensures |a| <= |b|
    decreases |b|
  {
    if a != [] {
      if a[0] == b[0] && Subsequence(a[1..], b[1..]) {
        NotLonger(a[1..], b[1..]);
      } else {
        NotLonger(a, b[1..]);
      }
    }
  }

  /** A last element on the right that is not the last one on the left is not needed. */
  lemma {:induction false} LastIsElsewhere<T>(a: seq<T>, x: T, b: seq<T>, y: T)
    requires x != y && Subsequence(a + [x], b + [y])
    ensures Subsequence(a + [x], b)
    decreases |b|
  {
    var left, right := a + [x], b + [y];
    if b != [] {
      assert right[1..] == b[1..] + [y] && right[0] == b[0];
      if left[0] == right[0] && Subsequence(left[1..], right[1..]) {
        if a == [] {
          assert left[1..] == [];
        } else {
          assert left[1..] == a[1..] + [x];
          LastIsElsewhere(a[1..], x, b[1..], y);
        }
      } else {
        LastIsElsewhere(a, x, b[1..], y);
      }
    }
  }
}
