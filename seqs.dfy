/**
 * Order-preserving filtering of sequences, the `Array.prototype.filter` that the
 * component uses for the category view, for deletion, for the completed count, and
 * (over characters) for the price clean-up.
 */
module Seqs {

  /** The elements of `xs` that satisfy `p`, in their original order. */
  function Select<T(!new)>(xs: seq<T>, p: T -> bool): (r: seq<T>)
    ensures |r| <= |xs|
  {
    if xs == [] then []
    else (if p(xs[0]) then [xs[0]] else []) + Select(xs[1..], p)
  }

  /** An element is kept exactly when it occurs in the input and satisfies the predicate. */
  lemma {:induction false} SelectMembers<T(!new)>(xs: seq<T>, p: T -> bool)
    ensures forall x :: x in Select(xs, p) <==> x in xs && p(x)
  {
    if xs != [] {
      SelectMembers(xs[1..], p);
      assert xs == [xs[0]] + xs[1..];
    }
  }

  /** `r` can be obtained from `xs` by deleting elements, without reordering the rest. */
  predicate IsSubsequence<T(==)>(r: seq<T>, xs: seq<T>)
    decreases |xs|
  {
    if r == [] then true
    else if xs == [] then false
    else (r[0] == xs[0] && IsSubsequence(r[1..], xs[1..])) || IsSubsequence(r, xs[1..])
  }

  /**
   * Select is exactly "keep the elements satisfying p, in order": the result is a
   * subsequence of the input, every kept element satisfies p, and every element that
   * satisfies p is kept as many times as it occurs.
   */
  lemma {:induction false} SelectIsOrderedRestriction<T(!new)>(xs: seq<T>, p: T -> bool)
    ensures IsSubsequence(Select(xs, p), xs)
    ensures forall x :: x in Select(xs, p) ==> p(x)
    ensures forall x :: multiset(Select(xs, p))[x] == if p(x) then multiset(xs)[x] else 0
  {
    if xs != [] {
      SelectIsOrderedRestriction(xs[1..], p);
      assert xs == [xs[0]] + xs[1..];
      var rest := Select(xs[1..], p);
      if p(xs[0]) {
        assert Select(xs, p) == [xs[0]] + rest;
        assert Select(xs, p)[1..] == rest;
      } else {
        assert Select(xs, p) == rest;
      }
    }
  }

  /** Filtering a list in which every element already passes changes nothing. */
  lemma {:induction false} SelectAllKept<T(!new)>(xs: seq<T>, p: T -> bool)
    requires forall x :: x in xs ==> p(x)
    ensures Select(xs, p) == xs
  {
    if xs != [] {
      assert xs[0] in xs;
      forall x | x in xs[1..] ensures p(x) { assert x in xs; }
      SelectAllKept(xs[1..], p);
      assert xs == [xs[0]] + xs[1..];
    }
  }

  /** Filtering a list in which no element passes leaves nothing. */
  lemma {:induction false} SelectNoneKept<T(!new)>(xs: seq<T>, p: T -> bool)
    requires forall i :: 0 <= i < |xs| ==> !p(xs[i])
    ensures Select(xs, p) == []
  {
    if xs != [] {
      SelectNoneKept(xs[1..], p);
    }
  }

  /** Filtering twice with the same predicate is the same as filtering once. */
  lemma SelectIdempotent<T(!new)>(xs: seq<T>, p: T -> bool)
    ensures Select(Select(xs, p), p) == Select(xs, p)
  {
    SelectMembers(xs, p);
    SelectAllKept(Select(xs, p), p);
  }

  /** Filtering distributes over concatenation. */
  lemma {:induction false} SelectAppend<T(!new)>(a: seq<T>, b: seq<T>, p: T -> bool)
    ensures Select(a + b, p) == Select(a, p) + Select(b, p)
  {
    if a == [] {
      assert a + b == b;
    } else {
      var head := if p(a[0]) then [a[0]] else [];
      assert (a + b)[0] == a[0];
      assert (a + b)[1..] == a[1..] + b;
      SelectAppend(a[1..], b, p);
      calc {
        Select(a + b, p);
        head + Select(a[1..] + b, p);
        head + (Select(a[1..], p) + Select(b, p));
        (head + Select(a[1..], p)) + Select(b, p);
        Select(a, p) + Select(b, p);
      }
    }
  }

  /** Two lists whose elements get the same verdicts position by position keep equally many elements. */
  lemma {:induction false} SelectSameVerdicts<T(!new), U(!new)>(a: seq<T>, p: T -> bool, b: seq<U>, q: U -> bool)
    requires |a| == |b|
    requires forall i :: 0 <= i < |a| ==> p(a[i]) == q(b[i])
    ensures |Select(a, p)| == |Select(b, q)|
  {
    if a != [] {
      SelectSameVerdicts(a[1..], p, b[1..], q);
    }
  }

  /** `xs.reduce((sum, x) => sum + f(x), acc)`: the amounts of `xs` added to `acc`, from the left. */
  function SumFrom<T(!new)>(acc: real, xs: seq<T>, f: T -> real): (r: real)
    ensures (forall x :: f(x) >= 0.0) ==> r >= acc
    decreases |xs|
  {
    if xs == [] then acc else SumFrom(acc + f(xs[0]), xs[1..], f)
  }

  /** Part of the starting accumulator can be taken out of the fold. */
  lemma {:induction false} SumFromMovesStart<T(!new)>(a: real, b: real, xs: seq<T>, f: T -> real)
    ensures SumFrom(a + b, xs, f) == a + SumFrom(b, xs, f)
    decreases |xs|
  {
    if xs != [] {
      SumFromMovesStart(a, b + f(xs[0]), xs[1..], f);
      assert a + b + f(xs[0]) == a + (b + f(xs[0]));
    }
  }

  /** The sum of a list is its first amount plus the sum of the rest. */
  lemma SumFromCons<T(!new)>(x: T, rest: seq<T>, f: T -> real)
    ensures SumFrom(0.0, [x] + rest, f) == f(x) + SumFrom(0.0, rest, f)
  {
    assert ([x] + rest)[0] == x && ([x] + rest)[1..] == rest;
    SumFromMovesStart(f(x), 0.0, rest, f);
    assert f(x) + 0.0 == 0.0 + f(x);
  }

  /** The sum of two lists put together is the sum of their sums. */
  lemma {:induction false} SumFromAppend<T(!new)>(a: seq<T>, b: seq<T>, f: T -> real)
    ensures SumFrom(0.0, a + b, f) == SumFrom(0.0, a, f) + SumFrom(0.0, b, f)
  {
    if a == [] {
      assert a + b == b;
    } else {
      assert a + b == [a[0]] + (a[1..] + b);
      assert a == [a[0]] + a[1..];
      SumFromAppend(a[1..], b, f);
      SumFromCons(a[0], a[1..] + b, f);
      SumFromCons(a[0], a[1..], f);
    }
  }

  /** Splitting a list by a predicate and its negation splits its sum. */
  lemma {:induction false} SumFromSplit<T(!new)>(xs: seq<T>, p: T -> bool, q: T -> bool, f: T -> real)
    requires forall x :: q(x) == !p(x)
    ensures SumFrom(0.0, xs, f) == SumFrom(0.0, Select(xs, p), f) + SumFrom(0.0, Select(xs, q), f)
  {
    if xs != [] {
      var x, rest := xs[0], xs[1..];
      assert xs == [x] + rest;
      SumFromSplit(rest, p, q, f);
      SumFromCons(x, rest, f);
      if p(x) {
        assert Select(xs, p) == [x] + Select(rest, p);
        assert Select(xs, q) == Select(rest, q);
        SumFromCons(x, Select(rest, p), f);
      } else {
        assert Select(xs, p) == Select(rest, p);
        assert Select(xs, q) == [x] + Select(rest, q);
        SumFromCons(x, Select(rest, q), f);
      }
    }
  }

  /** Two lists with the same amounts, position by position, have the same sum. */
  lemma {:induction false} SumFromSameAmounts<T(!new), U(!new)>(a: seq<T>, f: T -> real, b: seq<U>, g: U -> real)
    requires |a| == |b|
    requires forall i :: 0 <= i < |a| ==> f(a[i]) == g(b[i])
    ensures SumFrom(0.0, a, f) == SumFrom(0.0, b, g)
  {
    if a != [] {
      SumFromSameAmounts(a[1..], f, b[1..], g);
      assert a == [a[0]] + a[1..] && b == [b[0]] + b[1..];
      SumFromCons(a[0], a[1..], f);
      SumFromCons(b[0], b[1..], g);
    }
  }
}
