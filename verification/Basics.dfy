/** Small shared vocabulary: options, and facts about sequences that hold identifiers. */
module Basics {

  datatype Option<+T> = None | Some(value: T)

  /** No element occurs twice. */
  ghost predicate NoDup<T>(xs: seq<T>) {
    forall i, j | 0 <= i < j < |xs| :: xs[i] != xs[j]
  }

  /** The elements of `xs` that lie in `keep`, in order. */
  ghost function Restrict<T>(xs: seq<T>, keep: set<T>): (r: seq<T>)
  {
    if xs == [] then []
    else Restrict(xs[..|xs| - 1], keep) + (if xs[|xs| - 1] in keep then [xs[|xs| - 1]] else [])
  }

  /** The elements of `xs` other than `x`, in order. */
  function Without<T(==, !new)>(xs: seq<T>, x: T): (r: seq<T>)
    ensures x !in r
    ensures forall y :: y in r <==> y in xs && y != x
    ensures x !in xs ==> r == xs
  {
    if xs == [] then []
    else if xs[0] == x then Without(xs[1..], x)
    else
      var rest := Without(xs[1..], x);
      assert xs == [xs[0]] + xs[1..];
      [xs[0]] + rest
  }

  /** All the pieces, one after the other. */
  function Concat(pieces: seq<string>): string {
    if pieces == [] then "" else Concat(pieces[..|pieces| - 1]) + pieces[|pieces| - 1]
  }

  lemma NoDupSplit<T>(xs: seq<T>, ys: seq<T>, x: T)
    requires NoDup(xs + ys) && x in xs
    ensures x !in ys
  {
    var i :| 0 <= i < |xs| && xs[i] == x;
    forall k | 0 <= k < |ys|
      ensures ys[k] != x
    {
      assert (xs + ys)[i] == x && (xs + ys)[|xs| + k] == ys[k];
    }
  }

  lemma WithoutNoDup<T(!new)>(xs: seq<T>, x: T)
    requires NoDup(xs)
    ensures NoDup(Without(xs, x))
  {
    if xs != [] {
      WithoutNoDup(xs[1..], x);
      assert NoDup(xs[1..]);
      assert forall y :: y in Without(xs[1..], x) ==> y in xs[1..];
      assert xs[0] !in xs[1..];
    }
  }

  lemma WithoutConcat<T(!new)>(xs: seq<T>, ys: seq<T>, x: T)
    ensures Without(xs + ys, x) == Without(xs, x) + Without(ys, x)
  {
    if xs == [] {
      assert xs + ys == ys;
    } else {
      assert (xs + ys)[1..] == xs[1..] + ys;
      WithoutConcat(xs[1..], ys, x);
    }
  }

  lemma SubsetSize<T>(a: set<T>, b: set<T>)
    requires a <= b
    ensures |a| <= |b|
  {
    assert b == a + (b - a);
  }

  lemma RestrictAppend<T>(xs: seq<T>, x: T, keep: set<T>)
    ensures Restrict(xs + [x], keep) == Restrict(xs, keep) + (if x in keep then [x] else [])
  {
    assert (xs + [x])[..|xs|] == xs;
  }

  /** Elements that `xs` does not hold may be added to the filter. */
  lemma {:induction false} RestrictWiden<T>(xs: seq<T>, keep: set<T>, x: T)
    requires x !in xs
    ensures Restrict(xs, keep + {x}) == Restrict(xs, keep)
  {
    if xs != [] {
      RestrictWiden(xs[..|xs| - 1], keep, x);
    }
  }

  lemma {:induction false} RestrictNone<T>(xs: seq<T>, ys: seq<T>, keep: set<T>)
    requires forall y | y in ys :: y !in keep
    ensures Restrict(xs + ys, keep) == Restrict(xs, keep)
  {
    if ys == [] {
      assert xs + ys == xs;
    } else {
      var n := |ys| - 1;
      assert xs + ys == (xs + ys[..n]) + [ys[n]];
      RestrictAppend(xs + ys[..n], ys[n], keep);
      RestrictNone(xs, ys[..n], keep);
    }
  }

  lemma {:induction false} RestrictMembers<T(!new)>(xs: seq<T>, keep: set<T>)
    ensures forall x :: x in Restrict(xs, keep) <==> x in xs && x in keep
  {
    if xs != [] {
      RestrictMembers(xs[..|xs| - 1], keep);
      assert xs == xs[..|xs| - 1] + [xs[|xs| - 1]];
    }
  }

  lemma {:induction false} RestrictNoDup<T(!new)>(xs: seq<T>, keep: set<T>)
    requires NoDup(xs)
    ensures NoDup(Restrict(xs, keep))
  {
    if xs != [] {
      RestrictNoDup(xs[..|xs| - 1], keep);
      RestrictMembers(xs[..|xs| - 1], keep);
    }
  }
}
