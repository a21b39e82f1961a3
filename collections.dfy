/** Generic list helpers with the semantics of the java.util.List operations the engines use. */
module Collections {

  datatype Option<+T> = None | Some(value: T) {
    function GetOr(default: T): T {
      match this
      case Some(v) => v
      case None => default
    }
  }

  /** True when no element occurs twice. */
  predicate NoDup<T(==)>(xs: seq<T>) {
    forall i, j :: 0 <= i < j < |xs| ==> xs[i] != xs[j]
  }

  /** `a` is obtained from `b` by deleting elements: order is kept. */
  predicate Subsequence<T(==)>(a: seq<T>, b: seq<T>)
    decreases |b|
  {
    a == [] || (b != [] && ((a[0] == b[0] && Subsequence(a[1..], b[1..])) || Subsequence(a, b[1..])))
  }

  /** `List.removeAll(ys)`: keeps, in order, every element of `xs` that is not in `ys`. */
  function RemoveAll<T(==,!new)>(xs: seq<T>, ys: seq<T>): (r: seq<T>)
    ensures forall x :: x in r <==> x in xs && x !in ys
    ensures multiset(r) <= multiset(xs)
    ensures Subsequence(r, xs)
  {
    if xs == [] then []
    else
      assert xs == [xs[0]] + xs[1..];
      var tail := RemoveAll(xs[1..], ys);
      if xs[0] in ys then tail else [xs[0]] + tail
  }

  /** `List.retainAll(ys)`: keeps, in order, every element of `xs` that is in `ys`. */
  function RetainAll<T(==,!new)>(xs: seq<T>, ys: seq<T>): (r: seq<T>)
    ensures forall x :: x in r <==> x in xs && x in ys
    ensures multiset(r) <= multiset(xs)
    ensures Subsequence(r, xs)
  {
    if xs == [] then []
    else
      assert xs == [xs[0]] + xs[1..];
      var tail := RetainAll(xs[1..], ys);
      if xs[0] in ys then [xs[0]] + tail else tail
  }

  /** `List.remove(x)`: drops the first occurrence of `x`, if any. */
  function RemoveFirst<T(==)>(xs: seq<T>, x: T): (r: seq<T>)
    ensures x in xs ==> multiset(r) == multiset(xs) - multiset{x}
    ensures x !in xs ==> r == xs
  {
    if xs == [] then []
    else if xs[0] == x then
      assert xs == [xs[0]] + xs[1..];
      xs[1..]
    else
      assert xs == [xs[0]] + xs[1..];
      [xs[0]] + RemoveFirst(xs[1..], x)
  }

  /** Removing is a partition: what `removeAll` drops is exactly what `retainAll` keeps. */
  lemma {:induction false} RemoveAllPartition<T(!new)>(xs: seq<T>, ys: seq<T>)
    ensures multiset(xs) == multiset(RetainAll(xs, ys)) + multiset(RemoveAll(xs, ys))
  {
    if xs != [] {
      assert xs == [xs[0]] + xs[1..];
      RemoveAllPartition(xs[1..], ys);
    }
  }

  /** A second `removeAll` with the same argument changes nothing. */
  lemma {:induction false} RemoveAllIdempotent<T(!new)>(xs: seq<T>, ys: seq<T>)
    ensures RemoveAll(RemoveAll(xs, ys), ys) == RemoveAll(xs, ys)
  {
    if xs != [] {
      RemoveAllIdempotent(xs[1..], ys);
    }
  }

  /** Removing nothing keeps the list as it is. */
  lemma {:induction false} RemoveNothing<T(!new)>(xs: seq<T>)
    ensures RemoveAll(xs, []) == xs
  {
    if xs != [] {
      RemoveNothing(xs[1..]);
    }
  }

  /** Deleting from a list without duplicates leaves a list without duplicates. */
  lemma {:induction false} NoDupShrinks<T>(xs: seq<T>, r: seq<T>)
    requires NoDup(xs) && multiset(r) <= multiset(xs)
    ensures NoDup(r)
  {
    forall i, j | 0 <= i < j < |r| ensures r[i] != r[j] {
      if r[i] == r[j] {
        assert r == r[..j] + r[j..];
        assert r[i] in r[..j] && r[j] in r[j..];
        assert multiset(r)[r[i]] == multiset(r[..j])[r[i]] + multiset(r[j..])[r[i]];
        assert multiset(xs)[r[i]] >= 2;
        NoDupCount(xs, r[i]);
      }
    }
  }

  lemma {:induction false} NoDupCount<T>(xs: seq<T>, x: T)
    requires NoDup(xs)
    ensures multiset(xs)[x] <= 1
  {
    if xs != [] {
      assert xs == [xs[0]] + xs[1..];
      NoDupCount(xs[1..], x);
      if xs[0] == x {
        assert x !in xs[1..];
      }
    }
  }

  /** Concatenation regrouped, for proofs where the solver does not find it alone. */
  lemma AppendAssoc<T>(a: seq<T>, b: seq<T>, c: seq<T>)
    ensures a + (b + c) == a + b + c
  {
  }

  /** A list that starts with `p` is `p` followed by the rest. */
  lemma PrefixRest<T>(a: seq<T>, p: seq<T>)
    requires |p| <= |a| && a[..|p|] == p
    ensures a == p + a[|p|..]
  {
    assert a == a[..|p|] + a[|p|..];
  }

  /** A list that shrinks twice has shrunk. */
  lemma ShrinkTrans<T>(a: seq<T>, b: seq<T>, c: seq<T>)
    requires multiset(a) <= multiset(b) && multiset(b) <= multiset(c)
    ensures multiset(a) <= multiset(c)
  {
  }

  /** The lists of a trace, one after the other. */
  function Flatten<T>(xss: seq<seq<T>>): seq<T> {
    if xss == [] then [] else Flatten(xss[..|xss| - 1]) + xss[|xss| - 1]
  }

  lemma FlattenAppend<T>(xss: seq<seq<T>>, xs: seq<T>)
    ensures Flatten(xss + [xs]) == Flatten(xss) + xs
  {
    assert (xss + [xs])[..|xss|] == xss;
  }

  lemma {:induction false} FlattenPrepend<T>(xs: seq<T>, xss: seq<seq<T>>)
    ensures Flatten([xs] + xss) == xs + Flatten(xss)
    decreases |xss|
  {
    if xss == [] {
      assert [xs] + xss == [] + [xs];
      FlattenAppend([], xs);
    } else {
      var init := xss[..|xss| - 1];
      assert [xs] + xss == ([xs] + init) + [xss[|xss| - 1]];
      FlattenAppend([xs] + init, xss[|xss| - 1]);
      FlattenPrepend(xs, init);
      assert xss == init + [xss[|xss| - 1]];
      FlattenAppend(init, xss[|xss| - 1]);
    }
  }
}
