/**
 * The list helper `unique` of utils.ts (`Array.from(new Set(list))`) and what it guarantees:
 * no duplicates, the same elements, first occurrences in input order, idempotence.
 */
module Utils {

  /** No element of `s` occurs twice. */
  predicate NoDuplicates<T(==)>(s: seq<T>) {
    forall i, j | 0 <= i < j < |s| :: s[i] != s[j]
  }

  function Last<T>(s: seq<T>): T
    requires s != []
  {
    s[|s| - 1]
  }

  function DropLast<T>(s: seq<T>): seq<T>
    requires s != []
  {
    s[..|s| - 1]
  }

  /** The set of elements of `s`. */
  function Elements<T>(s: seq<T>): set<T> {
    set x | x in s
  }

  /**
   * `Array.from(new Set(xs))`. A JavaScript Set keeps insertion order and ignores the
   * insertion of an element it already holds, so the result is built by adding the
   * elements of `xs` one after the other.
   */
  function Unique<T(==)>(xs: seq<T>): (r: seq<T>)
    ensures NoDuplicates(r)
    ensures Elements(r) == Elements(xs)
    ensures |r| <= |xs|
  {
    if xs == [] then []
    else
      var p, x := DropLast(xs), Last(xs);
      assert xs == p + [x];
      assert Elements(xs) == Elements(p) + {x};
      var u := Unique(p);
      assert Elements(u + [x]) == Elements(u) + {x};
      if x in u then u else u + [x]
  }

  /**
   * Reference definition: scan `xs` from the front, keeping an element only when it has
   * not been seen before (`seen` holds the elements already kept).
   */
  function FirstOccurrences<T(==)>(xs: seq<T>, seen: set<T>): seq<T> {
    if xs == [] then []
    else if xs[0] in seen then FirstOccurrences(xs[1..], seen)
    else [xs[0]] + FirstOccurrences(xs[1..], seen + {xs[0]})
  }

  /**
   * `a` is a subsequence of `b`: `a` is obtained from `b` by deleting elements
   * (matched greedily from the end).
   */
  predicate IsSubsequence<T(==)>(a: seq<T>, b: seq<T>)
    decreases |b|
  {
    if a == [] then true
    else if b == [] then false
    else if Last(a) == Last(b) then IsSubsequence(DropLast(a), DropLast(b))
    else IsSubsequence(a, DropLast(b))
  }

  /** Appending to the longer sequence keeps a subsequence a subsequence. */
  lemma {:induction false} SubsequenceExtend<T>(a: seq<T>, b: seq<T>, x: T)
    requires IsSubsequence(a, b)
    ensures IsSubsequence(a, b + [x])
    decreases |b|, 1
  {
    assert DropLast(b + [x]) == b;
    if a != [] && Last(a) == x {
      SubsequenceDropLast(a, b);
    }
  }

  /** Dropping the last element of a subsequence keeps it a subsequence. */
  lemma {:induction false} SubsequenceDropLast<T>(a: seq<T>, b: seq<T>)
    requires a != [] && IsSubsequence(a, b)
    ensures IsSubsequence(DropLast(a), b)
    decreases |b|, 0
  {
    assert b == DropLast(b) + [Last(b)];
    if Last(a) == Last(b) {
      SubsequenceExtend(DropLast(a), DropLast(b), Last(b));
    } else {
      SubsequenceDropLast(a, DropLast(b));
      SubsequenceExtend(DropLast(a), DropLast(b), Last(b));
    }
  }

  /** `unique(xs)` keeps elements of `xs` in their input order. */
  lemma {:induction false} UniqueIsSubsequence<T>(xs: seq<T>)
    ensures IsSubsequence(Unique(xs), xs)
  {
    if xs != [] {
      var p, x := DropLast(xs), Last(xs);
      assert xs == p + [x];
      UniqueIsSubsequence(p);
      var u := Unique(p);
      if x in u {
        SubsequenceExtend(u, p, x);
      } else {
        assert DropLast(u + [x]) == u && Last(u + [x]) == x;
      }
    }
  }

  /** Adding the elements of `r` to the set built from `p` appends their first occurrences. */
  lemma {:induction false} UniqueAppend<T>(p: seq<T>, r: seq<T>)
    ensures Unique(p + r) == Unique(p) + FirstOccurrences(r, Elements(p))
    decreases |r|
  {
    if r == [] {
      assert p + r == p;
    } else {
      var y := r[0];
      assert p + r == (p + [y]) + r[1..];
      UniqueAppend(p + [y], r[1..]);
      assert DropLast(p + [y]) == p && Last(p + [y]) == y;
      assert Elements(p + [y]) == Elements(p) + {y};
      if y in p {
        assert Elements(p) + {y} == Elements(p);
      } else {
        assert y !in Unique(p);
        assert y !in Elements(p);
      }
    }
  }

  /** `unique(xs)` is exactly the list of first occurrences of the elements of `xs`. */
  lemma {:induction false} UniqueIsFirstOccurrences<T>(xs: seq<T>)
    ensures Unique(xs) == FirstOccurrences(xs, {})
  {
    UniqueAppend([], xs);
    assert [] + xs == xs;
    assert Elements<T>([]) == {};
  }

  /** On a list without duplicates `unique` is the identity. */
  lemma {:induction false} UniqueOfDistinct<T>(xs: seq<T>)
    requires NoDuplicates(xs)
    ensures Unique(xs) == xs
  {
    if xs != [] {
      var p := DropLast(xs);
      assert xs == p + [Last(xs)];
      assert NoDuplicates(p);
      UniqueOfDistinct(p);
    }
  }

  /** `unique` is idempotent. */
  lemma {:induction false} UniqueIdempotent<T>(xs: seq<T>)
    ensures Unique(Unique(xs)) == Unique(xs)
  {
    UniqueOfDistinct(Unique(xs));
  }

  /** Appending more elements never reorders or drops what `unique` already produced. */
  lemma {:induction false} UniquePrefix<T>(xs: seq<T>, ys: seq<T>)
    ensures Unique(xs) <= Unique(xs + ys)
    decreases |ys|
  {
    if ys == [] {
      assert xs + ys == xs;
    } else {
      var zs := DropLast(ys);
      assert xs + ys == (xs + zs) + [Last(ys)];
      assert DropLast(xs + ys) == xs + zs;
      UniquePrefix(xs, zs);
    }
  }

  /**
   * Adding elements that a duplicate-free list already holds gives that list back:
   * the key step of the idempotence of `addItems`.
   */
  lemma {:induction false} UniqueAbsorb<T>(u: seq<T>, ys: seq<T>)
    requires NoDuplicates(u)
    requires forall y :: y in ys ==> y in u
    ensures Unique(u + ys) == u
    decreases |ys|
  {
    if ys == [] {
      assert u + ys == u;
      UniqueOfDistinct(u);
    } else {
      var zs := DropLast(ys);
      assert ys == zs + [Last(ys)];
      assert u + ys == (u + zs) + [Last(ys)];
      assert DropLast(u + ys) == u + zs;
      UniqueAbsorb(u, zs);
    }
  }
}
